/** The transaction list page, src/pages/Transactions.tsx: its search filter,
    its delete-by-id update and the page state its handlers overwrite. */
module Transactions {
  import opened Collections
  import opened Text
  import opened Types
  import opened MonthYearSelect

  const LoadError := "Não foi possível carregar as transações, tente novamente"

  /** The search rule: the upper-cased description contains the upper-cased query. */
  predicate Matches(t: Transaction, query: string)
    ensures Matches(t, query) <==> exists i :: OccursAt(Upper(t.description), Upper(query), i)
    ensures query == "" ==> Matches(t, query)
  {
    ContainsIff(Upper(t.description), Upper(query));
    ContainsEmpty(Upper(t.description));
    Contains(Upper(t.description), Upper(query))
  }

  /** The list handleSearchChange shows for `query`. */
  function Search(ts: seq<Transaction>, query: string): (r: seq<Transaction>)
    ensures IsSubsequence(r, ts) && |r| <= |ts|
    ensures forall i :: 0 <= i < |r| ==> Matches(r[i], query)
    ensures forall t :: t in r <==> t in ts && Matches(t, query)
    ensures forall t :: multiset(r)[t] == if Matches(t, query) then multiset(ts)[t] else 0
  {
    Filter(ts, t => Matches(t, query))
  }

  /** Search in terms of substrings: a transaction is kept exactly when the
      upper-cased query occurs at some position of its upper-cased description. */
  lemma SearchBySubstring(ts: seq<Transaction>, query: string, t: Transaction)
    requires t in ts
    ensures t in Search(ts, query) <==> exists i :: OccursAt(Upper(t.description), Upper(query), i)
  {
    ContainsIff(Upper(t.description), Upper(query));
  }

  /** An empty query keeps the whole list. */
  lemma SearchEmptyKeepsAll(ts: seq<Transaction>)
    ensures Search(ts, "") == ts
  {
    forall t | t in ts ensures Matches(t, "") {
      ContainsEmpty(Upper(t.description));
    }
    FilterKeepsAll(ts, t => Matches(t, ""));
  }

  /** The search ignores case: queries that upper-case alike give the same list. */
  lemma SearchIgnoresCase(ts: seq<Transaction>, q1: string, q2: string)
    requires Upper(q1) == Upper(q2)
    ensures Search(ts, q1) == Search(ts, q2)
  {
    FilterCongruent(ts, t => Matches(t, q1), t => Matches(t, q2));
  }

  /** The list handleDelete leaves behind: `prev.filter(t => t.id !== id)`. */
  function RemoveById(ts: seq<Transaction>, id: string): (r: seq<Transaction>)
    ensures IsSubsequence(r, ts) && |r| <= |ts|
    ensures forall i :: 0 <= i < |r| ==> r[i].id != id
    ensures forall t :: t in r <==> t in ts && t.id != id
    ensures forall t :: multiset(r)[t] == if t.id == id then 0 else multiset(ts)[t]
  {
    Filter(ts, (t: Transaction) => t.id != id)
  }

  /** Deleting an id that no transaction carries changes nothing. */
  lemma RemoveAbsentId(ts: seq<Transaction>, id: string)
    requires forall i :: 0 <= i < |ts| ==> ts[i].id != id
    ensures RemoveById(ts, id) == ts
  {
    FilterKeepsAll(ts, (t: Transaction) => t.id != id);
  }

  /** Deleting the same id twice is deleting it once. */
  lemma RemoveByIdIdempotent(ts: seq<Transaction>, id: string)
    ensures RemoveById(RemoveById(ts, id), id) == RemoveById(ts, id)
  {
    RemoveAbsentId(RemoveById(ts, id), id);
  }

  /** The state of the Transactions component. `fetched` is the list the last
      successful fetch returned (ghost: the component does not keep it). */
  class TransactionsPage {
    var month: int
    var year: int
    var loading: bool
    var error: Option<string>
    var transactions: seq<Transaction>
    var filteredTransactions: seq<Transaction>
    var deletingId: string
    var searchText: string
    ghost var fetched: seq<Transaction>

    /** The month stays in 1..12, and both lists only ever hold transactions
        of the last fetched list, in its order. */
    ghost predicate Valid()
      reads this
    {
      && ValidMonth(month)
      && IsSubsequence(transactions, fetched)
      && IsSubsequence(filteredTransactions, fetched)
    }

    /** The initial state; `currentYear` and `zeroBasedMonth` come from the clock
        (`getFullYear()` and `getMonth()`). */
    constructor (currentYear: int, zeroBasedMonth: int)
      requires 0 <= zeroBasedMonth <= 11
      ensures Valid()
      ensures month == zeroBasedMonth + 1 && year == currentYear
      ensures !loading && error == None
      ensures transactions == [] && filteredTransactions == []
      ensures deletingId == "" && searchText == ""
      ensures fetched == []
    {
      month, year := zeroBasedMonth + 1, currentYear;
      loading, error := false, None;
      transactions, filteredTransactions := [], [];
      deletingId, searchText := "", "";
      fetched := [];
    }

    /** fetchTransactions: `getTransactions` answers the request for the
        page's (month, year). On success both lists become the answer; on
        failure they stay and the error message is set. */
    method FetchTransactions(getTransactions: Period -> Response<seq<Transaction>>)
      requires Valid()
      modifies this
      ensures Valid()
      ensures !loading
      ensures getTransactions(Period(month, year)).Ok? ==>
        && transactions == getTransactions(Period(month, year)).value
        && filteredTransactions == transactions
        && error == Some("")
      ensures getTransactions(Period(month, year)).Failed? ==>
        && transactions == old(transactions)
        && filteredTransactions == old(filteredTransactions)
        && error == Some(LoadError)
      ensures fetched == if getTransactions(Period(month, year)).Ok?
        then getTransactions(Period(month, year)).value else old(fetched)
      ensures month == old(month) && year == old(year)
      ensures deletingId == old(deletingId) && searchText == old(searchText)
    {
      loading := true;
      error := Some("");
      var response := getTransactions(Period(month, year));
      if response.Ok? {
        transactions := response.value;
        filteredTransactions := response.value;
        fetched := response.value;
        SubsequenceReflexive(fetched);
      } else {
        error := Some(LoadError);
      }
      loading := false;
    }

    /** handleDelete: `deleted` is whether `deleteTransactions(id)` resolved.
        On success every transaction with that id leaves `transactions`;
        `filteredTransactions` is not touched either way, and `deletingId` is
        back to "" at the end. */
    method HandleDelete(id: string, deleted: bool)
      requires Valid()
      modifies this
      ensures Valid()
      ensures fetched == old(fetched)
      ensures transactions == if deleted then RemoveById(old(transactions), id) else old(transactions)
      ensures filteredTransactions == old(filteredTransactions)
      ensures deletingId == ""
      ensures month == old(month) && year == old(year) && loading == old(loading)
      ensures error == old(error) && searchText == old(searchText)
    {
      deletingId := id;
      if deleted {
        var before := transactions;
        transactions := RemoveById(transactions, id);
        SubsequenceTransitive(transactions, before, fetched);
      }
      deletingId := "";
    }

    /** confirmDelete: deletes only when the user confirmed the dialog. */
    method ConfirmDelete(id: string, confirmed: bool, deleted: bool)
      requires Valid()
      modifies this
      ensures Valid()
      ensures fetched == old(fetched)
      ensures transactions == if confirmed && deleted then RemoveById(old(transactions), id) else old(transactions)
      ensures filteredTransactions == old(filteredTransactions)
      ensures deletingId == if confirmed then "" else old(deletingId)
      ensures month == old(month) && year == old(year) && loading == old(loading)
      ensures error == old(error) && searchText == old(searchText)
    {
      if confirmed {
        HandleDelete(id, deleted);
      }
    }

    /** handleSearchChange: records the query and shows the matching
        transactions; the full list is kept. */
    method HandleSearchChange(query: string)
      requires Valid()
      modifies this
      ensures Valid()
      ensures fetched == old(fetched)
      ensures searchText == query
      ensures filteredTransactions == Search(transactions, query)
      ensures transactions == old(transactions)
      ensures month == old(month) && year == old(year) && loading == old(loading)
      ensures error == old(error) && deletingId == old(deletingId)
    {
      searchText := query;
      filteredTransactions := Search(transactions, query);
      SubsequenceTransitive(filteredTransactions, transactions, fetched);
    }

    /** The stepper's "next month" button, through `onMonthChange`/`onYearChange`. */
    method NextMonth()
      requires Valid()
      modifies this
      ensures Valid()
      ensures fetched == old(fetched)
      ensures Period(month, year) == Next(old(Period(month, year)))
      ensures transactions == old(transactions) && filteredTransactions == old(filteredTransactions)
      ensures loading == old(loading) && error == old(error)
      ensures deletingId == old(deletingId) && searchText == old(searchText)
    {
      var p := Next(Period(month, year));
      month, year := p.month, p.year;
    }

    /** The stepper's "previous month" button. */
    method PrevMonth()
      requires Valid()
      modifies this
      ensures Valid()
      ensures fetched == old(fetched)
      ensures Period(month, year) == Prev(old(Period(month, year)))
      ensures transactions == old(transactions) && filteredTransactions == old(filteredTransactions)
      ensures loading == old(loading) && error == old(error)
      ensures deletingId == old(deletingId) && searchText == old(searchText)
    {
      var p := Prev(Period(month, year));
      month, year := p.month, p.year;
    }

    /** Choosing entry `option` of the month `<select>`. */
    method SelectMonth(option: int)
      requires Valid()
      requires 0 <= option < |MonthOptions()|
      modifies this
      ensures Valid()
      ensures fetched == old(fetched)
      ensures month == option + 1 && year == old(year)
      ensures transactions == old(transactions) && filteredTransactions == old(filteredTransactions)
      ensures loading == old(loading) && error == old(error)
      ensures deletingId == old(deletingId) && searchText == old(searchText)
    {
      month := MonthOptions()[option].value;
    }

    /** Choosing entry `option` of the year `<select>`, whose window is centred
        on `currentYear`. */
    method SelectYear(currentYear: int, option: int)
      requires Valid()
      requires 0 <= option < |Years(currentYear)|
      modifies this
      ensures Valid()
      ensures fetched == old(fetched)
      ensures year == currentYear - 5 + option && month == old(month)
      ensures transactions == old(transactions) && filteredTransactions == old(filteredTransactions)
      ensures loading == old(loading) && error == old(error)
      ensures deletingId == old(deletingId) && searchText == old(searchText)
    {
      year := Years(currentYear)[option];
    }
  }
}
