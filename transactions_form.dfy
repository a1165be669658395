/** The new-transaction form, src/pages/TransactionsForm.tsx: the validation
    rule, the category list offered for the chosen type, the field updates
    and the request body sent on submit. */
module TransactionsForm {
  import opened Collections
  import opened Types

  datatype FormData = FormData(
    description: string,
    amount: real,
    date: string,
    categoryId: string,
    kind: TransactionType)

  const InitialFormData := FormData("", 0.0, "", "", Expense)

  const FillAllFields := "Preencha todos os campos"
  const AmountMustBePositive := "O valor deve ser maio que zero"

  /** Appended to the picked `yyyy-mm-dd` so the API receives noon UTC. */
  const DateSuffix := "T12:00:00.000Z"

  datatype Validation = Accepted | Rejected(message: string)

  /** validateForm. The `!formData` test in the source is always false, so the
      date is never checked. */
  function ValidateForm(f: FormData): (v: Validation)
    ensures v.Accepted? <==> f.description != "" && f.categoryId != "" && f.amount > 0.0
    ensures v.Rejected? ==> v.message in {FillAllFields, AmountMustBePositive}
    ensures v == Rejected(FillAllFields) <==> f.description == "" || f.amount == 0.0 || f.categoryId == ""
    ensures v == Rejected(AmountMustBePositive) <==> f.description != "" && f.categoryId != "" && f.amount < 0.0
  {
    if f.description == "" || f.amount == 0.0 || f.categoryId == "" then
      Rejected(FillAllFields)
    else if f.amount <= 0.0 then
      Rejected(AmountMustBePositive)
    else
      Accepted
  }

  /** The untouched form cannot be submitted. */
  lemma InitialFormRejected()
    ensures ValidateForm(InitialFormData) == Rejected(FillAllFields)
  {
  }

  /** filteredCategories: the categories of the form's transaction type, in order. */
  function CategoriesOfType(categories: seq<Category>, kind: TransactionType): (r: seq<Category>)
    ensures IsSubsequence(r, categories) && |r| <= |categories|
    ensures forall i :: 0 <= i < |r| ==> r[i].kind == kind
    ensures forall c :: c in r <==> c in categories && c.kind == kind
    ensures forall c :: multiset(r)[c] == if c.kind == kind then multiset(categories)[c] else 0
  {
    Filter(categories, (c: Category) => c.kind == kind)
  }

  /** Each category is offered under exactly one of the two types, so the two
      lists together hold every category once. */
  lemma CategoriesSplitByType(categories: seq<Category>)
    ensures |CategoriesOfType(categories, Expense)| + |CategoriesOfType(categories, Income)| == |categories|
    ensures multiset(CategoriesOfType(categories, Expense)) + multiset(CategoriesOfType(categories, Income))
         == multiset(categories)
  {
    var e := CategoriesOfType(categories, Expense);
    var i := CategoriesOfType(categories, Income);
    assert multiset(e) + multiset(i) == multiset(categories) by {
      forall c ensures (multiset(e) + multiset(i))[c] == multiset(categories)[c] {
      }
    }
    assert |multiset(e) + multiset(i)| == |multiset(categories)|;
  }

  /** The `name`d inputs of the form and the value each one delivers. */
  datatype InputEvent =
    | DescriptionInput(text: string)
    | AmountInput(amount: real)
    | DateInput(text: string)
    | CategoryInput(text: string)

  datatype Field = Description | Amount | Date | CategoryId | Kind

  /** The form field an input event names. */
  function FieldOf(e: InputEvent): Field
  {
    match e
    case DescriptionInput(_) => Description
    case AmountInput(_) => Amount
    case DateInput(_) => Date
    case CategoryInput(_) => CategoryId
  }

  /** Two forms agree on every field except possibly `except`. */
  predicate SameExcept(f: FormData, g: FormData, except: Field)
  {
    && (except != Description ==> g.description == f.description)
    && (except != Amount ==> g.amount == f.amount)
    && (except != Date ==> g.date == f.date)
    && (except != CategoryId ==> g.categoryId == f.categoryId)
    && (except != Kind ==> g.kind == f.kind)
  }

  /** handleChange: `{ ...prev, [name]: value }`. */
  function WithInput(f: FormData, e: InputEvent): (g: FormData)
    ensures SameExcept(f, g, FieldOf(e))
    ensures e.DescriptionInput? ==> g.description == e.text
    ensures e.AmountInput? ==> g.amount == e.amount
    ensures e.DateInput? ==> g.date == e.text
    ensures e.CategoryInput? ==> g.categoryId == e.text
  {
    match e
    case DescriptionInput(s) => f.(description := s)
    case AmountInput(a) => f.(amount := a)
    case DateInput(s) => f.(date := s)
    case CategoryInput(s) => f.(categoryId := s)
  }

  /** handleTransactionType: `{ ...prev, type: itemType }`. */
  function WithType(f: FormData, kind: TransactionType): (g: FormData)
    ensures SameExcept(f, g, Kind)
    ensures g.kind == kind
  {
    f.(kind := kind)
  }

  /** Edits of two different fields can be made in either order. */
  lemma InputsCommute(f: FormData, e1: InputEvent, e2: InputEvent)
    requires FieldOf(e1) != FieldOf(e2)
    ensures WithInput(WithInput(f, e1), e2) == WithInput(WithInput(f, e2), e1)
  {
  }

  /** A later edit of the same field overwrites the earlier one. */
  lemma LastInputWins(f: FormData, e1: InputEvent, e2: InputEvent)
    requires FieldOf(e1) == FieldOf(e2)
    ensures WithInput(WithInput(f, e1), e2) == WithInput(f, e2)
  {
  }

  /** The request body handleSubmit sends: the form's fields, the date at noon UTC. */
  function BuildDTO(f: FormData): (d: CreateTransactionDTO)
    ensures d.description == f.description && d.amount == f.amount
    ensures d.categoryId == f.categoryId && d.kind == f.kind
    ensures |d.date| == |f.date| + |DateSuffix|
    ensures d.date[..|f.date|] == f.date && d.date[|f.date|..] == DateSuffix
  {
    CreateTransactionDTO(f.description, f.amount, f.date + DateSuffix, f.categoryId, f.kind)
  }

  /** The form a request body was built from: strip the date suffix. */
  function FormOf(d: CreateTransactionDTO): (f: FormData)
    requires |d.date| >= |DateSuffix|
    ensures |f.date| == |d.date| - |DateSuffix|
  {
    FormData(d.description, d.amount, d.date[..|d.date| - |DateSuffix|], d.categoryId, d.kind)
  }

  /** Building the request body loses nothing: the form can be read back from it. */
  lemma BuildDTORoundTrip(f: FormData)
    ensures FormOf(BuildDTO(f)) == f
  {
    assert (f.date + DateSuffix)[..|f.date|] == f.date;
  }

  /** Different forms give different request bodies. */
  lemma BuildDTOInjective(f: FormData, g: FormData)
    requires BuildDTO(f) == BuildDTO(g)
    ensures f == g
  {
    BuildDTORoundTrip(f);
    BuildDTORoundTrip(g);
  }

  /** The state of the TransactionsForm component. */
  class TransactionsFormPage {
    var categories: seq<Category>
    var formData: FormData
    var error: Option<string>
    var loading: bool

    constructor ()
      ensures categories == [] && formData == InitialFormData
      ensures error == None && !loading
    {
      categories := [];
      formData := InitialFormData;
      error := None;
      loading := false;
    }

    /** The effect that loads the categories once; a rejected request is not
        caught, so the list stays as it was. */
    method FetchCategories(response: Response<seq<Category>>)
      modifies this
      ensures categories == if response.Ok? then response.value else old(categories)
      ensures formData == old(formData) && error == old(error) && loading == old(loading)
    {
      if response.Ok? {
        categories := response.value;
      }
    }

    /** filteredCategories, recomputed from the state on every render. */
    function FilteredCategories(): (r: seq<Category>)
      reads this
      ensures forall c :: c in r <==> c in categories && c.kind == formData.kind
      ensures IsSubsequence(r, categories)
    {
      CategoriesOfType(categories, formData.kind)
    }

    method HandleTransactionType(kind: TransactionType)
      modifies this
      ensures formData == WithType(old(formData), kind)
      ensures categories == old(categories) && error == old(error) && loading == old(loading)
    {
      formData := WithType(formData, kind);
    }

    method HandleChange(e: InputEvent)
      modifies this
      ensures formData == WithInput(old(formData), e)
      ensures categories == old(categories) && error == old(error) && loading == old(loading)
    {
      formData := WithInput(formData, e);
    }

    /** handleSubmit. `createTransaction` is the outcome of the POST for a
        given body. `sent` is the body that was posted, if any; `navigated`
        says whether the page went back to the list. */
    method HandleSubmit(createTransaction: CreateTransactionDTO -> bool)
      returns (sent: Option<CreateTransactionDTO>, navigated: bool)
      modifies this
      ensures !loading
      ensures ValidateForm(formData).Rejected? ==>
        sent == None && !navigated && error == Some(ValidateForm(formData).message)
      ensures ValidateForm(formData).Accepted? ==>
        && sent == Some(BuildDTO(formData))
        && navigated == createTransaction(BuildDTO(formData))
        && error == None
      ensures formData == old(formData) && categories == old(categories)
    {
      loading := true;
      error := None;
      var verdict := ValidateForm(formData);
      if verdict.Rejected? {
        error := Some(verdict.message);
        sent, navigated := None, false;
      } else {
        var body := BuildDTO(formData);
        sent := Some(body);
        navigated := createTransaction(body);
      }
      loading := false;
    }
  }
}
