# Personal-finance client: month stepper, transaction list and new-transaction form

This Dafny project models the logic inside the event handlers of a React
personal-finance web client. It has three parts:

- **Month/year stepper** (`MonthYearSelect`). The "next" and "previous" buttons
  wrap from December to January and back, and change the year when they do.
  The year picker offers an eleven-year window centred on the current year.
  The month picker offers the twelve Portuguese month names with values 1..12.
  The component keeps no state. Its two callbacks, `onMonthChange` and
  `onYearChange`, are merged here into one function that returns a `Period`
  (month, year).
- **Transaction list page** (`Transactions`). The class `TransactionsPage`
  holds the component's state: `month`, `year`, `loading`, `error`,
  `transactions`, `filteredTransactions`, `deletingId` and `searchText`.
  Each handler is a method that reassigns these fields:
  - the case-insensitive substring search,
  - delete-by-id after a confirmation,
  - the fetch for the selected month,
  - the stepper's buttons and the two pickers.

  A ghost field, `fetched`, remembers the last list fetched: the constructor sets it to the empty list, a successful fetch to the fetched list, and every other method keeps it. The invariant
  `Valid()` says that both lists are always subsequences of it, and that the
  month stays in 1..12.
- **New-transaction form** (`TransactionsForm`). This part has:
  - the validation rule and its two error messages,
  - the categories offered for the chosen transaction type,
  - the one-field updates of the form record,
  - the request body sent on submit, whose date gets the fixed suffix
    `T12:00:00.000Z`.

  The class `TransactionsFormPage` holds the `categories`, `formData`,
  `error` and `loading` state.

The supporting modules are `Collections` (an Option type, the order-keeping
`Filter` and the subsequence relation), `Text` (upper-casing and substring
containment) and `Types` (the transaction and category records).

Some behaviour of the code is modelled as written, because it is what the
component does:
- After a successful delete, the deleted row is removed from `transactions`
  only. `filteredTransactions` is left alone, and it is the list the table
  renders.
- A fetch resets both lists to the fetched data but keeps `searchText`.

The backend and the clock are parameters:
- `getTransactions` is a function from the requested `Period` to a
  `Response`.
- The outcomes of `deleteTransactions`, `createTransaction` and
  `getCategories` are arguments to the methods.
- The confirmation dialog is a boolean.
- The current year and month are constructor arguments.

The TypeScript field `type` is called `kind`, because `type` is a Dafny
keyword. Amounts are exact `real`s, not floating point.

## Model

| member | source | states |
|---|---|---|
| `MonthYearSelect.Next` | src/components/MonthYearSelect.tsx:29-36 | month 12 goes to month 1 of year+1; any other month m goes to m+1 with the same year; a month in 1..12 stays in 1..12 and the absolute month index grows by exactly one |
| `MonthYearSelect.Prev` | src/components/MonthYearSelect.tsx:38-45 | month 1 goes to month 12 of year-1; any other month m goes to m-1 with the same year; a month in 1..12 stays in 1..12 and the absolute month index drops by exactly one |
| `MonthYearSelect.StepsAreCalendarMoves` | src/components/MonthYearSelect.tsx:29-45 | on a valid period, next and previous equal the calendar successor and predecessor, computed independently from the month index |
| `MonthYearSelect.StepsUndoEachOther` | src/components/MonthYearSelect.tsx:29-45 | for a month in 1..12, previous after next and next after previous both give back the original (month, year) |
| `MonthYearSelect.Years` | src/components/MonthYearSelect.tsx:26-27 | the year window has 11 entries from currentYear-5 to currentYear+5; it is strictly increasing, holds exactly the years in that range, and contains currentYear |
| `MonthYearSelect.MonthOptions` | src/components/MonthYearSelect.tsx:10-23 | twelve options, option i has value i+1 and the i-th month name; the values are exactly the months 1..12; the names are pairwise distinct (the React `key`) |
| `Text.UpperChar` | src/pages/Transactions.tsx:68 | the upper-cased character is never a lower-case letter; a lower-case letter maps to the same letter in upper case; anything else is unchanged |
| `Text.Upper` | src/pages/Transactions.tsx:68 | `toUpperCase` keeps the length, maps each character by UpperChar, and leaves no lower-case letter |
| `Text.UpperIdempotent` | src/pages/Transactions.tsx:68 | upper-casing twice is the same as upper-casing once |
| `Text.ContainsIff` | src/pages/Transactions.tsx:68 | the left-to-right `includes` search is true exactly when the needle occurs at some position of the haystack |
| `Text.ContainsEmpty` | src/pages/Transactions.tsx:68 | every string includes the empty string |
| `Collections.Filter` | src/pages/Transactions.tsx:44 | `Array.prototype.filter`: the result is a subsequence of the input, no longer than it; every kept element satisfies the predicate; an element is kept exactly when it is in the input and satisfies the predicate, with its full multiplicity, and one that fails it does not occur at all |
| `Text.Contains` | src/pages/Transactions.tsx:68 | `String.prototype.includes`: true whenever the needle is a prefix of the haystack (so always for the empty needle), and true only when the needle is no longer than the haystack |
| `Transactions.Matches` | src/pages/Transactions.tsx:67-68 | the search predicate holds exactly when the upper-cased query occurs at some position of the upper-cased description; an empty query matches every transaction |
| `Transactions.Search` | src/pages/Transactions.tsx:66-70 | the result is a subsequence of `transactions` in the original order and no longer than it; each kept entry matches the query (soundness); each entry that matches is kept with its multiplicity (completeness) |
| `Transactions.SearchBySubstring` | src/pages/Transactions.tsx:66-70 | a transaction is kept exactly when its upper-cased description has the upper-cased query as a substring at some position |
| `Transactions.SearchEmptyKeepsAll` | src/pages/Transactions.tsx:66-70 | an empty query keeps every transaction, in order |
| `Transactions.SearchIgnoresCase` | src/pages/Transactions.tsx:68 | two queries that upper-case to the same string give the same result |
| `Transactions.RemoveById` | src/pages/Transactions.tsx:44 | the result holds no entry with the given id; it keeps every other entry with its multiplicity, in the original order |
| `Transactions.RemoveAbsentId` | src/pages/Transactions.tsx:44 | deleting an id that no entry has leaves the list unchanged |
| `Transactions.RemoveByIdIdempotent` | src/pages/Transactions.tsx:44 | deleting the same id twice is the same as deleting it once |
| `Transactions.TransactionsPage.constructor` | src/pages/Transactions.tsx:14-22 | the month is the clock's zero-based month plus one and the year is the current year; not loading, no error, both lists empty, `deletingId` and `searchText` empty |
| `Transactions.TransactionsPage.FetchTransactions` | src/pages/Transactions.tsx:24-37 | requests the page's (month, year); on success `transactions` and `filteredTransactions` both become the fetched list and the error is ""; on failure both lists are kept and the load error message is set; the last fetched list becomes the response on success and is kept on failure; loading ends false; `searchText` and `deletingId` are untouched |
| `Transactions.TransactionsPage.HandleDelete` | src/pages/Transactions.tsx:39-51 | on success `transactions` becomes RemoveById of the old list, and on failure it is unchanged; `filteredTransactions` is never touched; `deletingId` ends "" either way; the last fetched list is kept |
| `Transactions.TransactionsPage.ConfirmDelete` | src/pages/Transactions.tsx:53-57 | without confirmation nothing changes; with it, the state is that of HandleDelete |
| `Transactions.TransactionsPage.HandleSearchChange` | src/pages/Transactions.tsx:64-71 | `searchText` becomes the query and `filteredTransactions` becomes Search of `transactions`; `transactions` and the last fetched list are unchanged, and both lists stay subsequences of that last fetched list |
| `Transactions.TransactionsPage.NextMonth` | src/pages/Transactions.tsx:89-94 | the page's (month, year) becomes Next of the old one; the month stays in 1..12; nothing else changes |
| `Transactions.TransactionsPage.PrevMonth` | src/pages/Transactions.tsx:89-94 | the page's (month, year) becomes Prev of the old one; the month stays in 1..12; nothing else changes |
| `Transactions.TransactionsPage.SelectMonth` | src/components/MonthYearSelect.tsx:62-73 | choosing option i of the month picker sets the month to i+1 and keeps the year |
| `Transactions.TransactionsPage.SelectYear` | src/components/MonthYearSelect.tsx:78-89 | choosing option i of the year picker sets the year to currentYear-5+i and keeps the month |
| `TransactionsForm.ValidateForm` | src/pages/TransactionsForm.tsx:50-62 | accepts exactly when the description and categoryId are non-empty and amount > 0; rejects with "Preencha todos os campos" exactly when the description is empty, the amount is 0 or categoryId is empty; rejects with "O valor deve ser maio que zero" exactly when those fields are present and the amount is negative; the date is never checked |
| `TransactionsForm.InitialFormRejected` | src/pages/TransactionsForm.tsx:23-29 | the initial form is rejected with "Preencha todos os campos" |
| `TransactionsForm.CategoriesOfType` | src/pages/TransactionsForm.tsx:48 | exactly the categories whose type equals the form's type, in their original order and with their multiplicities |
| `TransactionsForm.CategoriesSplitByType` | src/pages/TransactionsForm.tsx:48 | the expense list and the income list together hold every category exactly once |
| `TransactionsForm.WithInput` | src/pages/TransactionsForm.tsx:68-72 | the field named by the input event takes the event's value; every other field is unchanged |
| `TransactionsForm.WithType` | src/pages/TransactionsForm.tsx:64-66 | only `type` changes, to the chosen type |
| `TransactionsForm.InputsCommute` | src/pages/TransactionsForm.tsx:68-72 | edits of two different fields give the same form in either order |
| `TransactionsForm.LastInputWins` | src/pages/TransactionsForm.tsx:68-72 | a second edit of the same field overwrites the first |
| `TransactionsForm.BuildDTO` | src/pages/TransactionsForm.tsx:84-90 | description, amount, categoryId and type are copied unchanged; the date is the form's date followed by `T12:00:00.000Z` |
| `TransactionsForm.BuildDTORoundTrip` | src/pages/TransactionsForm.tsx:84-90 | removing the date suffix from the request body gives back the form |
| `TransactionsForm.BuildDTOInjective` | src/pages/TransactionsForm.tsx:84-90 | different forms give different request bodies |
| `TransactionsForm.TransactionsFormPage.constructor` | src/pages/TransactionsForm.tsx:23-35 | no categories; the form is the initial one (empty description, amount 0, empty date, empty categoryId, type EXPENSE); no error; not loading |
| `TransactionsForm.TransactionsFormPage.FetchCategories` | src/pages/TransactionsForm.tsx:39-46 | on success the categories become the response; a failed request leaves them unchanged |
| `TransactionsForm.TransactionsFormPage.FilteredCategories` | src/pages/TransactionsForm.tsx:48 | the offered categories are exactly those of the form's current type, as a subsequence of `categories` |
| `TransactionsForm.TransactionsFormPage.HandleTransactionType` | src/pages/TransactionsForm.tsx:64-66 | `formData` becomes WithType of the old form; categories, error and loading are unchanged |
| `TransactionsForm.TransactionsFormPage.HandleChange` | src/pages/TransactionsForm.tsx:68-72 | `formData` becomes WithInput of the old form; categories, error and loading are unchanged |
| `TransactionsForm.TransactionsFormPage.HandleSubmit` | src/pages/TransactionsForm.tsx:74-101 | loading ends false. A rejected form posts nothing, does not navigate and sets the rule's message. An accepted form posts exactly BuildDTO of the form, clears the error, and navigates exactly when the POST succeeds. The form and categories are unchanged |

## Left out

- JSX rendering, CSS classes, icons, routing, `toast`, `console.error` and `navigate`'s target are presentation or side effects with nothing to state. The disabled state of the buttons is also left out.
- The Firebase sign-in (src/context/AuthContext.tsx, src/config/firebase.ts) is a wrapper over an SDK that cannot be seen. src/services/api.ts only creates the axios client with the API base URL and a 10-second request timeout; the timeout, and HTTP in general, are left out. The transaction and category services are not part of this model. Their results appear only as success or failure outcomes passed to the methods.
- Promise ordering is not modelled. Each handler runs to completion as one method, so the intermediate state while a request is pending is not exposed. For example, `deletingId` equals the id only during the wait.
- The effects that fetch are left to the caller. The Transactions page runs fetchTransactions once on mount and afterwards when `month` or `year` actually changes, and whenever the user presses the retry button shown with the load error (src/pages/Transactions.tsx:116), with (month, year) unchanged; so after NextMonth, PrevMonth, SelectMonth or SelectYear the caller calls FetchTransactions only if the (month, year) pair differs from the one before (choosing the month already selected does not refetch). The form page runs fetchCategories once on mount; the caller calls FetchCategories then.
- `formatCurrency` (src/utils/formatters.ts) depends on `Intl` locale formatting and floating point. `formatDate` is imported by the list page from src/utils/formatters.ts (src/pages/Transactions.tsx:11), but that file does not define it.
- The dashboard page reuses the stepper. It only fetches a summary and keeps it in state, so it is not modelled.
- `Text.UpperChar`: only the ASCII letters a..z are upper-cased. Accented letters such as "ç" and "ã", common in Portuguese descriptions like "Transação", are left unchanged, whereas JavaScript upper-cases them.
- `Text.Upper`: it upper-cases ASCII letters only. JavaScript's `toUpperCase` covers all of Unicode, including letters that change length such as "ß".
- `TransactionsForm.ValidateForm`: it treats the amount as a number. At runtime `handleChange` stores the amount input as a string. A typed "0" is then a non-empty, truthy string: it passes the first test and fails `amount <= 0`, so the browser shows "O valor deve ser maio que zero" where this model gives "Preencha todos os campos". A NaN amount is also left out.
- `TransactionsForm.WithInput`: only the four named inputs of the form are modelled (description, amount, date, categoryId). JavaScript's computed key `[name]` would add any other name as a new field.
- `TransactionsForm.TransactionsFormPage.FetchCategories`: the source does not catch a failed `getCategories`. Here that is an unchanged category list; the unhandled rejection itself is not modelled.
