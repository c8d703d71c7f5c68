# Tico Encargo ledger — a Dafny model

Tico Encargo is a small merchant's ledger of customer debts and payments.
All of its bookkeeping lives in the `Dashboard` component of `src/app/page.tsx`.
The component holds the loaded clients and transactions, the screen shown, the
selected client, the income filter, the custom date range and the search
term. It derives three figures from them: the total owed, the filtered income
and each client's total paid. After each call to the remote store it patches
its local copies of the rows.

This project models that bookkeeping:

- `records.dfy` (module `Records`): the `Client` and `Transaction` rows of
  `src/lib/supabase.ts`. Amounts and debts are `int` (whole colones). Dates and
  timestamps are integer milliseconds. It also holds the screens, the filters,
  the date range and `Remote<T>`, the outcome of one call to the store.
- `seqs.dfy` (module `Seqs`): `filter`, the summing `reduce` (a left fold,
  proved equal to a reference sum) and the order-preserving subsequence
  relation.
- `search.dfy` (module `Search`): the client-list search (lower-case
  `includes` on the name, plain `includes` on the phone).
- `aggregator.dfy` (module `Aggregator`): total debt, filtered income, total
  paid, the client history, the recent-five prefix, the default description,
  and the debt-adjustment rule. It also has the by-id patch and removal that
  the handlers apply, with lemmas on how each one changes the totals.
- `dashboard.dfy` (module `Dashboard`): class `Ledger`, whose fields are the
  component's state variables and whose methods are its handlers
  (`loadData`, `addClient`, `addTransaction`, `deleteClient`, the
  filter-button rule, the date and search inputs, and navigation).
- `scenarios.dfy` (module `Scenarios`): concrete runs, checked through the
  contracts alone.

Each call to the store is a parameter of type `Remote<T>`:

- `Ok(value)`: the store answered with the row or rows.
- `Error`: the store answered with an `error`.
- `Threw`: the awaited call rejected, so control went to the handler's `catch`.

These outcomes are not the same in the source. In `addTransaction`, an
update that answers `Error` is only logged, and the new transaction is still
prepended. An update that throws skips the prepend (`catch` at lines 180-183).
In `loadData`, a read that throws empties both collections (lines 66-69),
even one already loaded.

Two behaviours of the code may look unintended; the model follows the code as written:

- A `custom` income filter with a start or end date missing counts every
  payment: control falls through to `return true` at line 98. It does not
  count zero. `IncomeCustomIncompleteIsAll` states this.
- The new transaction heads the list even when the debt update fails, or when
  no loaded client has the transaction's id. It is not prepended only on full
  success.

The selected client (`currentClient`) is a copy taken when its row was
clicked. `addTransaction` never updates it, so the detail screen keeps showing
the debt from before the transaction. `Scenarios.PaymentThenDelete` shows this.

## Model

| member | source | states |
|---|---|---|
| `Seqs.SumLeft` | src/app/page.tsx:76 | the `reduce((sum, x) => sum + f(x), acc)` fold equals `acc` plus the reference sum of the projections |
| `Seqs.FilterIsSubsequence` | src/app/page.tsx:565-568 | `filter` returns an order-preserving subsequence of its input |
| `Seqs.FilterCounts` | src/app/page.tsx:565-568 | `filter` keeps every copy of an element that passes and no copy of one that does not |
| `Aggregator.TotalDebt` | src/app/page.tsx:76 | total owed is the sum of every client's `current_debt`; 0 with no clients |
| `Aggregator.TotalDebtNonNegative` | src/app/page.tsx:76 | when no debt is negative, the total owed is not negative |
| `Aggregator.TotalDebtOfPrepend` | src/app/page.tsx:134 | prepending a client adds exactly its debt to the total owed |
| `Aggregator.Counted` | src/app/page.tsx:80-99 | only payments count; `week` keeps `date >= now - 604800000`; `month` keeps `date >= now - 2592000000`; `custom` with both bounds keeps `start <= date <= end`; `all`, or `custom` with a bound missing, keeps every payment |
| `Aggregator.FilteredIncome` | src/app/page.tsx:79-100 | income is 0 with no transactions; with `all` it equals the total of every payment amount |
| `Aggregator.IncomeCustomIncompleteIsAll` | src/app/page.tsx:92-98 | `custom` with either date missing gives the same income as `all` |
| `Aggregator.IncomeIgnoresDebts` | src/app/page.tsx:81 | the income of a list equals the income of its payments alone, so debt rows never contribute |
| `Aggregator.IncomeOfPrepend` | src/app/page.tsx:79-100 | a prepended transaction raises the income by its amount exactly when the filter counts it; a debt never changes the income |
| `Aggregator.IncomeWindowsNested` | src/app/page.tsx:86-91 | with non-negative payment amounts, 7-day income is at most 30-day income, and each filter's income is at most the `all` income |
| `Aggregator.ClientHistory` | src/app/page.tsx:271 | the transactions passed to the detail screen are an order-preserving subsequence of the list holding exactly that client's transactions, each as many times as in the list |
| `Aggregator.TotalPaid` | src/app/page.tsx:603-605 | a client's total paid is the sum of the payment amounts in that client's history; 0 with no transactions |
| `Aggregator.TotalPaidOfPrepend` | src/app/page.tsx:603-605 | a new transaction adds to a client's total paid exactly when it is a payment of that client |
| `Aggregator.RecentTransactions` | src/app/page.tsx:313 | recent activity is the first `min(5, n)` transactions, in order |
| `Aggregator.RecentOfPrepend` | src/app/page.tsx:313 | after a prepend, the new row heads the recent activity, followed by at most four of the previous entries |
| `Aggregator.DefaultDescription` | src/app/page.tsx:672 | a typed description is kept; a blank one becomes "Abono" for a payment and "Nueva deuda" for a debt; the result is never blank |
| `Aggregator.MakeDraft` | src/app/page.tsx:666-673 | the draft carries the client id, type, amount and date as given, and a description that is never blank |
| `Aggregator.NewDebt` | src/app/page.tsx:160-162 | after a payment the debt is `max(0, old - amount)`: never negative, and exactly `old - amount` when that is not negative; after a debt it is exactly `old + amount` |
| `Aggregator.FindClient` | src/app/page.tsx:158 | `find` gives the first client with the id, or nothing exactly when no client has it |
| `Aggregator.PatchDebt` | src/app/page.tsx:172-174 | only the clients with that id get the new debt; count, order, other clients and other fields are unchanged |
| `Aggregator.DebtStep` | src/app/page.tsx:157-176 | with a found client and a confirmed update, every client with the draft's id gets the debt computed by the rule from the first one's; otherwise nothing changes; ids, count, order and all other clients are kept; unique ids stay unique; non-negative debts stay non-negative for a payment or a non-negative amount |
| `Aggregator.DebtStepTotal` | src/app/page.tsx:157-176 | with unique ids, a confirmed debt step moves the total owed by exactly the found client's debt change |
| `Aggregator.PatchEffects` | src/app/page.tsx:172-174 | patching a listed client leaves the other clients alone, keeps unique ids unique, keeps debts non-negative when the new debt is not negative, and, when ids are unique, moves the total by the debt change |
| `Aggregator.RemoveById` | src/app/page.tsx:200 | the result is an order-preserving subsequence holding exactly the clients with a different id, each as many times as before; none with that id is left; the list is unchanged if no client had it |
| `Aggregator.TotalDebtAfterPatch` | src/app/page.tsx:172-174 | with unique ids, the patch changes the total owed by exactly the change of that client's debt |
| `Aggregator.TotalDebtAfterRemove` | src/app/page.tsx:200 | with unique ids, removing a client lowers the total owed by exactly its debt |
| `Aggregator.PatchKeepsUniqueIds` | src/app/page.tsx:172-174 | the debt patch keeps ids unique |
| `Aggregator.RemoveKeepsUniqueIds` | src/app/page.tsx:200 | removal by id keeps ids unique |
| `Aggregator.PatchKeepsDebtsNonNegative` | src/app/page.tsx:172-174 | patching in a non-negative debt keeps every debt non-negative |
| `Aggregator.RemoveKeepsDebtsNonNegative` | src/app/page.tsx:200 | removal keeps every debt non-negative |
| `Search.Lower` | src/app/page.tsx:566 | lower-casing keeps the length, leaves no upper-case ASCII letter, keeps other characters and shifts letters by 32 |
| `Search.ContainsAt` | src/app/page.tsx:566-567 | `includes` holds exactly when the term occurs at some offset |
| `Search.ContainsEmpty` | src/app/page.tsx:566-567 | every string includes the empty term |
| `Search.EmptyTermMatches` | src/app/page.tsx:565-568 | every client matches the empty search term |
| `Search.SearchClients` | src/app/page.tsx:565-568 | the results are an order-preserving subsequence holding exactly the matching clients, each as many times as in the list; an empty term keeps every client |
| `Dashboard.Ledger.constructor` | src/app/page.tsx:19-30 | the initial state: nothing loaded, dashboard shown, no client selected, `all` filter, empty dates and search, picker hidden |
| `Dashboard.Ledger.Owed` | src/app/page.tsx:76 | the total owed of the current state is the sum of the debts; not negative when no debt is |
| `Dashboard.Ledger.Income` | src/app/page.tsx:79-100 | the income of the current state is every payment's total under `all`, and under `custom` with a date missing |
| `Dashboard.Ledger.Visible` | src/app/page.tsx:565-568 | the shown clients are a subsequence of the loaded ones; all of them when the search is empty |
| `Dashboard.Ledger.LoadData` | src/app/page.tsx:37-73 | each collection is replaced by what its read returned, or emptied on an error; a throw empties both; nothing is merged with the old state; other fields are unchanged |
| `Dashboard.Ledger.AddClient` | src/app/page.tsx:121-141 | a confirmed insert prepends the returned row and shows the dashboard; a failed one changes nothing; the total owed rises by the new debt; a new id keeps ids unique |
| `Dashboard.Ledger.AddTransaction` | src/app/page.tsx:144-184 | a failed insert changes nothing. After a confirmed insert the clients are those of the debt step, and the row heads the transactions unless a client was found and its update threw; screen, selection, filter and search are untouched; unique ids stay unique; non-negative debts stay non-negative for a payment or a non-negative amount |
| `Dashboard.Ledger.DeleteClient` | src/app/page.tsx:186-213 | a failed delete changes nothing. A confirmed one removes that id in order and keeps the transactions; if the displayed client was deleted, the client list is shown and nothing is selected, otherwise screen and selection are unchanged; when ids are unique, the total owed drops by the removed client's debt |
| `Dashboard.Ledger.SelectFilter` | src/app/page.tsx:345-351 | a filter button sets the filter and shows the date picker exactly for `custom` |
| `Dashboard.Ledger.SetStartDate` | src/app/page.tsx:382 | the start-date input replaces only the range's start |
| `Dashboard.Ledger.SetEndDate` | src/app/page.tsx:391 | the end-date input replaces only the range's end |
| `Dashboard.Ledger.SetSearchTerm` | src/app/page.tsx:590 | the search box replaces only the search term |
| `Dashboard.Ledger.OpenClient` | src/app/page.tsx:260-263 | clicking a client selects it and opens its detail screen |
| `Dashboard.Ledger.Navigate` | src/app/page.tsx:248-272 | the back and navigation buttons switch the screen and change nothing else |
| `Scenarios.DebtRuleExamples` | src/app/page.tsx:160-162 | a 700 payment on a 500 debt leaves 0; a 300 debt on a 500 debt leaves 800 |

## Left out

- The store itself is left out: the `.from(...).select/insert/update/delete` calls and the construction of the client in `src/lib/supabase.ts`, with its placeholder URL and key. Each call's outcome is a `Remote<T>` parameter instead.
- The `useEffect` trigger and interleaving between `await`s are not modelled. Each handler is one sequential step, so the handler's stale-closure read of `clients` (line 158) reads the same list that the setters update.
- The `loading` flag and the loading screen are rendering only.
- `alert` and `console.error` are output with no effect on the state.
- `formatCurrency` and `formatDate` are locale formatting by the runtime's `Intl` library.
- Date strings are taken as already parsed by `new Date(...)` into integer milliseconds. An invalid date (which compares false in JavaScript) is not modelled.
- The wall-clock `now` of the income filter is a parameter, read once for the whole list. The source creates a new `Date` for each transaction inside the filter callback (line 84), so a list scanned across a clock tick may see two different `now`s; the model does not capture that.
- Amounts are `int`, not JavaScript floating-point numbers. The modal's `min="0"` and `step="100"` are not enforced (the input is not inside a form), so a negative debt amount can make a debt negative; the contracts that need non-negative amounts say so.
- `Search.Lower`: lower-cases ASCII letters only, not the full Unicode mapping of `toLowerCase`.
- A store reply with no rows (`data` null, or `data[0]` undefined) is not modelled. An `Ok` outcome always carries a row.
- The detail view's in-place `sort` by date (line 739) is rendering order only and is not modelled. So are the modal-visibility booleans, the date picker's close button, the form fields' reset, and all JSX and CSS.
