/** The dashboard's bookkeeping over the loaded rows: total debt, filtered
    income, a client's total paid, the recent-activity prefix, the
    debt-adjustment rule and the by-id updates applied after a mutation. */
module Aggregator {
  import opened Records
  import opened Seqs

  function DebtOf(c: Client): int { c.currentDebt }

  function AmountOf(t: Transaction): int { t.amount }

  predicate IsPayment(t: Transaction) { t.txType == Payment }

  predicate UniqueIds(clients: seq<Client>)
  {
    forall i, j :: 0 <= i < j < |clients| ==> clients[i].id != clients[j].id
  }

  predicate DebtsNonNegative(clients: seq<Client>)
  {
    forall i :: 0 <= i < |clients| ==> clients[i].currentDebt >= 0
  }

  // ---------------------------------------------------------------- totals

  /** Total owed: the left-to-right `reduce` over `current_debt`, which is the
      sum of every client's debt (0 for no clients). */
  function TotalDebt(clients: seq<Client>): (r: int)
    ensures r == Sum(clients, DebtOf)
    ensures clients == [] ==> r == 0
  {
    SumLeft(clients, DebtOf, 0)
  }

  lemma TotalDebtNonNegative(clients: seq<Client>)
    ensures DebtsNonNegative(clients) ==> TotalDebt(clients) >= 0
  {
    if DebtsNonNegative(clients) {
      SumNonNegative(clients, DebtOf);
    }
  }

  /** Reference: the sum of the amounts of all payments, ignoring debts. */
  function PaymentTotal(txs: seq<Transaction>): int
  {
    Sum(Filter(txs, IsPayment), AmountOf)
  }

  // ---------------------------------------------------------------- income

  /** The date rule of the income filter for one transaction. Only payments
      pass; `week` and `month` keep the last 7 and 30 days before `now`
      (milliseconds); `custom` with both bounds keeps the inclusive range;
      any other case (`all`, or `custom` with a bound missing) keeps every
      payment. */
  predicate Counted(t: Transaction, filter: IncomeFilter, range: DateRange, now: int)
    ensures t.txType == Debt ==> !Counted(t, filter, range, now)
    ensures filter == Week ==> (Counted(t, filter, range, now) <==> t.txType == Payment && t.date >= now - 604800000)
    ensures filter == Month ==> (Counted(t, filter, range, now) <==> t.txType == Payment && t.date >= now - 2592000000)
    ensures filter == Custom && range.start.Some? && range.end.Some? ==>
      (Counted(t, filter, range, now) <==> t.txType == Payment && range.start.value <= t.date <= range.end.value)
    ensures filter == All || (filter == Custom && (range.start.None? || range.end.None?)) ==>
      (Counted(t, filter, range, now) <==> t.txType == Payment)
  {
    if t.txType != Payment then false
    else if filter == Week then t.date >= now - 7 * 24 * 60 * 60 * 1000
    else if filter == Month then t.date >= now - 30 * 24 * 60 * 60 * 1000
    else if filter == Custom && range.start.Some? && range.end.Some? then
      t.date >= range.start.value && t.date <= range.end.value
    else true
  }

  function CountedBy(filter: IncomeFilter, range: DateRange, now: int): Transaction -> bool
  {
    (t: Transaction) => Counted(t, filter, range, now)
  }

  /** Income shown on the dashboard: the sum of the amounts of the payments
      the filter keeps. With `all` it is the total of every payment. */
  function FilteredIncome(txs: seq<Transaction>, filter: IncomeFilter, range: DateRange, now: int): (r: int)
    ensures txs == [] ==> r == 0
    ensures filter == All ==> r == PaymentTotal(txs)
  {
    FilterAgree(txs, CountedBy(All, range, now), IsPayment);
    SumLeft(Filter(txs, CountedBy(filter, range, now)), AmountOf, 0)
  }

  /** A `custom` filter with either bound missing counts what `all` counts. */
  lemma IncomeCustomIncompleteIsAll(txs: seq<Transaction>, range: DateRange, now: int)
    ensures range.start.None? || range.end.None? ==>
      FilteredIncome(txs, Custom, range, now) == FilteredIncome(txs, All, range, now)
  {
    if range.start.None? || range.end.None? {
      FilterAgree(txs, CountedBy(Custom, range, now), CountedBy(All, range, now));
    }
  }

  /** Debt-type transactions never contribute: the income of the whole list
      is the income of its payments alone. */
  lemma IncomeIgnoresDebts(txs: seq<Transaction>, filter: IncomeFilter, range: DateRange, now: int)
    ensures FilteredIncome(txs, filter, range, now) == FilteredIncome(Filter(txs, IsPayment), filter, range, now)
  {
    FilterTwice(txs, IsPayment, CountedBy(filter, range, now), CountedBy(filter, range, now));
  }

  /** Prepending a transaction raises the income by its amount when the filter
      counts it, and leaves it unchanged otherwise (in particular for a debt). */
  lemma IncomeOfPrepend(t: Transaction, txs: seq<Transaction>, filter: IncomeFilter, range: DateRange, now: int)
    ensures FilteredIncome([t] + txs, filter, range, now) ==
      (if Counted(t, filter, range, now) then t.amount else 0) + FilteredIncome(txs, filter, range, now)
    ensures t.txType == Debt ==> FilteredIncome([t] + txs, filter, range, now) == FilteredIncome(txs, filter, range, now)
  {
    SumFilterPrepend(t, txs, CountedBy(filter, range, now), AmountOf);
  }

  /** With non-negative payment amounts, the 7-day income is at most the
      30-day income, and every filter's income is at most the `all` income. */
  lemma IncomeWindowsNested(txs: seq<Transaction>, filter: IncomeFilter, range: DateRange, now: int)
    requires forall i :: 0 <= i < |txs| ==> (txs[i].txType == Payment ==> txs[i].amount >= 0)
    ensures FilteredIncome(txs, Week, range, now) <= FilteredIncome(txs, Month, range, now)
    ensures FilteredIncome(txs, filter, range, now) <= FilteredIncome(txs, All, range, now)
  {
    FilterSumMonotone(txs, CountedBy(Week, range, now), CountedBy(Month, range, now), AmountOf);
    FilterSumMonotone(txs, CountedBy(filter, range, now), CountedBy(All, range, now), AmountOf);
  }

  // ------------------------------------------------------- per-client view

  function ByClient(clientId: int): Transaction -> bool
  {
    (t: Transaction) => t.clientId == clientId
  }

  function PaidBy(clientId: int): Transaction -> bool
  {
    (t: Transaction) => t.clientId == clientId && t.txType == Payment
  }

  /** The transactions passed to a client's detail screen: exactly that
      client's transactions, each as often as in the list, in list order. */
  function ClientHistory(txs: seq<Transaction>, clientId: int): (r: seq<Transaction>)
    ensures IsSubsequence(r, txs)
    ensures forall i :: 0 <= i < |r| ==> r[i].clientId == clientId
    ensures forall i :: 0 <= i < |txs| && txs[i].clientId == clientId ==> txs[i] in r
    ensures forall t: Transaction :: multiset(r)[t] == if t.clientId == clientId then multiset(txs)[t] else 0
  {
    FilterIsSubsequence(txs, ByClient(clientId));
    FilterCounts(txs, ByClient(clientId));
    Filter(txs, ByClient(clientId))
  }

  /** "Total paid" of a client in the client list: the payments of that
      client's history (0 with no transactions). */
  function TotalPaid(txs: seq<Transaction>, clientId: int): (r: int)
    ensures txs == [] ==> r == 0
    ensures r == PaymentTotal(ClientHistory(txs, clientId))
  {
    FilterTwice(txs, ByClient(clientId), IsPayment, PaidBy(clientId));
    SumLeft(Filter(txs, PaidBy(clientId)), AmountOf, 0)
  }

  /** A new transaction adds to a client's total paid only when it is a
      payment of that client. */
  lemma TotalPaidOfPrepend(t: Transaction, txs: seq<Transaction>, clientId: int)
    ensures TotalPaid([t] + txs, clientId) ==
      (if t.clientId == clientId && t.txType == Payment then t.amount else 0) + TotalPaid(txs, clientId)
  {
    SumFilterPrepend(t, txs, PaidBy(clientId), AmountOf);
  }

  /** The dashboard's recent activity: the first five transactions. */
  function RecentTransactions(txs: seq<Transaction>): (r: seq<Transaction>)
    ensures |r| == if |txs| < 5 then |txs| else 5
    ensures forall i :: 0 <= i < |r| ==> r[i] == txs[i]
  {
    txs[..if |txs| < 5 then |txs| else 5]
  }

  /** After a transaction is prepended it heads the recent activity, followed
      by the previous recent activity less its last entry when it was full. */
  lemma RecentOfPrepend(t: Transaction, txs: seq<Transaction>)
    ensures RecentTransactions([t] + txs) ==
      [t] + RecentTransactions(txs)[..if |txs| < 4 then |txs| else 4]
  {
    assert RecentTransactions([t] + txs)[1..] == RecentTransactions(txs)[..if |txs| < 4 then |txs| else 4];
  }

  /** The description sent with a transaction: the one typed, or "Abono" /
      "Nueva deuda" when left blank; it is never blank. */
  function DefaultDescription(description: string, txType: TxType): (r: string)
    ensures r != ""
    ensures description != "" ==> r == description
    ensures description == "" && txType == Payment ==> r == "Abono"
    ensures description == "" && txType == Debt ==> r == "Nueva deuda"
  {
    if description != "" then description
    else if txType == Payment then "Abono" else "Nueva deuda"
  }

  /** The draft `handleTransaction` sends for the client on screen. */
  function MakeDraft(clientId: int, txType: TxType, amount: int, date: int, description: string): (d: TransactionDraft)
    ensures d.clientId == clientId && d.txType == txType && d.amount == amount && d.date == date
    ensures d.description != ""
    ensures description != "" ==> d.description == description
  {
    TransactionDraft(clientId, txType, amount, date, DefaultDescription(description, txType))
  }

  // ----------------------------------------------------- debt adjustment

  /** The client's new debt after a transaction: a payment lowers it but never
      below zero; a debt raises it by exactly the amount. */
  function NewDebt(debt: int, txType: TxType, amount: int): (r: int)
    ensures txType == Payment ==> r >= 0 && r >= debt - amount && (r == 0 || r == debt - amount)
    ensures txType == Payment && 0 <= amount <= debt ==> r == debt - amount
    ensures txType == Payment && amount >= 0 && debt >= 0 ==> r <= debt
    ensures txType == Debt ==> r == debt + amount
    ensures debt >= 0 && amount >= 0 ==> r >= 0
  {
    if txType == Payment then
      (if 0 > debt - amount then 0 else debt - amount)
    else debt + amount
  }

  /** `clients.find(c => c.id === id)`: the first client with that id. */
  function FindClient(clients: seq<Client>, id: int): (r: Option<Client>)
    ensures r.None? <==> forall i :: 0 <= i < |clients| ==> clients[i].id != id
    ensures r.Some? ==> exists k :: 0 <= k < |clients| && clients[k] == r.value && r.value.id == id &&
                                     (forall j :: 0 <= j < k ==> clients[j].id != id)
    decreases |clients|
  {
    if clients == [] then None
    else if clients[0].id == id then Some(clients[0])
    else
      var r := FindClient(clients[1..], id);
      assert r.Some? ==> exists k :: 0 < k < |clients| && clients[k] == r.value && r.value.id == id &&
                                      (forall j :: 0 <= j < k ==> clients[j].id != id) by {
        if r.Some? {
          var k :| 0 <= k < |clients[1..]| && clients[1..][k] == r.value && r.value.id == id &&
                   (forall j :: 0 <= j < k ==> clients[1..][j].id != id);
          assert clients[k + 1] == r.value;
        }
      }
      r
  }

  /** The local patch after a confirmed debt update: every client with that id
      gets the new debt; all other clients, all other fields, the number of
      clients and their order are unchanged. */
  function PatchDebt(clients: seq<Client>, id: int, debt: int): (r: seq<Client>)
    ensures |r| == |clients|
    ensures forall i :: 0 <= i < |r| && clients[i].id == id ==> r[i] == clients[i].(currentDebt := debt)
    ensures forall i :: 0 <= i < |r| && clients[i].id != id ==> r[i] == clients[i]
    decreases |clients|
  {
    if clients == [] then []
    else
      var head := if clients[0].id == id then clients[0].(currentDebt := debt) else clients[0];
      [head] + PatchDebt(clients[1..], id, debt)
  }

  function OtherThan(id: int): Client -> bool
  {
    (c: Client) => c.id != id
  }

  /** The local removal after a confirmed delete: the clients whose id differs,
      each as often as before, in their original order; the list is unchanged
      if no client had it. */
  function RemoveById(clients: seq<Client>, id: int): (r: seq<Client>)
    ensures IsSubsequence(r, clients)
    ensures forall i :: 0 <= i < |r| ==> r[i].id != id
    ensures forall i :: 0 <= i < |clients| && clients[i].id != id ==> clients[i] in r
    ensures forall c: Client :: multiset(r)[c] == if c.id != id then multiset(clients)[c] else 0
    ensures (forall i :: 0 <= i < |clients| ==> clients[i].id != id) ==> r == clients
  {
    FilterIsSubsequence(clients, OtherThan(id));
    FilterCounts(clients, OtherThan(id));
    FilterKeepsAll(clients, OtherThan(id));
    Filter(clients, OtherThan(id))
  }

  /** The clients after the debt step of `addTransaction`: when a client has
      the draft's id and the update is confirmed, every client with that id
      gets the new debt computed from the first one's; otherwise (no such
      client, or the update failed) the list is unchanged. Ids, count and
      order never change, nor does any other client. */
  function DebtStep(clients: seq<Client>, draft: TransactionDraft, update: Remote<()>): (r: seq<Client>)
    ensures |r| == |clients|
    ensures forall i :: 0 <= i < |r| ==> r[i].id == clients[i].id
    ensures forall i :: 0 <= i < |r| && clients[i].id != draft.clientId ==> r[i] == clients[i]
    ensures FindClient(clients, draft.clientId).None? || !update.Ok? ==> r == clients
    ensures FindClient(clients, draft.clientId).Some? && update.Ok? ==>
      var debt := NewDebt(FindClient(clients, draft.clientId).value.currentDebt, draft.txType, draft.amount);
      forall i :: 0 <= i < |r| && clients[i].id == draft.clientId ==> r[i] == clients[i].(currentDebt := debt)
    ensures UniqueIds(clients) ==> UniqueIds(r)
    ensures DebtsNonNegative(clients) && (draft.txType == Payment || draft.amount >= 0) ==> DebtsNonNegative(r)
  {
    match FindClient(clients, draft.clientId)
    case None => clients
    case Some(c) =>
      if update.Ok? then
        var debt := NewDebt(c.currentDebt, draft.txType, draft.amount);
        PatchEffects(clients, c, debt);
        PatchDebt(clients, c.id, debt)
      else clients
  }

  /** With unique ids, a confirmed debt step moves the total owed by exactly
      the change of the found client's debt. */
  lemma DebtStepTotal(clients: seq<Client>, draft: TransactionDraft, update: Remote<()>)
    requires UniqueIds(clients)
    ensures FindClient(clients, draft.clientId).Some? && update.Ok? ==>
      var c := FindClient(clients, draft.clientId).value;
      TotalDebt(DebtStep(clients, draft, update)) ==
        TotalDebt(clients) - c.currentDebt + NewDebt(c.currentDebt, draft.txType, draft.amount)
  {
    var found := FindClient(clients, draft.clientId);
    if found.Some? && update.Ok? {
      PatchEffects(clients, found.value, NewDebt(found.value.currentDebt, draft.txType, draft.amount));
    }
  }

  // ------------------------------------------ effect of updates on totals

  lemma TotalDebtOfPrepend(c: Client, clients: seq<Client>)
    ensures TotalDebt([c] + clients) == c.currentDebt + TotalDebt(clients)
  {
    assert ([c] + clients)[1..] == clients;
  }

  /** With unique ids, patching client `k` changes the total debt by exactly
      the change of that client's debt. */
  lemma {:induction false} TotalDebtAfterPatch(clients: seq<Client>, k: int, debt: int)
    requires UniqueIds(clients) && 0 <= k < |clients|
    ensures TotalDebt(PatchDebt(clients, clients[k].id, debt)) == TotalDebt(clients) - clients[k].currentDebt + debt
    decreases |clients|
  {
    var id := clients[k].id;
    var r := PatchDebt(clients, id, debt);
    assert r[1..] == PatchDebt(clients[1..], id, debt);
    if k == 0 {
      assert forall i :: 0 <= i < |clients[1..]| ==> clients[1..][i].id != id by {
        forall i | 0 <= i < |clients[1..]| ensures clients[1..][i].id != id {
          assert clients[1..][i] == clients[i + 1];
        }
      }
      assert r[1..] == clients[1..];
    } else {
      assert clients[0].id != id;
      assert clients[1..][k - 1] == clients[k];
      TotalDebtAfterPatch(clients[1..], k - 1, debt);
    }
  }

  /** With unique ids, removing client `k` lowers the total debt by that
      client's debt. */
  lemma {:induction false} TotalDebtAfterRemove(clients: seq<Client>, k: int)
    requires UniqueIds(clients) && 0 <= k < |clients|
    ensures TotalDebt(RemoveById(clients, clients[k].id)) == TotalDebt(clients) - clients[k].currentDebt
    decreases |clients|
  {
    var id := clients[k].id;
    var tail := clients[1..];
    assert clients == [clients[0]] + tail;
    if k == 0 {
      assert forall i :: 0 <= i < |tail| ==> tail[i].id != id by {
        forall i | 0 <= i < |tail| ensures tail[i].id != id {
          assert tail[i] == clients[i + 1];
        }
      }
      assert RemoveById(tail, id) == tail;
      assert RemoveById(clients, id) == RemoveById(tail, id);
    } else {
      assert clients[0].id != id;
      assert tail[k - 1] == clients[k];
      TotalDebtAfterRemove(tail, k - 1);
      assert RemoveById(clients, id) == [clients[0]] + RemoveById(tail, id);
      TotalDebtOfPrepend(clients[0], RemoveById(tail, id));
    }
  }

  /** What the handler relies on when it patches client `c` of the list: the
      untouched clients, unique ids, non-negative debts and the new total. */
  lemma PatchEffects(clients: seq<Client>, c: Client, debt: int)
    requires c in clients
    ensures forall i :: 0 <= i < |clients| && clients[i].id != c.id ==> PatchDebt(clients, c.id, debt)[i] == clients[i]
    ensures UniqueIds(clients) ==> UniqueIds(PatchDebt(clients, c.id, debt))
    ensures UniqueIds(clients) ==>
      TotalDebt(PatchDebt(clients, c.id, debt)) == TotalDebt(clients) - c.currentDebt + debt
    ensures DebtsNonNegative(clients) && debt >= 0 ==> DebtsNonNegative(PatchDebt(clients, c.id, debt))
  {
    var k :| 0 <= k < |clients| && clients[k] == c;
    if UniqueIds(clients) {
      TotalDebtAfterPatch(clients, k, debt);
      PatchKeepsUniqueIds(clients, c.id, debt);
    }
    if DebtsNonNegative(clients) && debt >= 0 {
      PatchKeepsDebtsNonNegative(clients, c.id, debt);
    }
  }

  /** Patching a debt keeps the ids, so unique ids stay unique. */
  lemma PatchKeepsUniqueIds(clients: seq<Client>, id: int, debt: int)
    requires UniqueIds(clients)
    ensures UniqueIds(PatchDebt(clients, id, debt))
  {
    var r := PatchDebt(clients, id, debt);
    assert forall i :: 0 <= i < |r| ==> r[i].id == clients[i].id;
  }

  /** Removing clients keeps unique ids unique. */
  lemma RemoveKeepsUniqueIds(clients: seq<Client>, id: int)
    requires UniqueIds(clients)
    ensures UniqueIds(RemoveById(clients, id))
  {
    SubsequenceKeepsUniqueIds(RemoveById(clients, id), clients);
  }

  /** Deleting clients from a list keeps unique ids unique. */
  lemma {:induction false} SubsequenceKeepsUniqueIds(a: seq<Client>, b: seq<Client>)
    requires IsSubsequence(a, b) && UniqueIds(b)
    ensures UniqueIds(a)
    decreases |b|
  {
    if a != [] {
      var tail := b[1..];
      assert UniqueIds(tail) by {
        forall i, j | 0 <= i < j < |tail| ensures tail[i].id != tail[j].id {
          assert tail[i] == b[i + 1] && tail[j] == b[j + 1];
        }
      }
      if a[0] == b[0] && IsSubsequence(a[1..], tail) {
        var at := a[1..];
        SubsequenceKeepsUniqueIds(at, tail);
        SubsequenceMembers(at, tail);
        forall j | 0 <= j < |at| ensures at[j].id != b[0].id {
          var m :| 0 <= m < |tail| && tail[m] == at[j];
          assert tail[m] == b[m + 1];
        }
        forall i, j | 0 <= i < j < |a| ensures a[i].id != a[j].id {
          if i == 0 {
            assert a[j] == at[j - 1];
          } else {
            assert a[i] == at[i - 1] && a[j] == at[j - 1];
          }
        }
      } else {
        SubsequenceKeepsUniqueIds(a, tail);
      }
    }
  }

  /** A client whose debt the patch does not touch keeps debts non-negative
      when the new debt is non-negative. */
  lemma PatchKeepsDebtsNonNegative(clients: seq<Client>, id: int, debt: int)
    requires DebtsNonNegative(clients) && debt >= 0
    ensures DebtsNonNegative(PatchDebt(clients, id, debt))
  {
  }

  lemma RemoveKeepsDebtsNonNegative(clients: seq<Client>, id: int)
    requires DebtsNonNegative(clients)
    ensures DebtsNonNegative(RemoveById(clients, id))
  {
    var r := RemoveById(clients, id);
    forall i | 0 <= i < |r| ensures r[i].currentDebt >= 0 {
      var m :| 0 <= m < |clients| && clients[m] == r[i];
    }
  }
}
