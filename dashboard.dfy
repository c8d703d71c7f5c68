/** The `Dashboard` component's state and its handlers. Each handler is one
    sequential step; every call to the remote store is a parameter giving
    its outcome, so the step after it is a deterministic update of the
    component's state fields. */
module Dashboard {
  import opened Records
  import opened Seqs
  import opened Search
  import opened Aggregator

  class Ledger {
    var clients: seq<Client>
    var transactions: seq<Transaction>
    var screen: Screen
    var current: Option<Client>
    var filter: IncomeFilter
    var range: DateRange
    var showDatePicker: bool
    var searchTerm: string

    /** The state before the first load: nothing loaded, dashboard shown,
        no client selected, `all` filter, empty date range and search. */
    constructor ()
      ensures clients == [] && transactions == []
      ensures screen == DashboardScreen && current == None
      ensures filter == All && range == DateRange(None, None) && !showDatePicker && searchTerm == ""
    {
      clients := [];
      transactions := [];
      screen := DashboardScreen;
      current := None;
      filter := All;
      range := DateRange(None, None);
      showDatePicker := false;
      searchTerm := "";
    }

    /** The dashboard's "total owed" figure. */
    function Owed(): (r: int)
      reads this
      ensures r == Sum(clients, DebtOf)
      ensures DebtsNonNegative(clients) ==> r >= 0
    {
      TotalDebtNonNegative(clients);
      TotalDebt(clients)
    }

    /** The dashboard's income figure at wall-clock time `now`; with `all`, or
        with `custom` and a date missing, it is every payment's amount. */
    function Income(now: int): (r: int)
      reads this
      ensures filter == All ==> r == PaymentTotal(transactions)
      ensures filter == Custom && (range.start.None? || range.end.None?) ==> r == PaymentTotal(transactions)
    {
      IncomeCustomIncompleteIsAll(transactions, range, now);
      FilteredIncome(transactions, filter, range, now)
    }

    /** The rows of the client list for the current search term. */
    function Visible(): (r: seq<Client>)
      reads this
      ensures IsSubsequence(r, clients)
      ensures searchTerm == "" ==> r == clients
    {
      SearchClients(clients, searchTerm)
    }

    /** Initial load: each collection is replaced by what its read returned,
        or emptied when the read reported an error; a read that throws
        empties both. The previous contents are never merged in. */
    method LoadData(clientsRead: Remote<seq<Client>>, transactionsRead: Remote<seq<Transaction>>)
      modifies this
      ensures clientsRead.Threw? || transactionsRead.Threw? ==> clients == [] && transactions == []
      ensures !clientsRead.Threw? && !transactionsRead.Threw? ==>
        clients == (if clientsRead.Ok? then clientsRead.value else []) &&
        transactions == (if transactionsRead.Ok? then transactionsRead.value else [])
      ensures screen == old(screen) && current == old(current)
      ensures filter == old(filter) && range == old(range)
      ensures showDatePicker == old(showDatePicker) && searchTerm == old(searchTerm)
    {
      if clientsRead.Threw? {
        clients, transactions := [], [];
        return;
      }
      clients := if clientsRead.Ok? then clientsRead.value else [];
      if transactionsRead.Threw? {
        clients, transactions := [], [];
        return;
      }
      transactions := if transactionsRead.Ok? then transactionsRead.value else [];
    }

    /** `addClient`: a confirmed insert puts the returned row first and shows
        the dashboard; a failed one changes nothing. */
    method AddClient(insert: Remote<Client>)
      modifies this
      ensures insert.Ok? ==> clients == [insert.value] + old(clients) && screen == DashboardScreen
      ensures !insert.Ok? ==> clients == old(clients) && screen == old(screen)
      ensures transactions == old(transactions) && current == old(current)
      ensures filter == old(filter) && range == old(range)
      ensures showDatePicker == old(showDatePicker) && searchTerm == old(searchTerm)
      ensures insert.Ok? ==> TotalDebt(clients) == insert.value.currentDebt + old(TotalDebt(clients))
      ensures insert.Ok? && old(UniqueIds(clients)) && FindClient(old(clients), insert.value.id).None? ==>
        UniqueIds(clients)
    {
      if !insert.Ok? {
        return;
      }
      TotalDebtOfPrepend(insert.value, clients);
      clients := [insert.value] + clients;
      screen := DashboardScreen;
    }

    /** `addTransaction`. If the insert fails nothing changes. Otherwise the
        first client with the draft's id (if any) gets its debt recomputed;
        a confirmed update patches the local debt, an update answered with an
        error does not, and an update that throws also skips the prepend.
        In every other case the returned row heads the transactions. */
    method AddTransaction(draft: TransactionDraft, insert: Remote<Transaction>, update: Remote<()>)
      modifies this
      ensures clients == if insert.Ok? then DebtStep(old(clients), draft, update) else old(clients)
      ensures transactions ==
        if insert.Ok? && !(FindClient(old(clients), draft.clientId).Some? && update.Threw?)
        then [insert.value] + old(transactions)
        else old(transactions)
      ensures screen == old(screen) && current == old(current)
      ensures filter == old(filter) && range == old(range)
      ensures showDatePicker == old(showDatePicker) && searchTerm == old(searchTerm)
      ensures old(UniqueIds(clients)) ==> UniqueIds(clients)
      ensures old(DebtsNonNegative(clients)) && (draft.txType == Payment || draft.amount >= 0) ==>
        DebtsNonNegative(clients)
    {
      if insert.Ok? {
        var client := FindClient(clients, draft.clientId);
        var prepend := true;
        if client.Some? {
          var newDebt := NewDebt(client.value.currentDebt, draft.txType, draft.amount);
          if update.Threw? {
            prepend := false;
          } else if update.Ok? {
            clients := PatchDebt(clients, client.value.id, newDebt);
          }
        }
        if prepend {
          transactions := [insert.value] + transactions;
        }
      }
    }

    /** `deleteClient`: a confirmed delete drops every client with that id,
        keeping the order, and leaves the transactions alone; if the client on
        screen was the deleted one, the client list is shown and nothing is
        selected. A failed delete changes nothing. */
    method DeleteClient(id: int, delete: Remote<()>)
      modifies this
      ensures !delete.Ok? ==> clients == old(clients)
      ensures delete.Ok? ==> clients == RemoveById(old(clients), id)
      ensures delete.Ok? && old(current).Some? && old(current).value.id == id ==>
        screen == ClientsListScreen && current == None
      ensures !(delete.Ok? && old(current).Some? && old(current).value.id == id) ==>
        screen == old(screen) && current == old(current)
      ensures transactions == old(transactions)
      ensures filter == old(filter) && range == old(range)
      ensures showDatePicker == old(showDatePicker) && searchTerm == old(searchTerm)
      ensures old(UniqueIds(clients)) ==> UniqueIds(clients)
      ensures old(DebtsNonNegative(clients)) ==> DebtsNonNegative(clients)
      ensures delete.Ok? && old(UniqueIds(clients)) ==>
        TotalDebt(clients) == old(TotalDebt(clients)) -
          (match FindClient(old(clients), id) case Some(c) => c.currentDebt case None => 0)
    {
      if !delete.Ok? {
        return;
      }
      var found := FindClient(clients, id);
      if UniqueIds(clients) {
        RemoveKeepsUniqueIds(clients, id);
        if found.Some? {
          ghost var k :| 0 <= k < |clients| && clients[k] == found.value;
          TotalDebtAfterRemove(clients, k);
        }
      }
      if DebtsNonNegative(clients) {
        RemoveKeepsDebtsNonNegative(clients, id);
      }
      clients := RemoveById(clients, id);
      if current.Some? && current.value.id == id {
        screen := ClientsListScreen;
        current := None;
      }
    }

    /** A filter button: selects the filter and shows the date picker exactly
        for `custom`. */
    method SelectFilter(f: IncomeFilter)
      modifies this
      ensures filter == f && showDatePicker == (f == Custom)
      ensures clients == old(clients) && transactions == old(transactions)
      ensures screen == old(screen) && current == old(current)
      ensures range == old(range) && searchTerm == old(searchTerm)
    {
      filter := f;
      showDatePicker := f == Custom;
    }

    /** The start-date input of the custom range (`None` when cleared). */
    method SetStartDate(start: Option<int>)
      modifies this
      ensures range == DateRange(start, old(range).end)
      ensures clients == old(clients) && transactions == old(transactions)
      ensures screen == old(screen) && current == old(current)
      ensures filter == old(filter) && showDatePicker == old(showDatePicker) && searchTerm == old(searchTerm)
    {
      range := range.(start := start);
    }

    /** The end-date input of the custom range (`None` when cleared). */
    method SetEndDate(end: Option<int>)
      modifies this
      ensures range == DateRange(old(range).start, end)
      ensures clients == old(clients) && transactions == old(transactions)
      ensures screen == old(screen) && current == old(current)
      ensures filter == old(filter) && showDatePicker == old(showDatePicker) && searchTerm == old(searchTerm)
    {
      range := range.(end := end);
    }

    /** The search box of the client list. */
    method SetSearchTerm(term: string)
      modifies this
      ensures searchTerm == term
      ensures clients == old(clients) && transactions == old(transactions)
      ensures screen == old(screen) && current == old(current)
      ensures filter == old(filter) && range == old(range) && showDatePicker == old(showDatePicker)
    {
      searchTerm := term;
    }

    /** Clicking a row of the client list selects that client and opens its
        detail screen. */
    method OpenClient(c: Client)
      modifies this
      ensures current == Some(c) && screen == ClientDetailScreen
      ensures clients == old(clients) && transactions == old(transactions)
      ensures filter == old(filter) && range == old(range)
      ensures showDatePicker == old(showDatePicker) && searchTerm == old(searchTerm)
    {
      current := Some(c);
      screen := ClientDetailScreen;
    }

    /** The navigation buttons (new client, client list, and the back
        buttons): switch the screen and change nothing else. The detail
        screen is only reached through `OpenClient`. */
    method Navigate(s: Screen)
      requires s != ClientDetailScreen
      modifies this
      ensures screen == s
      ensures clients == old(clients) && transactions == old(transactions) && current == old(current)
      ensures filter == old(filter) && range == old(range)
      ensures showDatePicker == old(showDatePicker) && searchTerm == old(searchTerm)
    {
      screen := s;
    }
  }
}
