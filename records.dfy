/** Record shapes of the ledger: the two rows the store keeps (clients and
    transactions), the drafts the forms send, the view selector and the
    outcome of a call to the remote store. */
module Records {

  /** The two transaction kinds; nothing else is a valid `type`. */
  datatype TxType = Payment | Debt

  /** A customer row. Amounts are whole colones; timestamps are milliseconds. */
  datatype Client = Client(
    id: int,
    name: string,
    phone: string,
    currentDebt: int,
    notes: string,
    createdAt: int,
    updatedAt: int)

  /** A transaction row. `date` is the user-chosen day (as a millisecond
      timestamp), distinct from the store-assigned `createdAt`. */
  datatype Transaction = Transaction(
    id: int,
    clientId: int,
    txType: TxType,
    amount: int,
    date: int,
    description: string,
    createdAt: int)

  /** What the detail view sends to `addTransaction`: a transaction without
      the store-assigned `id` and `createdAt`. */
  datatype TransactionDraft = TransactionDraft(
    clientId: int,
    txType: TxType,
    amount: int,
    date: int,
    description: string)

  /** The four screens of the view switch. */
  datatype Screen = DashboardScreen | NewClientScreen | ClientsListScreen | ClientDetailScreen

  /** The income filter buttons. */
  datatype IncomeFilter = All | Week | Month | Custom

  datatype Option<T> = None | Some(value: T)

  /** The custom date range; an empty date input is `None`. */
  datatype DateRange = DateRange(start: Option<int>, end: Option<int>)

  /** The outcome of one call to the remote store: it answered with a value,
      it answered with an error, or the awaited call threw (caught by the
      handler's `catch`). */
  datatype Remote<T> = Ok(value: T) | Error | Threw
}
