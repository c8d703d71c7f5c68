/** Concrete runs of the ledger, as a caller sees them through the
    contracts alone. */
module Scenarios {
  import opened Records
  import opened Aggregator
  import opened Dashboard

  /** A payment larger than the debt clears it; a new debt adds to it. */
  lemma DebtRuleExamples()
    ensures NewDebt(500, Payment, 700) == 0
    ensures NewDebt(500, Debt, 300) == 800
  {
  }

  /** Add a client, open it, record a payment that exceeds its debt, then
      delete it from its own detail screen. */
  method PaymentThenDelete()
  {
    var ledger := new Ledger();
    var ana := Client(1, "Ana", "", 500, "", 0, 0);
    ledger.AddClient(Ok(ana));
    assert ledger.clients == [ana] && ledger.screen == DashboardScreen;

    ledger.OpenClient(ana);
    var draft := MakeDraft(1, Payment, 700, 0, "");
    assert draft.description == "Abono";
    var row := Transaction(10, 1, Payment, 700, 0, "Abono", 0);
    assert FindClient([ana], 1) == Some(ana);
    ledger.AddTransaction(draft, Ok(row), Ok(()));
    assert ledger.clients == [ana.(currentDebt := 0)];
    assert ledger.transactions == [row];
    // The selected client is a copy taken when the row was clicked: it still
    // shows the old debt.
    assert ledger.current == Some(ana);

    ledger.DeleteClient(1, Ok(()));
    assert ledger.clients == [];
    assert ledger.screen == ClientsListScreen && ledger.current == None;
    assert ledger.transactions == [row];
  }

  /** A confirmed insert followed by a failed debt update still lists the
      transaction, while the client's debt stays as it was. */
  method UpdateFailsAfterInsert()
  {
    var ledger := new Ledger();
    var ben := Client(2, "Ben", "8888", 100, "", 0, 0);
    ledger.AddClient(Ok(ben));
    var row := Transaction(11, 2, Debt, 300, 0, "Nueva deuda", 0);
    assert FindClient([ben], 2) == Some(ben);
    ledger.AddTransaction(MakeDraft(2, Debt, 300, 0, ""), Ok(row), Error);
    assert ledger.clients == [ben];
    assert ledger.transactions == [row];
  }
}
