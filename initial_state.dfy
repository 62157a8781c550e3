/**
 * The default calculator snapshot (src/utils/initialState.ts) and the
 * waterfall it produces.
 */
module InitialState {
  import opened Types
  import opened Calc

  /**
   * `getInitialState`: price 120000 for one unit; managers 10%, marketing 0%,
   * production 54%, installers 7% and claims 2% of their bases; hardware and
   * logistics 2000 each.
   */
  function GetInitialState(): (s: CalculatorState)
    ensures s.unitPrice == Finite(120000.0) && s.quantity == Finite(1.0)
    ensures EntriesValid(s.expenses)
  {
    CalculatorState(
      Finite(120000.0),
      Finite(1.0),
      Expenses(
        ExpenseState(Managers, "Менеджери", Percent, Finite(0.1)),
        ExpenseState(Marketing, "Маркетинг", Percent, Finite(0.0)),
        ExpenseState(Production, "Виробництво", Percent, Finite(0.54)),
        ExpenseState(Hardware, "Фурнітура", Amount, Finite(2000.0)),
        ExpenseState(Logistics, "Логістика", Amount, Finite(2000.0)),
        ExpenseState(Installers, "Монтажники", Percent, Finite(0.07)),
        ExpenseState(Claims, "Рекламації", Percent, Finite(0.02))))
  }

  /** The default price and quantity give 120000 of revenue. */
  lemma DefaultRevenue()
    ensures ComputeAll(GetInitialState()).revenue == 120000.0
  {
  }

  /** The default entries' amounts against the bases the chain gives them. */
  lemma DefaultChainedAmounts()
    ensures var e := GetInitialState().expenses;
      && ComputeExpense(118000.0, e.managers).amount == 11800.0
      && ComputeExpense(106200.0, e.marketing).amount == 0.0
  {
  }

  /** The default entries' amounts against the full revenue. */
  lemma DefaultAmountsFromRevenue()
    ensures var e := GetInitialState().expenses;
      && ComputeExpense(120000.0, e.production).amount == 64800.0
      && ComputeExpense(120000.0, e.hardware).amount == 2000.0
      && ComputeExpense(120000.0, e.installers).amount == 8400.0
      && ComputeExpense(120000.0, e.claims).amount == 2400.0
  {
  }

  /** Logistics, an amount of 2000, leaves 118000. */
  lemma DefaultLogistics()
    ensures var r := ComputeAll(GetInitialState());
      Row(r, Logistics).amount == 2000.0 && Row(r, Logistics).remainingAfter == 118000.0
  {
    var s := GetInitialState();
    DefaultRevenue();
    BaseChain(s);
    RemainderChain(s);
    assert ComputeExpense(120000.0, s.expenses.logistics).amount == 2000.0;
  }

  /** Managers take 10% of the 118000 left after logistics, leaving 106200; marketing takes nothing. */
  lemma DefaultManagersAndMarketing()
    ensures var r := ComputeAll(GetInitialState());
      && Row(r, Managers).amount == 11800.0 && Row(r, Managers).remainingAfter == 106200.0
      && Row(r, Marketing).amount == 0.0 && Row(r, Marketing).remainingAfter == 106200.0
  {
    var s := GetInitialState();
    DefaultLogistics();
    BaseChain(s);
    RemainderChain(s);
    DefaultChainedAmounts();
  }

  /** Production, hardware, installers and claims are taken from the full 120000. */
  lemma DefaultRevenueBasedRows()
    ensures var r := ComputeAll(GetInitialState());
      && Row(r, Production).amount == 64800.0
      && Row(r, Hardware).amount == 2000.0
      && Row(r, Installers).amount == 8400.0
      && Row(r, Claims).amount == 2400.0
  {
    var s := GetInitialState();
    DefaultRevenue();
    BaseChain(s);
    DefaultAmountsFromRevenue();
  }

  /**
   * The worked example: the expenses total 91400 and the profit is 28600,
   * which is also what is left after the last deduction; the profit share is
   * 28600 / 120000.
   */
  lemma DefaultWaterfall()
    ensures var r := ComputeAll(GetInitialState());
      && r.totalExpensesAmount == 91400.0
      && r.profitAmount == 28600.0
      && Row(r, Claims).remainingAfter == 28600.0
      && r.profitPercent == 143.0 / 600.0
  {
    var s := GetInitialState();
    DefaultRevenue();
    DefaultLogistics();
    DefaultManagersAndMarketing();
    DefaultRevenueBasedRows();
    TotalIsSumOfRows(s);
    ClaimsRemainderIsProfit(s);
    var r := ComputeAll(s);
    assert r.profitPercent * 120000.0 == 28600.0;
  }

  /**
   * Re-applying each default entry's own mode and value through the
   * matching setter leaves the default snapshot unchanged.
   */
  lemma DefaultIsSetterFixedPoint(id: ExpenseId)
    ensures var s := GetInitialState(); var e := s.expenses.Get(id);
      && (e.mode == Percent ==> SetExpensePercent(s, id, e.value) == s)
      && (e.mode == Amount ==> SetExpenseAmount(s, id, e.value) == s)
  {
    SettersFixValidEntries(GetInitialState(), id);
  }
}
