/**
 * The profit waterfall engine (src/calc.ts): the per-expense helper, the
 * whole-state computation and the two pure setters.
 *
 * Numbers are reals. `safeNumber` (JavaScript's `Number.isFinite` test) maps
 * the non-finite inputs to 0; every value computed after that is finite.
 */
module Calc {
  import opened Types

  /** `Math.max` on finite numbers. */
  function Max(a: real, b: real): (r: real) {
    if a >= b then a else b
  }

  /** `Math.min` on finite numbers. */
  function Min(a: real, b: real): (r: real) {
    if a <= b then a else b
  }

  /** `clamp`: `value` pushed into `[min, max]`. */
  function Clamp(value: real, min: real, max: real): (r: real)
    ensures min <= max ==> min <= r <= max
    ensures min <= max && min <= value <= max ==> r == value
    ensures min <= max && value < min ==> r == min
    ensures min <= max && max < value ==> r == max
  {
    Min(max, Max(min, value))
  }

  /** `safeNumber`: the value of a finite number, 0 for NaN and the infinities. */
  function SafeNumber(n: Number): (r: real)
    ensures n.Finite? ==> r == n.value
    ensures n.NonFinite? ==> r == 0.0
  {
    match n
    case Finite(v) => v
    case NonFinite => 0.0
  }

  /**
   * `part / whole` as a share, with a zero whole giving a zero share instead
   * of a division by zero.
   */
  function Share(part: real, whole: real): (r: real)
    ensures whole == 0.0 ==> r == 0.0
    ensures whole != 0.0 ==> r * whole == part
    ensures part >= 0.0 && whole >= 0.0 ==> r >= 0.0
  {
    if whole == 0.0 then 0.0
    else
      var q := part / whole;
      assert part >= 0.0 && whole > 0.0 && q < 0.0 ==> q * whole < 0.0;
      q
  }

  /** `max(0, unitPrice) * max(0, quantity)`, both operands sanitised first. */
  function Revenue(state: CalculatorState): (r: real)
    ensures r >= 0.0
    ensures state.unitPrice.Finite? && state.quantity.Finite? && state.unitPrice.value >= 0.0 && state.quantity.value >= 0.0 ==>
      r == state.unitPrice.value * state.quantity.value
    ensures SafeNumber(state.unitPrice) <= 0.0 || SafeNumber(state.quantity) <= 0.0 ==> r == 0.0
  {
    Max(0.0, SafeNumber(state.unitPrice)) * Max(0.0, SafeNumber(state.quantity))
  }

  /** The `{percent, amount}` pair that `computeExpense` returns. */
  datatype ExpenseAmounts = ExpenseAmounts(percent: real, amount: real)

  /**
   * `computeExpense`: the share and the amount of one entry against `base`,
   * which is first sanitised to `max(0, base)`.
   */
  function ComputeExpense(base: real, expense: ExpenseState): (r: ExpenseAmounts)
    ensures r.amount >= 0.0 && r.percent >= 0.0
    ensures expense.mode == Percent || Max(0.0, base) != 0.0 ==> r.amount == Max(0.0, base) * r.percent
    ensures expense.mode == Percent ==>
      && r.percent == Clamp(SafeNumber(expense.value), 0.0, 1.0)
      && r.percent <= 1.0
      && r.amount == Max(0.0, base) * r.percent
      && r.amount <= Max(0.0, base)
    ensures expense.mode == Amount ==>
      && r.amount == Max(0.0, SafeNumber(expense.value))
      && r.percent == Share(r.amount, Max(0.0, base))
  {
    var safeBase := Max(0.0, base);
    if expense.mode == Percent then
      var percent := Clamp(SafeNumber(expense.value), 0.0, 1.0);
      var amount := safeBase * percent;
      assert safeBase - amount == safeBase * (1.0 - percent);
      assert 0.0 <= safeBase * (1.0 - percent);
      ExpenseAmounts(percent, amount)
    else
      var amount := Max(0.0, SafeNumber(expense.value));
      ExpenseAmounts(Share(amount, safeBase), amount)
  }

  /** The fixed order in which the rows are displayed (not the order they are computed in). */
  const DisplayOrder: seq<ExpenseId> := [Managers, Marketing, Production, Hardware, Logistics, Installers, Claims]

  /** The position of `id`'s row in the display order. */
  function DisplayIndex(id: ExpenseId): (i: nat)
    ensures i < |DisplayOrder| && DisplayOrder[i] == id
    ensures forall j :: 0 <= j < |DisplayOrder| && DisplayOrder[j] == id ==> j == i
  {
    match id
    case Managers => 0
    case Marketing => 1
    case Production => 2
    case Hardware => 3
    case Logistics => 4
    case Installers => 5
    case Claims => 6
  }

  /** The row of `id` in a result that has one row per identifier. */
  function Row(result: ComputationResult, id: ExpenseId): (r: ComputedExpense)
    requires |result.rows| == |DisplayOrder|
  {
    result.rows[DisplayIndex(id)]
  }

  /** The row carries the share and amount of `expense` computed against `base`. */
  predicate ComputedFrom(row: ComputedExpense, base: real, expense: ExpenseState) {
    var c := ComputeExpense(base, expense);
    row.percent == c.percent && row.amount == c.amount
  }

  /** `rows.reduce((sum, row) => sum + row.amount, 0)`, folded from the left. */
  function SumAmounts(rows: seq<ComputedExpense>): (r: real)
    ensures rows == [] ==> r == 0.0
    ensures (forall i :: 0 <= i < |rows| ==> rows[i].amount >= 0.0) ==> r >= 0.0
  {
    if rows == [] then 0.0 else SumAmounts(rows[..|rows| - 1]) + rows[|rows| - 1].amount
  }

  /**
   * `computeAll`: revenue, the seven rows in display order, the totals and
   * the profit. Logistics is taken from revenue, managers from what is left
   * after logistics, marketing from what is left after managers, and the
   * other four from revenue again; the remainder runs through all seven in
   * that computation order. The managers row reports revenue as its base.
   */
  function ComputeAll(state: CalculatorState): (r: ComputationResult)
    ensures r.revenue == Revenue(state)
    ensures |r.rows| == |DisplayOrder|
    ensures forall i :: 0 <= i < |r.rows| ==>
      && r.rows[i].id == DisplayOrder[i]
      && r.rows[i].labelText == state.expenses.Get(DisplayOrder[i]).labelText
      && r.rows[i].amount >= 0.0
    // totals
    ensures r.totalExpensesAmount == SumAmounts(r.rows)
    ensures r.profitAmount == r.revenue - r.totalExpensesAmount
    ensures r.totalExpensesPercent == Share(r.totalExpensesAmount, r.revenue)
    ensures r.profitPercent == Share(r.profitAmount, r.revenue)
  {
    var revenue := Revenue(state);

    var logistics := ComputeExpense(revenue, state.expenses.logistics);
    var afterLogistics := revenue - logistics.amount;

    var managers := ComputeExpense(afterLogistics, state.expenses.managers);
    var afterManagers := afterLogistics - managers.amount;

    var marketing := ComputeExpense(afterManagers, state.expenses.marketing);
    var afterMarketing := afterManagers - marketing.amount;

    var production := ComputeExpense(revenue, state.expenses.production);
    var afterProduction := afterMarketing - production.amount;

    var hardware := ComputeExpense(revenue, state.expenses.hardware);
    var afterHardware := afterProduction - hardware.amount;

    var installers := ComputeExpense(revenue, state.expenses.installers);
    var afterInstallers := afterHardware - installers.amount;

    var claims := ComputeExpense(revenue, state.expenses.claims);
    var afterClaims := afterInstallers - claims.amount;

    var e := state.expenses;
    var rows := [
      ComputedExpense(Managers, e.managers.labelText, revenue, managers.percent, managers.amount, afterManagers),
      ComputedExpense(Marketing, e.marketing.labelText, afterManagers, marketing.percent, marketing.amount, afterMarketing),
      ComputedExpense(Production, e.production.labelText, revenue, production.percent, production.amount, afterProduction),
      ComputedExpense(Hardware, e.hardware.labelText, revenue, hardware.percent, hardware.amount, afterHardware),
      ComputedExpense(Logistics, e.logistics.labelText, revenue, logistics.percent, logistics.amount, afterLogistics),
      ComputedExpense(Installers, e.installers.labelText, revenue, installers.percent, installers.amount, afterInstallers),
      ComputedExpense(Claims, e.claims.labelText, revenue, claims.percent, claims.amount, afterClaims)
    ];

    var totalExpensesAmount := SumAmounts(rows);
    var totalExpensesPercent := Share(totalExpensesAmount, revenue);
    var profitAmount := revenue - totalExpensesAmount;
    var profitPercent := Share(profitAmount, revenue);
    ComputationResult(revenue, rows, totalExpensesAmount, totalExpensesPercent, profitAmount, profitPercent)
  }

  /**
   * The base chain: logistics is taken from revenue, managers from what is
   * left after logistics, marketing from what is left after managers, and
   * production, hardware, installers and claims from revenue again.
   */
  lemma BaseChain(state: CalculatorState)
    ensures var r := ComputeAll(state);
      && ComputedFrom(Row(r, Logistics), r.revenue, state.expenses.logistics)
      && ComputedFrom(Row(r, Managers), Row(r, Logistics).remainingAfter, state.expenses.managers)
      && ComputedFrom(Row(r, Marketing), Row(r, Managers).remainingAfter, state.expenses.marketing)
      && ComputedFrom(Row(r, Production), r.revenue, state.expenses.production)
      && ComputedFrom(Row(r, Hardware), r.revenue, state.expenses.hardware)
      && ComputedFrom(Row(r, Installers), r.revenue, state.expenses.installers)
      && ComputedFrom(Row(r, Claims), r.revenue, state.expenses.claims)
  {
  }

  /**
   * The base each row reports: revenue for every row but marketing, whose
   * base is what is left after managers. The managers row reports revenue
   * although its amount was taken from what is left after logistics.
   */
  lemma ReportedBases(state: CalculatorState)
    ensures var r := ComputeAll(state);
      && (forall id :: id != Marketing ==> Row(r, id).base == r.revenue)
      && Row(r, Marketing).base == Row(r, Managers).remainingAfter
  {
  }

  /**
   * The running remainder: each row's remainder is the previous one minus
   * its own amount, in the order logistics, managers, marketing, production,
   * hardware, installers, claims.
   */
  lemma RemainderChain(state: CalculatorState)
    ensures var r := ComputeAll(state);
      && Row(r, Logistics).remainingAfter == r.revenue - Row(r, Logistics).amount
      && Row(r, Managers).remainingAfter == Row(r, Logistics).remainingAfter - Row(r, Managers).amount
      && Row(r, Marketing).remainingAfter == Row(r, Managers).remainingAfter - Row(r, Marketing).amount
      && Row(r, Production).remainingAfter == Row(r, Marketing).remainingAfter - Row(r, Production).amount
      && Row(r, Hardware).remainingAfter == Row(r, Production).remainingAfter - Row(r, Hardware).amount
      && Row(r, Installers).remainingAfter == Row(r, Hardware).remainingAfter - Row(r, Installers).amount
      && Row(r, Claims).remainingAfter == Row(r, Installers).remainingAfter - Row(r, Claims).amount
  {
  }

  /** One more row adds its amount to the fold. */
  lemma SumAmountsSnoc(rows: seq<ComputedExpense>, k: nat)
    requires 0 < k <= |rows|
    ensures SumAmounts(rows[..k]) == SumAmounts(rows[..k - 1]) + rows[k - 1].amount
  {
    assert rows[..k][..k - 1] == rows[..k - 1];
  }

  /** A fold over seven rows is the seven amounts added up. */
  lemma SumOfSevenRows(rows: seq<ComputedExpense>)
    requires |rows| == 7
    ensures SumAmounts(rows) == rows[0].amount + rows[1].amount + rows[2].amount + rows[3].amount
      + rows[4].amount + rows[5].amount + rows[6].amount
  {
    assert rows[..0] == [];
    SumAmountsSnoc(rows, 1);
    SumAmountsSnoc(rows, 2);
    SumAmountsSnoc(rows, 3);
    SumAmountsSnoc(rows, 4);
    SumAmountsSnoc(rows, 5);
    SumAmountsSnoc(rows, 6);
    SumAmountsSnoc(rows, 7);
    assert rows[..7] == rows;
  }

  /** The total is the seven row amounts added up. */
  lemma TotalIsSumOfRows(state: CalculatorState)
    ensures var r := ComputeAll(state);
      r.totalExpensesAmount ==
        Row(r, Managers).amount + Row(r, Marketing).amount + Row(r, Production).amount
        + Row(r, Hardware).amount + Row(r, Logistics).amount + Row(r, Installers).amount
        + Row(r, Claims).amount
  {
    SumOfSevenRows(ComputeAll(state).rows);
  }

  /** The remainder left after the last deduction (claims) is the profit. */
  lemma ClaimsRemainderIsProfit(state: CalculatorState)
    ensures Row(ComputeAll(state), Claims).remainingAfter == ComputeAll(state).profitAmount
  {
    RemainderChain(state);
    TotalIsSumOfRows(state);
  }

  /** The shares of a part and of the rest of a non-zero whole add up to one. */
  lemma ShareOfComplement(part: real, whole: real)
    ensures whole != 0.0 ==> Share(part, whole) + Share(whole - part, whole) == 1.0
  {
    if whole != 0.0 {
      var a, b := Share(part, whole), Share(whole - part, whole);
      assert (a + b) * whole == a * whole + b * whole;
      assert (a + b - 1.0) * whole == 0.0;
    }
  }

  /** With non-zero revenue, the expense share and the profit share add up to the whole. */
  lemma SharesAddUpToOne(state: CalculatorState)
    ensures var r := ComputeAll(state);
      r.revenue != 0.0 ==> r.totalExpensesPercent + r.profitPercent == 1.0
  {
    var r := ComputeAll(state);
    ShareOfComplement(r.totalExpensesAmount, r.revenue);
  }

  /**
   * With zero revenue every base is at most zero, so every percent-mode row
   * deducts nothing, every amount-mode row reports a zero share, and both
   * shares of the totals are zero rather than undefined.
   */
  lemma ZeroRevenue(state: CalculatorState)
    requires ComputeAll(state).revenue == 0.0
    ensures var r := ComputeAll(state);
      && r.totalExpensesPercent == 0.0 && r.profitPercent == 0.0
      && (forall id :: state.expenses.Get(id).mode == Percent ==> Row(r, id).amount == 0.0)
      && (forall id :: state.expenses.Get(id).mode == Amount ==> Row(r, id).percent == 0.0)
  {
    var r := ComputeAll(state);
    var afterLogistics := Row(r, Logistics).remainingAfter;
    assert afterLogistics <= 0.0;
    assert Row(r, Managers).amount == 0.0 || state.expenses.managers.mode == Amount;
    var afterManagers := Row(r, Managers).remainingAfter;
    assert afterManagers <= 0.0;
    forall id | state.expenses.Get(id).mode == Percent
      ensures Row(r, id).amount == 0.0
    {
    }
    forall id | state.expenses.Get(id).mode == Amount
      ensures Row(r, id).percent == 0.0
    {
    }
  }

  /** The row of an entry taken from revenue, read off the result alone. */
  lemma RevenueBasedRow(state: CalculatorState, id: ExpenseId)
    requires id != Managers && id != Marketing
    ensures var row, revenue := Row(ComputeAll(state), id), Revenue(state);
      && row.base == revenue
      && row.percent == ComputeExpense(revenue, state.expenses.Get(id)).percent
      && row.amount == ComputeExpense(revenue, state.expenses.Get(id)).amount
  {
  }

  /**
   * The rows of logistics, production, hardware, installers and claims depend
   * only on revenue and their own entry: changing any other entry leaves
   * their base, share and amount alone.
   */
  lemma RevenueBasedRowsAreIndependent(s1: CalculatorState, s2: CalculatorState, id: ExpenseId)
    requires id != Managers && id != Marketing
    requires Revenue(s1) == Revenue(s2)
    requires s1.expenses.Get(id) == s2.expenses.Get(id)
    ensures var r1, r2 := ComputeAll(s1), ComputeAll(s2);
      && Row(r1, id).base == Row(r2, id).base
      && Row(r1, id).percent == Row(r2, id).percent
      && Row(r1, id).amount == Row(r2, id).amount
  {
    RevenueBasedRow(s1, id);
    RevenueBasedRow(s2, id);
  }

  /** A state whose expenses exceed revenue reports a negative profit, unclamped. */
  lemma ProfitMayBeNegative()
    ensures exists s :: ComputeAll(s).profitAmount < 0.0
  {
    var fixed := ExpenseState(Hardware, "", Amount, Finite(10.0));
    var none := ExpenseState(Managers, "", Amount, Finite(0.0));
    var s := CalculatorState(Finite(5.0), Finite(1.0), Expenses(none, none, none, fixed, none, none, none));
    var r := ComputeAll(s);
    assert r.revenue == 5.0;
    BaseChain(s);
    assert Row(r, Hardware).amount == 10.0;
    TotalIsSumOfRows(s);
    assert r.totalExpensesAmount >= 10.0;
  }

  /** `setExpensePercent`: entry `id` becomes a percent entry with its share clamped into [0, 1]. */
  function SetExpensePercent(prev: CalculatorState, id: ExpenseId, percent01: Number): (s: CalculatorState)
    ensures s.unitPrice == prev.unitPrice && s.quantity == prev.quantity
    ensures s.expenses.Get(id).id == prev.expenses.Get(id).id
    ensures s.expenses.Get(id).labelText == prev.expenses.Get(id).labelText
    ensures s.expenses.Get(id).mode == Percent
    ensures s.expenses.Get(id).value.Finite?
    ensures 0.0 <= s.expenses.Get(id).value.value <= 1.0
    ensures percent01.Finite? && 0.0 <= percent01.value <= 1.0 ==> s.expenses.Get(id).value == percent01
    ensures percent01.Finite? && percent01.value > 1.0 ==> s.expenses.Get(id).value == Finite(1.0)
    ensures percent01.Finite? && percent01.value < 0.0 ==> s.expenses.Get(id).value == Finite(0.0)
    ensures percent01.NonFinite? ==> s.expenses.Get(id).value == Finite(0.0)
    ensures forall other :: other != id ==> s.expenses.Get(other) == prev.expenses.Get(other)
  {
    var entry := prev.expenses.Get(id);
    prev.(expenses := prev.expenses.With(id, entry.(mode := Percent, value := Finite(Clamp(SafeNumber(percent01), 0.0, 1.0)))))
  }

  /** `setExpenseAmount`: entry `id` becomes an amount entry with a non-negative amount. */
  function SetExpenseAmount(prev: CalculatorState, id: ExpenseId, amount: Number): (s: CalculatorState)
    ensures s.unitPrice == prev.unitPrice && s.quantity == prev.quantity
    ensures s.expenses.Get(id).id == prev.expenses.Get(id).id
    ensures s.expenses.Get(id).labelText == prev.expenses.Get(id).labelText
    ensures s.expenses.Get(id).mode == Amount
    ensures s.expenses.Get(id).value.Finite?
    ensures s.expenses.Get(id).value.value >= 0.0
    ensures amount.Finite? && amount.value >= 0.0 ==> s.expenses.Get(id).value == amount
    ensures amount.Finite? && amount.value < 0.0 ==> s.expenses.Get(id).value == Finite(0.0)
    ensures amount.NonFinite? ==> s.expenses.Get(id).value == Finite(0.0)
    ensures forall other :: other != id ==> s.expenses.Get(other) == prev.expenses.Get(other)
  {
    var entry := prev.expenses.Get(id);
    prev.(expenses := prev.expenses.With(id, entry.(mode := Amount, value := Finite(Max(0.0, SafeNumber(amount))))))
  }

  /** Two states are equal when price, quantity and every entry agree. */
  lemma StatesEqual(s1: CalculatorState, s2: CalculatorState)
    requires s1.unitPrice == s2.unitPrice && s1.quantity == s2.quantity
    requires forall id :: s1.expenses.Get(id) == s2.expenses.Get(id)
    ensures s1 == s2
  {
    assert s1.expenses.Get(Managers) == s2.expenses.Get(Managers);
    assert s1.expenses.Get(Marketing) == s2.expenses.Get(Marketing);
    assert s1.expenses.Get(Production) == s2.expenses.Get(Production);
    assert s1.expenses.Get(Hardware) == s2.expenses.Get(Hardware);
    assert s1.expenses.Get(Logistics) == s2.expenses.Get(Logistics);
    assert s1.expenses.Get(Installers) == s2.expenses.Get(Installers);
    assert s1.expenses.Get(Claims) == s2.expenses.Get(Claims);
  }

  /** Setting the same share twice is the same as setting it once. */
  lemma SetExpensePercentIdempotent(s: CalculatorState, id: ExpenseId, p: Number)
    ensures SetExpensePercent(SetExpensePercent(s, id, p), id, p) == SetExpensePercent(s, id, p)
  {
    var once := SetExpensePercent(s, id, p);
    StatesEqual(SetExpensePercent(once, id, p), once);
  }

  /** Setting the same amount twice is the same as setting it once. */
  lemma SetExpenseAmountIdempotent(s: CalculatorState, id: ExpenseId, a: Number)
    ensures SetExpenseAmount(SetExpenseAmount(s, id, a), id, a) == SetExpenseAmount(s, id, a)
  {
    var once := SetExpenseAmount(s, id, a);
    StatesEqual(SetExpenseAmount(once, id, a), once);
  }

  /** The last edit of an entry decides its mode: an earlier edit of the same entry is forgotten. */
  lemma LastEditWins(s: CalculatorState, id: ExpenseId, a: Number, p: Number)
    ensures SetExpensePercent(SetExpenseAmount(s, id, a), id, p) == SetExpensePercent(s, id, p)
    ensures SetExpenseAmount(SetExpensePercent(s, id, p), id, a) == SetExpenseAmount(s, id, a)
  {
    StatesEqual(SetExpensePercent(SetExpenseAmount(s, id, a), id, p), SetExpensePercent(s, id, p));
    StatesEqual(SetExpenseAmount(SetExpensePercent(s, id, p), id, a), SetExpenseAmount(s, id, a));
  }

  /**
   * The entry invariant of a state: every entry sits under its own key, holds
   * a finite value, a share in [0, 1] in percent mode and a non-negative
   * amount in amount mode.
   */
  predicate EntriesValid(expenses: Expenses) {
    forall id :: var e := expenses.Get(id);
      && e.id == id
      && e.value.Finite?
      && (e.mode == Percent ==> 0.0 <= e.value.value <= 1.0)
      && (e.mode == Amount ==> 0.0 <= e.value.value)
  }

  /** Both setters keep the entry invariant, whatever number they are given. */
  lemma SettersPreserveEntriesValid(s: CalculatorState, id: ExpenseId, x: Number)
    requires EntriesValid(s.expenses)
    ensures EntriesValid(SetExpensePercent(s, id, x).expenses)
    ensures EntriesValid(SetExpenseAmount(s, id, x).expenses)
  {
  }

  /**
   * Re-applying an entry's own mode and value through the matching setter
   * changes nothing when that entry's value is finite and within its mode's
   * range; the other entries may hold anything.
   */
  lemma SettersFixValidEntries(s: CalculatorState, id: ExpenseId)
    requires s.expenses.Get(id).value.Finite?
    requires s.expenses.Get(id).mode == Percent ==> 0.0 <= s.expenses.Get(id).value.value <= 1.0
    requires s.expenses.Get(id).mode == Amount ==> 0.0 <= s.expenses.Get(id).value.value
    ensures s.expenses.Get(id).mode == Percent ==> SetExpensePercent(s, id, s.expenses.Get(id).value) == s
    ensures s.expenses.Get(id).mode == Amount ==> SetExpenseAmount(s, id, s.expenses.Get(id).value) == s
  {
    var e := s.expenses.Get(id);
    if e.mode == Percent {
      StatesEqual(SetExpensePercent(s, id, e.value), s);
    } else {
      StatesEqual(SetExpenseAmount(s, id, e.value), s);
    }
  }

  /** After `setExpensePercent`, the entry's row reports the clamped share, whatever its base. */
  lemma SetPercentRowRoundTrip(s: CalculatorState, id: ExpenseId, x: Number)
    ensures Row(ComputeAll(SetExpensePercent(s, id, x)), id).percent == Clamp(SafeNumber(x), 0.0, 1.0)
  {
    BaseChain(SetExpensePercent(s, id, x));
  }

  /** After `setExpenseAmount`, the entry's row deducts the sanitised amount, whatever its base. */
  lemma SetAmountRowRoundTrip(s: CalculatorState, id: ExpenseId, x: Number)
    ensures Row(ComputeAll(SetExpenseAmount(s, id, x)), id).amount == Max(0.0, SafeNumber(x))
  {
    BaseChain(SetExpenseAmount(s, id, x));
  }
}
