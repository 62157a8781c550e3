/**
 * The earlier six-expense engine (src/utils/calculations.ts) with its data
 * shapes (src/types/calculator.ts). Percentages are on a 0-100 scale, each
 * expense carries a flag saying whether its percentage or its stored amount
 * is authoritative, and nothing is sanitised or clamped.
 */
module Calculations {

  /** One expense line: a percentage (0-100), a stored amount and the flag choosing between them. */
  datatype Expense = Expense(id: string, name: string, percentage: real, amount: real, isPercentageBased: bool)

  /** The six expense lines, one field each. */
  datatype Expenses = Expenses(
    managers: Expense,
    marketing: Expense,
    production: Expense,
    hardware: Expense,
    logistics: Expense,
    complaints: Expense)

  /** The editable state: price of one unit, the number of units, the expenses. */
  datatype CalculatorState = CalculatorState(price: real, quantity: real, expenses: Expenses)

  /** The totals the engine reports; percentages are on a 0-100 scale. */
  datatype CalculationResult = CalculationResult(
    totalRevenue: real,
    totalExpenses: real,
    totalExpensesPercentage: real,
    profit: real,
    profitPercentage: real,
    remainingAfterManagers: real)

  /** What an expense deducts from `base`: its percentage of it, or its stored amount. */
  function ExpenseAmount(e: Expense, base: real): (r: real)
    ensures e.isPercentageBased ==> r * 100.0 == base * e.percentage
    ensures !e.isPercentageBased ==> r == e.amount
    ensures e.isPercentageBased && 0.0 <= base && 0.0 <= e.percentage <= 100.0 ==> 0.0 <= r <= base
  {
    if e.isPercentageBased then (base * e.percentage) / 100.0 else e.amount
  }

  /** `(part / whole) * 100` when the whole is positive, 0 otherwise. */
  function Percentage(part: real, whole: real): (r: real)
    ensures whole <= 0.0 ==> r == 0.0
    ensures whole > 0.0 ==> r * whole == part * 100.0
  {
    if whole > 0.0 then (part / whole) * 100.0 else 0.0
  }

  /**
   * `calculateResults`: managers are taken from revenue, marketing from what
   * is left after managers, production, hardware, logistics and complaints
   * from revenue; the profit is revenue less the six amounts.
   */
  function CalculateResults(state: CalculatorState): (r: CalculationResult)
    ensures r.totalRevenue == state.price * state.quantity
    ensures r.remainingAfterManagers == r.totalRevenue - ExpenseAmount(state.expenses.managers, r.totalRevenue)
    ensures r.totalExpenses ==
      ExpenseAmount(state.expenses.managers, r.totalRevenue)
      + ExpenseAmount(state.expenses.marketing, r.remainingAfterManagers)
      + ExpenseAmount(state.expenses.production, r.totalRevenue)
      + ExpenseAmount(state.expenses.hardware, r.totalRevenue)
      + ExpenseAmount(state.expenses.logistics, r.totalRevenue)
      + ExpenseAmount(state.expenses.complaints, r.totalRevenue)
    ensures r.profit == r.totalRevenue - r.totalExpenses
    ensures r.totalExpensesPercentage == Percentage(r.totalExpenses, r.totalRevenue)
    ensures r.profitPercentage == Percentage(r.profit, r.totalRevenue)
  {
    var e := state.expenses;
    var totalRevenue := state.price * state.quantity;
    var managersAmount := ExpenseAmount(e.managers, totalRevenue);
    var remainingAfterManagers := totalRevenue - managersAmount;
    var marketingAmount := ExpenseAmount(e.marketing, remainingAfterManagers);
    var productionAmount := ExpenseAmount(e.production, totalRevenue);
    var hardwareAmount := ExpenseAmount(e.hardware, totalRevenue);
    var logisticsAmount := ExpenseAmount(e.logistics, totalRevenue);
    var complaintsAmount := ExpenseAmount(e.complaints, totalRevenue);
    var totalExpenses := managersAmount + marketingAmount + productionAmount + hardwareAmount
      + logisticsAmount + complaintsAmount;
    var profit := totalRevenue - totalExpenses;
    CalculationResult(
      totalRevenue,
      totalExpenses,
      Percentage(totalExpenses, totalRevenue),
      profit,
      Percentage(profit, totalRevenue),
      remainingAfterManagers)
  }

  /** With positive revenue, the expense and profit percentages add up to 100; otherwise both are 0. */
  lemma PercentagesAddUpToHundred(state: CalculatorState)
    ensures var r := CalculateResults(state);
      && (r.totalRevenue > 0.0 ==> r.totalExpensesPercentage + r.profitPercentage == 100.0)
      && (r.totalRevenue <= 0.0 ==> r.totalExpensesPercentage == 0.0 && r.profitPercentage == 0.0)
  {
    var r := CalculateResults(state);
    if r.totalRevenue > 0.0 {
      var a, b := r.totalExpensesPercentage, r.profitPercentage;
      assert (a + b) * r.totalRevenue == a * r.totalRevenue + b * r.totalRevenue;
      assert (a + b - 100.0) * r.totalRevenue == 0.0;
    }
  }

  /**
   * `updateExpenseByPercentage`: the expense becomes percentage-based with
   * the new percentage, and its stored amount is that share of `baseAmount`.
   */
  function UpdateExpenseByPercentage(expense: Expense, percentage: real, baseAmount: real): (r: Expense)
    ensures r.id == expense.id && r.name == expense.name
    ensures r.isPercentageBased && r.percentage == percentage
    ensures r.amount * 100.0 == baseAmount * percentage
    ensures ExpenseAmount(r, baseAmount) == r.amount
  {
    expense.(percentage := percentage, amount := (baseAmount * percentage) / 100.0, isPercentageBased := true)
  }

  /**
   * `updateExpenseByAmount`: the expense becomes amount-based with the new
   * amount, and its percentage is that amount's share of `baseAmount` (0
   * when the base is not positive).
   */
  function UpdateExpenseByAmount(expense: Expense, amount: real, baseAmount: real): (r: Expense)
    ensures r.id == expense.id && r.name == expense.name
    ensures !r.isPercentageBased && r.amount == amount
    ensures baseAmount <= 0.0 ==> r.percentage == 0.0
    ensures baseAmount > 0.0 ==> baseAmount * r.percentage / 100.0 == amount
    ensures forall base :: ExpenseAmount(r, base) == amount
  {
    expense.(percentage := if baseAmount > 0.0 then (amount / baseAmount) * 100.0 else 0.0,
             amount := amount,
             isPercentageBased := false)
  }

  /**
   * Against a positive base, the two updates undo each other: setting the
   * amount that a percentage gives restores that percentage, and setting the
   * percentage that an amount gives restores that amount.
   */
  lemma UpdatesRoundTrip(e: Expense, p: real, a: real, baseAmount: real)
    requires baseAmount > 0.0
    ensures var byPct := UpdateExpenseByPercentage(e, p, baseAmount);
      UpdateExpenseByAmount(byPct, byPct.amount, baseAmount).percentage == p
    ensures var byAmt := UpdateExpenseByAmount(e, a, baseAmount);
      UpdateExpenseByPercentage(byAmt, byAmt.percentage, baseAmount).amount == a
  {
    var byPct := UpdateExpenseByPercentage(e, p, baseAmount);
    var back := UpdateExpenseByAmount(byPct, byPct.amount, baseAmount);
    CancelPositiveBase(baseAmount, back.percentage, p, byPct.amount);
  }

  /** Cancelling a positive base: `base * x / 100 == y` and `y * 100 == base * p` give `x == p`. */
  lemma CancelPositiveBase(base: real, x: real, p: real, y: real)
    requires base > 0.0
    requires base * x / 100.0 == y
    requires y * 100.0 == base * p
    ensures x == p
  {
    assert base * x == base * p;
    assert (x - p) * base == 0.0;
  }
}
