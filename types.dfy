/**
 * The data shapes of the waterfall calculator (src/types.ts).
 *
 * A JavaScript `number` is modelled as a real number that may instead be
 * non-finite (NaN or an infinity); the calculator only ever asks whether a
 * number is finite, so the three non-finite values share one constructor.
 */
module Types {

  /** A JavaScript number: a finite real, or one of NaN, +Infinity, -Infinity. */
  datatype Number = Finite(value: real) | NonFinite

  /** The seven closed expense identifiers. */
  datatype ExpenseId = Managers | Marketing | Production | Hardware | Logistics | Installers | Claims

  /** How an entry's `value` is read: a fraction of its base, or a fixed amount. */
  datatype ExpenseMode = Percent | Amount

  /** One editable expense line (`label` is a reserved word in Dafny, hence `labelText`). */
  datatype ExpenseState = ExpenseState(id: ExpenseId, labelText: string, mode: ExpenseMode, value: Number)

  /** `Record<ExpenseId, ExpenseState>`: one entry per identifier, all seven always present. */
  datatype Expenses = Expenses(
    managers: ExpenseState,
    marketing: ExpenseState,
    production: ExpenseState,
    hardware: ExpenseState,
    logistics: ExpenseState,
    installers: ExpenseState,
    claims: ExpenseState)
  {
    /** `expenses[id]` */
    function Get(id: ExpenseId): (r: ExpenseState) {
      match id
      case Managers => managers
      case Marketing => marketing
      case Production => production
      case Hardware => hardware
      case Logistics => logistics
      case Installers => installers
      case Claims => claims
    }

    /** `{...expenses, [id]: e}` */
    function With(id: ExpenseId, e: ExpenseState): (r: Expenses)
      ensures r.Get(id) == e
      ensures forall other :: other != id ==> r.Get(other) == Get(other)
    {
      match id
      case Managers => this.(managers := e)
      case Marketing => this.(marketing := e)
      case Production => this.(production := e)
      case Hardware => this.(hardware := e)
      case Logistics => this.(logistics := e)
      case Installers => this.(installers := e)
      case Claims => this.(claims := e)
    }
  }

  /** The full editable snapshot. */
  datatype CalculatorState = CalculatorState(unitPrice: Number, quantity: Number, expenses: Expenses)

  /** One row of the computed waterfall. */
  datatype ComputedExpense = ComputedExpense(
    id: ExpenseId,
    labelText: string,
    base: real,
    percent: real,
    amount: real,
    remainingAfter: real)

  /** The full output of the engine. */
  datatype ComputationResult = ComputationResult(
    revenue: real,
    rows: seq<ComputedExpense>,
    totalExpensesAmount: real,
    totalExpensesPercent: real,
    profitAmount: real,
    profitPercent: real)
}
