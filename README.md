# Profit waterfall calculator — Dafny model

This project models the calculation core of a small profitability calculator
for a product sold in units (partitions, in the original application). From a
unit price, a quantity and seven expense lines it derives revenue, a
"waterfall" of deductions, the total of the expenses and the remaining profit.
Each expense is either a share of some base or a fixed amount.

Modules, one per source file:

- `Types` (`types.dfy`): the data shapes of `src/types.ts`. The seven expense
  identifiers are a closed datatype. `expenses` is a seven-field record, so all
  seven entries are always present. A JavaScript number is a `Number`: a finite
  real or `NonFinite` (NaN and the infinities, which the engine treats alike).
  The field `label` is called `labelText` because `label` is a Dafny keyword.
- `Calc` (`calc.dfy`): the current engine of `src/calc.ts`. It holds
  `computeExpense`, `computeAll` and the two setters `setExpensePercent` and
  `setExpenseAmount`. The base chain is modelled as written: logistics is taken
  from revenue, managers from what is left after logistics, marketing from what
  is left after managers, and the other four from revenue again. The rows come
  out in display order: managers, marketing, production, hardware, logistics,
  installers, claims. The managers row reports revenue as its base, although
  its amount is computed against what is left after logistics. The model keeps
  that reported value.
- `InitialState` (`initial_state.dfy`): the default snapshot and the worked
  example that it produces.
- `Calculations` (`calculations.dfy`): the earlier engine with six expenses and
  percentages on a 0-100 scale (`src/utils/calculations.ts`,
  `src/types/calculator.ts`). Only `src/components/Calculator.tsx` uses it.
- `Projects` (`use_projects.dfy`): the local project list of
  `src/hooks/useProjects.ts`. It is a class with a `seq<Project>` field and an
  optional active identifier. Its methods replace these fields the way the
  hook's state setters do.
- `Wrappers` (`wrappers.dfy`): `Option`, for JavaScript `null`.

Numbers are `real`. All arithmetic is exact, so the model has no rounding.

## Model

| member | source | states |
|---|---|---|
| `Types.Expenses.With` | src/calc.ts:135-142 | Replacing one entry (`{...expenses, [id]: e}`) puts `e` under `id` and leaves the other six entries as they were |
| `Calc.SafeNumber` | src/calc.ts:11 | A finite number keeps its value; NaN and the infinities become 0 |
| `Calc.Clamp` | src/calc.ts:8-9 | With min <= max the result lies in [min, max]; it is the value itself inside the range, min below it and max above it |
| `Calc.Revenue` | src/calc.ts:32-34 | Revenue is never negative. It is price times quantity when both are finite and non-negative, and 0 when either sanitises to 0 or below |
| `Calc.Share` | src/calc.ts:114-117 | A share of a zero whole is 0; otherwise share times whole gives the part back. The share of a non-negative part of a non-negative whole is non-negative |
| `Calc.ComputeExpense` | src/calc.ts:13-29 | Amount and percent are never negative. Whenever the base is used, amount = max(0, base) * percent. Percent mode: percent = clamp(value, 0, 1) and amount <= max(0, base). Amount mode: amount = max(0, value); percent is 0 on a zero base and amount / base otherwise. Non-finite values count as 0 |
| `Calc.DisplayIndex` | src/calc.ts:61-111 | Each identifier has exactly one row position in the display order managers, marketing, production, hardware, logistics, installers, claims |
| `Calc.SumAmounts` | src/calc.ts:113 | The fold of no rows is 0, and the fold of rows with non-negative amounts is non-negative |
| `Calc.ComputeAll` | src/calc.ts:31-127 | Revenue = max(0, price) * max(0, quantity). Exactly seven rows in display order, each labelled from its own entry, each amount >= 0. The total is the fold of the row amounts; profit = revenue - total and may be negative; both shares are 0 on zero revenue and total / revenue, profit / revenue otherwise |
| `Calc.BaseChain` | src/calc.ts:36-59 | Logistics is computed against revenue, managers against what is left after logistics, marketing against what is left after managers, and production, hardware, installers and claims against revenue |
| `Calc.ReportedBases` | src/calc.ts:61-111 | Every row but marketing reports revenue as its base, managers included; marketing reports what is left after managers |
| `Calc.RemainderChain` | src/calc.ts:38-59 | Each row's remainder is the previous remainder minus its own amount, in the order logistics, managers, marketing, production, hardware, installers, claims |
| `Calc.SumOfSevenRows` | src/calc.ts:113 | The left fold over seven rows is the sum of their seven amounts |
| `Calc.TotalIsSumOfRows` | src/calc.ts:113 | The total of the expenses is the sum of the seven row amounts |
| `Calc.ClaimsRemainderIsProfit` | src/calc.ts:56-116 | The remainder after the last deduction (claims) equals the profit |
| `Calc.ShareOfComplement` | src/calc.ts:114-117 | The share of a part and the share of the rest of a non-zero whole add up to 1 |
| `Calc.SharesAddUpToOne` | src/calc.ts:113-117 | With non-zero revenue, the expense share and the profit share add up to 1 |
| `Calc.ZeroRevenue` | src/calc.ts:14-28 | With zero revenue, both shares are 0, every percent-mode row deducts 0 and every amount-mode row reports a 0 share |
| `Calc.RevenueBasedRow` | src/calc.ts:49-59 | The rows of logistics, production, hardware, installers and claims are their entry computed against revenue, with revenue as their base |
| `Calc.RevenueBasedRowsAreIndependent` | src/calc.ts:37-59 | Those five rows depend only on revenue and their own entry: two states with equal revenue and an equal entry give the same base, share and amount |
| `Calc.ProfitMayBeNegative` | src/calc.ts:116 | Some state gives a negative profit, and it is reported as negative, not clamped |
| `Calc.SetExpensePercent` | src/calc.ts:129-143 | The target entry keeps its id and label and becomes percent mode with a finite value in [0, 1]. A value already in range is kept; above 1 it becomes 1; below 0 or non-finite it becomes 0. Price, quantity and the other six entries are unchanged |
| `Calc.SetExpenseAmount` | src/calc.ts:145-159 | The target entry keeps its id and label and becomes amount mode with a finite non-negative value. A non-negative value is kept; a negative or non-finite one becomes 0. Price, quantity and the other six entries are unchanged |
| `Calc.SetExpensePercentIdempotent` | src/calc.ts:129-143 | Setting the same share twice gives the same state as setting it once |
| `Calc.SetExpenseAmountIdempotent` | src/calc.ts:145-159 | Setting the same amount twice gives the same state as setting it once |
| `Calc.LastEditWins` | src/calc.ts:129-159 | Of two edits to one entry, only the last one matters: the mode and value of the earlier edit are forgotten |
| `Calc.SettersPreserveEntriesValid` | src/calc.ts:129-159 | Both setters keep the entry invariant for any input: each key holds its own id, a finite value, a share in [0, 1] or a non-negative amount |
| `Calc.SettersFixValidEntries` | src/calc.ts:129-159 | Putting an entry's own mode and value back through the matching setter returns the same state, provided that entry's value is finite and in its mode's range; the other entries may hold anything |
| `Calc.SetPercentRowRoundTrip` | src/calc.ts:129-143 | After setting a share, the entry's computed row reports exactly the clamped share, whatever its base |
| `Calc.SetAmountRowRoundTrip` | src/calc.ts:145-159 | After setting an amount, the entry's computed row deducts exactly the sanitised amount, whatever its base |
| `InitialState.GetInitialState` | src/utils/initialState.ts:3-50 | The default price is 120000 and the quantity 1. Every entry sits under its own key and holds a finite value: a share in [0, 1] in percent mode, a non-negative amount in amount mode |
| `InitialState.DefaultRevenue` | src/utils/initialState.ts:4-5 | The default snapshot gives a revenue of 120000 |
| `InitialState.DefaultLogistics` | src/utils/initialState.ts:31-36 | Logistics deducts 2000 and leaves 118000 |
| `InitialState.DefaultManagersAndMarketing` | src/utils/initialState.ts:7-18 | Managers deduct 11800 (10% of 118000) and leave 106200; marketing deducts 0 and leaves 106200 |
| `InitialState.DefaultRevenueBasedRows` | src/utils/initialState.ts:19-48 | Production deducts 64800, hardware 2000, installers 8400 and claims 2400, all taken from the full 120000 |
| `InitialState.DefaultWaterfall` | src/utils/initialState.ts:3-50 | The default expenses total 91400. The profit, which is also the remainder after claims, is 28600, and the profit share is 28600 / 120000 |
| `InitialState.DefaultIsSetterFixedPoint` | src/utils/initialState.ts:6-49 | Putting each default entry's own mode and value back through the matching setter leaves the default snapshot unchanged |
| `Calculations.ExpenseAmount` | src/utils/calculations.ts:11-37 | A percentage-based line deducts its percentage of the base (amount * 100 = base * percentage), bounded by the base for a percentage in [0, 100]; any other line deducts its stored amount |
| `Calculations.Percentage` | src/utils/calculations.ts:49-51 | A percentage of a non-positive whole is 0; otherwise percentage times whole equals 100 times the part |
| `Calculations.CalculateResults` | src/utils/calculations.ts:7-61 | Revenue = price * quantity, with no sanitising. Managers come from revenue; the remainder after managers is returned and is the base of marketing; the other four come from revenue. Each line is its percentage of its base or its stored amount, as its flag says. Total = sum of the six; profit = revenue - total |
| `Calculations.PercentagesAddUpToHundred` | src/utils/calculations.ts:48-51 | With positive revenue, the expense and profit percentages add up to 100; otherwise both are 0 |
| `Calculations.UpdateExpenseByPercentage` | src/utils/calculations.ts:63-74 | Keeps id and name, becomes percentage-based with the given percentage, and stores an amount equal to base * percentage / 100. That amount is what the engine deducts against the same base |
| `Calculations.UpdateExpenseByAmount` | src/utils/calculations.ts:76-87 | Keeps id and name, becomes amount-based with the given amount, which is then what the engine deducts against any base. The percentage is 0 for a non-positive base; otherwise base * percentage / 100 = amount |
| `Calculations.UpdatesRoundTrip` | src/utils/calculations.ts:63-87 | Against a positive base the two updates undo each other: they restore the percentage from its amount and the amount from its percentage |
| `Projects.Merge` | src/hooks/useProjects.ts:44 | Each field comes from the update if given, otherwise from the project; the update time is always the new timestamp |
| `Projects.Updated` | src/hooks/useProjects.ts:41-47 | Length and order are kept. Each position holds the merged project if its id matches and the unchanged project otherwise |
| `Projects.Without` | src/hooks/useProjects.ts:51 | A project stays exactly when it was in the list and its id differs from the deleted one |
| `Projects.FindIndex` | src/hooks/useProjects.ts:58 | Gives the first position whose id matches; gives none only when no position matches |
| `Projects.Find` | src/hooks/useProjects.ts:58 | Finds a project exactly when some project has the id. The project found has that id, is in the list, and no earlier project has the id |
| `Projects.UpdateUnknownIdIsIdentity` | src/hooks/useProjects.ts:40-48 | Updating an id that no project has leaves the list unchanged |
| `Projects.UpdateThenFind` | src/hooks/useProjects.ts:40-59 | After an update that does not rename, the lookup by that id finds the previously found project with the update merged in |
| `Projects.WithoutAppend` | src/hooks/useProjects.ts:50-51 | Deleting keeps the relative order of the remaining projects: filtering a concatenation is concatenating the filtered parts |
| `Projects.WithoutIdempotent` | src/hooks/useProjects.ts:50-51 | Deleting the same id twice is the same as deleting it once |
| `Projects.FindAfterAppend` | src/hooks/useProjects.ts:27-38 | Ids are not checked for uniqueness. After a project is appended, a lookup of its id finds an older project with that id if one exists, and the new project otherwise |
| `Projects.ProjectStore.constructor` | src/hooks/useProjects.ts:7-15 | Starts from the stored list and the stored active id; an empty stored id counts as none |
| `Projects.ProjectStore.SetActiveProjectId` | src/hooks/useProjects.ts:12 | Replaces the active id and leaves the list alone |
| `Projects.ProjectStore.CreateProject` | src/hooks/useProjects.ts:27-38 | Returns a project with the given id, name and state, whose creation and update times are the two clock readings given. The project is appended at the end, the earlier projects are unchanged, and the new id becomes active |
| `Projects.ProjectStore.UpdateProject` | src/hooks/useProjects.ts:40-48 | The list becomes `Updated` of the old list, and the active id is unchanged |
| `Projects.ProjectStore.DeleteProject` | src/hooks/useProjects.ts:50-55 | The list becomes `Without` of the old list. The active id becomes none exactly when it was the deleted id; otherwise it is untouched |
| `Projects.ProjectStore.GetActiveProject` | src/hooks/useProjects.ts:57-59 | Gives none when there is no active id. Otherwise it gives the first project with the active id, or none if no project has it |

## Left out

- Rendering, input handling and navigation (`src/App.tsx`, `src/AppWithProjects.tsx`, `src/pages/CalculatorPage.tsx`, `src/components/*.tsx`, `src/main.tsx`) are user interface, not calculation. This includes the per-handler recomputation in `src/components/Calculator.tsx`, which only calls the legacy update helpers.
- The display helpers `formatUAH`, `formatPct` and `parseNumber` depend on locale formatting and JavaScript's string-to-number parsing.
- The remote project store (`src/hooks/useProjectsWithSupabase.ts`, `src/lib/supabase.ts`) is an asynchronous network client. Its list updates after a successful call repeat those of `src/hooks/useProjects.ts`, which is modelled.
- Browser storage in `src/hooks/useProjects.ts`: the JSON read and write of the list and of the active id is not modelled. The constructor takes the values that were read back. The effect that writes the active id only when it is non-empty is not modelled either.
- `Date.now()` and `new Date().toISOString()` in `src/hooks/useProjects.ts` are parameters: the new id and the timestamp strings. The two clock readings of `createProject` are two separate parameters, since they can differ across a millisecond boundary.
- The `Project` declaration that `src/hooks/useProjects.ts` imports is not part of this model. Its five fields are taken from the object built at `src/hooks/useProjects.ts:28-34`.
- `read-excel.js` does file input and output through a spreadsheet library.
- IEEE-754 behaviour: numbers are exact reals. There is no rounding, overflow to infinity, or signed zero. The inputs of the current engine can be non-finite (`Number.NonFinite`), and `safeNumber` maps them to 0. Values computed after sanitising are always finite, so the model takes `safeNumber` on a computed base to be the identity.
- Calculations.CalculateResults: the legacy engine does no sanitising, so a NaN or infinite input would propagate; its numbers are finite reals only.
- The `label` field is a display string; the model carries it through unchanged and gives it no meaning.
