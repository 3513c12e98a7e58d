# FDI equilibrium calculator in Dafny

A model of the closed-form equilibrium calculator for vertical and horizontal
foreign direct investment (FDI), with proofs.

In the vertical model an upstream firm sells an input, ball bearings, at price
`pb` to a downstream firm. The downstream firm needs `k` bearings per machine
and faces the demand curve `P = a - b*Q`. The model covers four scenarios:

- the two firms are separate;
- one integrated firm owns both;
- bearings are sold at a transfer price computed from a target upstream profit;
- bearings are bought at the upstream cost.

In the horizontal model one firm sells in Ireland and in England. It either
exports from one plant or runs a plant in each country.

The older solver `run_model` is modelled too. In it a Slovenian bearing maker
supplies a Greek machine maker.

Every operation is a pure Dafny `function` over `real` that returns a small
result record, one record per returned dictionary. Arguments left out take
their values from the default tables, as the code's default arguments do. The
properties are lemmas about those functions. All arithmetic is exact.

Modules:

- `VerticalFDI` (`vertical_fdi.dfy`): `model.py` lines 11-120.
- `HorizontalFDI` (`horizontal_fdi.dfy`): `model.py` lines 123-222.
- `Simulation` (`simulation.dfy`): `Simulation/model.py`.

The default tables are the constants `VerticalFDI.DefaultParamsVfdi`
(`DEFAULT_PARAMS_VFDI`, model.py:11-18), `HorizontalFDI.DefaultParamsHfdi`
(`DEFAULT_PARAMS_HFDI`, model.py:123-132) and `Simulation.DefaultSimParams`
(the default arguments of `run_model`, Simulation/model.py:3-9). The defaults
lemmas (`VerticalDefaults`, `ExportOnlyDefaults`, `HorizontalFdiDefaults`,
`RunModelDefaults`) state the outcomes these tables give.

Quirks of the code that the model keeps:

- Nothing is clamped to zero. Under separation, integration and buy-at-cost,
  with `b > 0`, quantities are negative when `a - cd < k*cu`. Under transfer
  pricing the sign of the quantity also depends on the target profit.
  Downstream and upstream profits under separation are still `b*Q^2` and
  `2*b*Q^2`. Profits net of a fixed cost, or at a transfer price below cost,
  can be negative.
- The integrated scenario subtracts the default table's fixed cost of 1000,
  not an argument (model.py:68).
- The transfer price formula (model.py:91) does not give upstream the target
  profit that model.py:82-89 describes. A target of 0 does not reproduce
  buy-at-cost unless `k*cu = 0`; `TransferMatchesBuyAtCost` states exactly
  when it does.
- The two-plant scenario overwrites its `Y`, `Z`, `X` arguments with 70, 100
  and 20 (model.py:196-198).
- The export-only quantities solve a fixed linear system that is not the
  first-order condition of the profit the function reports (model.py:153-170).
  It is the first-order condition once the production cost is `(Q + Q*)^2`;
  see "## Findings".

## Model

| member | source | states |
|---|---|---|
| VerticalFDI.MarginIsSlopeTimesQuantity | model.py:37-43 | on the downstream best response, the margin `P - cd - k*pb` equals `b*Q`, whatever the input price |
| VerticalFDI.DownstreamBestResponse | model.py:36-43 | for `b > 0`, the quantity `(a - cd - k*pb)/(2b)` maximises downstream profit `(a - b*q - cd - k*pb)*q` over every `q` |
| VerticalFDI.SeparatedEquilibrium | model.py:21-53 | substituting the input price into the best response gives `Q = (a - cd - k*cu)/(4b)`; `P = a - b*Q` |
| VerticalFDI.SeparatedProfitSplit | model.py:43-52 | `pi_down = b*Q^2`, `pi_up = 2*pi_down` exactly, `pi_total = pi_down + pi_up` |
| VerticalFDI.UpstreamProfitGap | model.py:33-44 | at the price solving `2k*pb = a - cd + k*cu`, twice the slope times any other price's upstream shortfall is `k^2*(pb - p)^2` |
| VerticalFDI.SeparatedPriceMaximizesUpstream | model.py:33-44 | for `b > 0`, `k != 0`, `pi_up` is upstream profit at `pb` and no other input price earns upstream more, given downstream's best response |
| VerticalFDI.IntegratedEquilibrium | model.py:57-74 | profit is `b*Q^2` minus the global fixed cost 1000, never an argument |
| VerticalFDI.IntegratedDoublesSeparated | model.py:62-65 | integrated quantity is exactly twice the separated quantity (no double marginalisation), price on the same demand curve |
| VerticalFDI.IntegratedVersusSeparatedProfit | model.py:62-68 | `3*(pi + 1000) = 4*pi_total(separated)`; for `b > 0`, `pi + 1000 >= pi_total(separated)` |
| VerticalFDI.IntegratedQuantityMaximizes | model.py:61-68 | for `b > 0` the integrated quantity maximises joint profit (downstream profit with the input at cost, less 1000) |
| VerticalFDI.TransferPricingEquilibrium | model.py:78-101 | `pi_down = b*Q^2` and `pi_total = pi_down + pi_up - fixed_cost` |
| VerticalFDI.TransferMarkup | model.py:91 | the transfer price's markup is `pb - cu = (2b*T - k^2*cu^2)/(k*(a - cd + k*cu))` |
| VerticalFDI.TransferMatchesBuyAtCost | model.py:91-119 | `pb = cu` iff `2b*T = k^2*cu^2`, iff the whole transfer-pricing outcome equals the buy-at-cost outcome |
| VerticalFDI.TransferZeroTargetAtDefaults | model.py:82-91 | at the defaults a target of 0 gives `pb = 177/31`, negative upstream profit and a quantity other than buy-at-cost's |
| VerticalFDI.BuyAtCostEquilibrium | model.py:105-120 | downstream profit is `b*Q^2` |
| VerticalFDI.BuyAtCostIsIntegrated | model.py:107-119 | `pb = cu`, `pi_up = 0`, `Q` and `P` equal the integrated ones, `pi_total = pi_down - fixed_cost`, which is integrated profit exactly when `fixed_cost` is 1000 |
| VerticalFDI.VerticalDefaults | model.py:11-18 | with the default table: separated `pb = 62`, `Q = 28`, `P = 184`, profits 1568/3136/4704; integrated `Q = 56`, `P = 128`, `pi = 5272`; buy-at-cost likewise with `pi_total = 5272` |
| HorizontalFDI.Solve2x2 | model.py:152-158 | the pair returned satisfies both equations of a non-singular 2x2 system |
| HorizontalFDI.Solve2x2Unique | model.py:158 | any pair satisfying a non-singular 2x2 system is the one `Solve2x2` returns |
| HorizontalFDI.ExportOnly | model.py:135-178 | the quantities satisfy `4Q + 2Q* = a_ire` and `2Q + 4Q* = a_eng - t` |
| HorizontalFDI.ExportOnlyClosedForm | model.py:153-158 | `Q = (2a_ire - a_eng + t)/6`, `Q* = (2a_eng - 2t - a_ire)/6`, and no other pair solves the system |
| HorizontalFDI.ExportOnlyIgnoresSlopes | model.py:135-170 | the outcome is the same for any `b_ire`, `b_eng` |
| HorizontalFDI.ExportProfitIncrements | model.py:160-170 | the reported profit changes by `d*(a_ire - 2Q - Q*) - d^2` when `Q` moves by `d` and by `d*(a_eng - t - Q - 4Q*) - 2d^2` when `Q*` does, so its first-order conditions are `2Q + Q* = a_ire`, `Q + 4Q* = a_eng - t` |
| HorizontalFDI.ExportOnlyProfitNotMaximized | model.py:153-170 | prices lie on unit-slope demand curves and the reported profit is the profit expression at the solved pair, yet `a_ire/4` more units in Ireland raise it by `a_ire^2/16` |
| HorizontalFDI.ExportOnlyDefaults | model.py:123-170 | with the default table: `Q = 30`, `Q* = 80`, prices 250 and 320, profit 14700; the pair (31, 80) would report 14839 |
| HorizontalFDI.ExportOnlyCorrected | model.py:153-170 | with the production cost `(Q + Q*)^2` of the table comment at model.py:129, the same quantities still solve `4Q + 2Q* = a_ire`, `2Q + 4Q* = a_eng - t` and the profit is the squared-cost profit at them |
| HorizontalFDI.ExportOnlyCorrectedMaximizes | model.py:152-170 | with that cost, any other pair `(Q + dq, Q* + ds)` earns exactly `dq^2 + ds^2 + (dq + ds)^2` less, so the solved system is the profit's first-order condition |
| HorizontalFDI.ExportOnlyCorrectedDefaults | model.py:123-170 | with the default table the corrected profit is 11400, and the pair (31, 80) earns 11398 |
| HorizontalFDI.HorizontalFdi | model.py:182-222 | everything produced is sold (`Q_ireland + Q_england = Y + Z`); `profit = TR - TC` |
| HorizontalFDI.HorizontalFdiIgnoresPlan | model.py:195-198 | the outcome does not depend on the `Y`, `Z`, `X` arguments |
| HorizontalFDI.HorizontalFdiPlan | model.py:196-207 | `Q_ireland = 50`, `Q_england = 120`, `P_ireland = a_ire - 50`, `P_england = a_eng - 120`, `TC = 4900 + 10000 + 20*transport_cost + 2*fixed_cost` |
| HorizontalFDI.HorizontalFdiDefaults | model.py:123-209 | with the default table: `TR = 45100`, `TC = 31300`, profit 13800 |
| Simulation.GreekQuantity | Simulation/model.py:17-18 | the Greek quantity sets marginal revenue `a - 2*demand_slope*Q` equal to marginal cost `machine_cost + k*P_b` |
| Simulation.GreekQuantityBestResponse | Simulation/model.py:15-18 | for `demand_slope > 0`, no machine output earns the Greek firm more, at the given bearing price, than `greek_quantity` |
| Simulation.SlovenianProfit | Simulation/model.py:21-24 | the Slovenian profit is the vertical model's upstream profit with the Greek firm best-responding |
| Simulation.RunModel | Simulation/model.py:3-52 | bearings sold are `k` times machines; Greek profit is `demand_slope*Q^2` |
| Simulation.SolveAt | Simulation/model.py:30-43 | for any chosen bearing price: bearings are `k*Q`, Greek profit is `demand_slope*Q^2` |
| Simulation.RunModelBearingPrice | Simulation/model.py:28 | `P_b_star = (demand_intercept - machine_cost)/4`, the same for every bearing cost and bearings per machine |
| Simulation.SolveAtIsVerticalChain | Simulation/model.py:17-43 | at any bearing price the Greek quantity is the vertical model's downstream best response, the machine price lies on the demand curve, `pi_S` is the vertical model's upstream profit and `pi_G` its downstream profit at that quantity |
| Simulation.RunModelUpstreamAtMostSeparated | Simulation/model.py:28-38 | for `demand_slope > 0`, `k != 0`, the Slovenian profit `run_model` reports never exceeds the separated equilibrium's upstream profit |
| Simulation.RunModelDefaults | Simulation/model.py:3-43 | with the defaults: 59, 181, 29.5, 59, 3127, 1740.5 |
| Simulation.RunModelBearingPriceNotOptimal | Simulation/model.py:21-28 | at the defaults a bearing price of 62 earns the Slovenian firm 3136, more than the 3127 of the chosen price |
| Simulation.RunModelCorrected | Simulation/model.py:26-28 | the bearing price solves the Slovenian first-order condition `2k*P_b = a - cd + k*c` |
| Simulation.CorrectedBearingPriceMaximizes | Simulation/model.py:21-28 | for `demand_slope > 0`, `k != 0`, no bearing price earns the Slovenian firm more than the corrected one |
| Simulation.CorrectedAgreesWithSeparated | Simulation/model.py:28-43 | the corrected solver returns the vertical model's separated equilibrium: same price, quantities, upstream and downstream profits |

## Left out

- Division by zero: a zero divisor makes the Python code raise `ZeroDivisionError`. The model never handles that error. Each function instead requires its divisors to be non-zero: `b` and `k` for the separated scenario, and `k*(a - cd + k*cu)` for transfer pricing.
- Floating point: Python floats and their rounding are not modelled, and neither are the `float(...)` casts in `export_only`. All values are exact reals.
- Integer types: integer inputs and Python's true division are both modelled as reals. This includes `bearings_per_machine`, which is annotated `int`.
- `np.linalg.solve` is a call into numpy. It is replaced by Cramer's rule in `Solve2x2`, applied to the fixed matrix `[[4, 2], [2, 4]]`, whose determinant is 12.
- Argument types in `horizontal_FDI`: `Y`, `Z` and `X` accept any Python value and default to `None`. The model gives them type `Option<real>`. They are never read.
- The production-cost entries `c_ire` and `c_eng` of the horizontal table are `None` and never read. The model keeps them as `Option<real>`.
- `Simulation/app.py` is left out. It is a Streamlit dashboard of sliders, charts and text, and its clamped profit loop only prepares a plot. It imports `vertical_fdi_separated`, which `Simulation/model.py` does not define, and reads result keys that `run_model` does not return.
- Three documentation claims that the code does not satisfy are not stated:
  - `transfer_pricing_equilibrium` does not give upstream its target profit, as `TransferZeroTargetAtDefaults` shows.
  - The comment "P_b = 60.5" at `Simulation/model.py:27` does not match the formula on line 28.
  - The first-order conditions written at `model.py:149-150` do not match the matrix `export_only` solves.
- Clamping and parameter validation: neither model file clamps to zero or validates parameters, so neither does the model.

## Findings

| source | as written | input that shows it | evidently intended | confidence | as-written member | corrected member |
|---|---|---|---|---|---|---|
| Simulation/model.py:28 | `P_b_star = (demand_intercept - machine_cost) / 4` ignores the bearing cost and the bearings per machine | the defaults (240, 2, 6, 4, 2): `P_b_star = 59` earns the Slovenian firm 3127, while a bearing price of 62 earns 3136 | the price that maximises `slovenian_profit`, `(a - cd + k*c)/(2k)`, as the comment "Solve Slovenian FOC analytically" asks and as `model.py:34` computes; the comment's own value 60.5 (line 27) is neither 59 nor 62 but the optimum of `(2*P_b - c_u)*Q`, the profit plotted at Simulation/app.py:42 | not executed; high | Simulation.RunModelBearingPriceNotOptimal | Simulation.CorrectedBearingPriceMaximizes |
| model.py:168 | `TC = (Q + Q_star) * Q_star + t * Q_star + F` charges production cost `(Q + Q*)*Q*` | any input with `a_ire != 0`, e.g. the defaults (280, 400, 1, 1, 8000, 20): the solved pair (30, 80) reports 14700, while (31, 80) would report 14839 | the single plant's production cost `(Q + Q*)^2`, as the table comment "(Y**2)" at model.py:129 and `Y**2 + Z**2` at model.py:207 describe; with it the matrix `[[4, 2], [2, 4]]` solved at model.py:153-158 is exactly the first-order condition and the solved pair maximises profit | not executed; high | HorizontalFDI.ExportOnlyProfitNotMaximized | HorizontalFDI.ExportOnlyCorrectedMaximizes |
