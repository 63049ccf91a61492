# Freight tariff calculator — Dafny model

A model of the tariff calculator in `tarifas.py`: a console program that
collects toll fees and trip parameters, validating each number in a
retry-until-valid loop, and prices the trip with a fixed formula
(distance × rate, plus the operational margin, plus tolls, minus discounts,
never below zero).

Files and modules:

- `wrappers.dfy` — `Wrappers`: the `Option` type.
- `input.dfy` — `Input`: console lines and the retry loop. Every `input()`
  call consumes one `Line`. A line carries its `.strip()` text and what
  Python's `int()` and `float()` make of it (`None` where they raise
  `ValueError`). `Scan` defines what a retry loop returns. `ReadValidated`
  is that loop as a `while` loop, proved equal to `Scan`. The field rules
  are `NonNegativeCount` (toll quantity), `NonNegative` (toll price, margin,
  discounts) and `Positive` (distance, rate per km).
- `tolls.dfy` — `Tolls`: `tolls_function`. The `tolls` dict is a
  `TollTable`: a `map` from name to price, plus the dict's insertion order
  (`order`), which Python keeps when a key is overwritten. `Insert` is
  `tolls[name] = price`. `Build` stores a sequence of entries one after the
  other. `Total` is `sum(tolls.values())`. `NextToll` is one toll read as a
  function of the input lines, and `ReadToll` is the method that reads it.
  `TollsOutcome` is the whole read as a function of the input lines.
  `CollectTolls` is the imperative version with its `for` loop, proved equal
  to `TollsOutcome`.
- `tariff.dfy` — `Tariff`: `get_tariff_data` (`GetTariffData`, specified by
  `TariffDataOutcome`) and `calculate_tariff` (`CalculateTariff`, with
  `AfterDiscounts` for `max(0, …)`), plus lemmas on the formula.

When the input runs out at a prompt, Python raises `EOFError` and the
program stops. The model returns `None` at that point, with the read
position at the end of the input. Each retry loop therefore terminates, and
its measure is the number of lines left.

Amounts are Dafny `real`s (exact rationals), not IEEE doubles.

## Model

| member | source | states |
|---|---|---|
| `Input.Scan` | tarifas.py:25-101 | A retry loop returns a value only if that value parsed from the line just read and passes the field's rule. It returns nothing only when the input is exhausted. |
| `Input.ScanSkipsOnlyRejected` | tarifas.py:25-101 | Every line read before the returned one either failed to parse or failed the rule. When nothing is returned, every remaining line was rejected. |
| `Input.ScanReturnsFirstAccepted` | tarifas.py:25-101 | Conversely, the first line that parses and passes the rule is the one returned, and reading stops just after it. |
| `Input.ReadValidated` | tarifas.py:25-101 | The `while True` loop returns only accepted values, and its value and next position are exactly those of `Scan`. |
| `Input.RetryExample` | tarifas.py:38-47 | With the lines "abc", "-5", "12" and the rule ">= 0", the first two are rejected and 12 is returned after three reads. |
| `Tolls.Insert` | tarifas.py:44 | Storing a price keeps the dict well formed: the order has no repeats and lists exactly the keys. |
| `Tolls.InsertOverwrites` | tarifas.py:44 | The stored name maps to the new price and no other name changes. A name already present keeps its position and the key count does not change. A new name goes last and adds one key. |
| `Tolls.InsertTotal` | tarifas.py:44-49 | Overwriting never double-counts: the total drops the name's old price, if there was one, and adds the new price. |
| `Tolls.EmptyTotal` | tarifas.py:21 | The empty dict `{}` is well formed and totals 0. |
| `Tolls.Total` | tarifas.py:49 | The sum of the dict's values, taken in its iteration order. It is 0 for the empty dict and non-negative when every price is. |
| `Tolls.Build` | tarifas.py:36-45 | The dict built from the entries is well formed. |
| `Tolls.BuildKeys` | tarifas.py:36-45 | The dict's keys are exactly the distinct names entered, so there are never more keys than entries. |
| `Tolls.BuildLastWins` | tarifas.py:36-45 | A name holds the price of its last entry: last write wins. |
| `Tolls.BuildPricesNonNegative` | tarifas.py:41-44 | If every entered price is non-negative, every stored price is too. |
| `Tolls.TotalAtMostEntered` | tarifas.py:49 | With non-negative prices, the total never exceeds the sum of all prices entered, since overwritten prices are not counted. |
| `Tolls.TotalOfDistinctNames` | tarifas.py:49 | When no name repeats, the total is exactly the sum of all prices entered. |
| `Tolls.NextToll` | tarifas.py:37-47 | Reading one toll yields a price >= 0 and moves past the name line. |
| `Tolls.ReadToll` | tarifas.py:37-47 | One pass of the `for` loop: the name line, then the price retry loop. It returns a price >= 0, agrees with `NextToll`, and fails only at the end of the input. |
| `Tolls.TollEntries` | tarifas.py:36-47 | Reading `count` tolls yields exactly `count` entries, all with prices >= 0. |
| `Tolls.TollsOutcome` | tarifas.py:19-50 | What `tolls_function` returns on the given lines. It fails only when the input runs out, and then at its end. A success is a well-formed dict with non-negative prices, whose total is the sum of the dict's values and is non-negative. |
| `Tolls.TollsOutcomeKeyCount` | tarifas.py:21-44 | The dict has at most `quantity_tolls` keys. With a quantity of 0, the dict is empty and the total is 0. |
| `Tolls.RepeatedNameScenario` | tarifas.py:44 | "Bridge" entered at 5 and then at 7 leaves one key holding 7, and a total of 7. |
| `Tolls.CollectTolls` | tarifas.py:19-50 | `tolls_function` as a loop. Its result equals `TollsOutcome`: the validated quantity, then that many entries stored with overwrite. The dict is well formed, its prices are >= 0, and the total is their sum and is >= 0. |
| `Tariff.GetTariffData` | tarifas.py:52-103 | The four text fields are the stripped lines as typed. The returned data always has distance > 0, rate > 0, margin >= 0 and discounts >= 0. The result equals `TariffDataOutcome`. |
| `Tariff.TariffDataOutcome` | tarifas.py:52-103 | What `get_tariff_data` returns on the given lines. On success, client, origin, destination and cargo type are the next four lines stripped, the numbers pass their rules, and at least the four text lines are consumed. It fails only when the input runs out, and then at its end. |
| `Tariff.AfterDiscounts` | tarifas.py:118-121 | `max(0, cost_with_tolls - discounts)`: never negative, never below the difference, and equal to either 0 or the difference. |
| `Tariff.CalculateTariff` | tarifas.py:105-141 | The final cost is never negative. It is exactly cost_with_tolls − discounts when the discounts do not exceed cost_with_tolls, and 0 otherwise. The margin percent is margin × 100. Client, route, cargo, distance, rate, tolls, toll total and discounts pass through unchanged. |
| `Tariff.CostsGrowAlongPipeline` | tarifas.py:109-121 | Under accepted inputs and a non-negative toll total: base = distance × rate > 0, base <= with margin <= with tolls, and final <= with tolls. |
| `Tariff.AfterDiscountsMonotone` | tarifas.py:118-121 | Clamping at zero preserves order. |
| `Tariff.PricingMonotone` | tarifas.py:113-121 | Margin markup, tolls and discounts keep order: a larger base cost never gives a smaller final cost. |
| `Tariff.FinalCostGrowsWithDistance` | tarifas.py:109-121 | Under accepted inputs, a longer trip never costs less. |
| `Tariff.FinalCostGrowsWithTolls` | tarifas.py:115-121 | A higher toll total never lowers the final cost. |
| `Tariff.FinalCostShrinksWithDiscounts` | tarifas.py:118-121 | Larger discounts never raise the final cost. |
| `Tariff.BridgeScenario` | tarifas.py:105-141 | One toll "Bridge" at 5, distance 100, rate 2, margin 0.10, discounts 3 gives base 200, with margin 220, with tolls 225, final 222 and margin percent 10. |
| `Tariff.ZeroTollScenario` | tarifas.py:105-141 | No tolls, distance 50, rate 1.5, no margin and no discounts gives 75 at every stage. |
| `Tariff.DiscountExceedsCostScenario` | tarifas.py:118-121 | Discounts of 100 on a trip worth 10 clamp the final cost to 0. |

## Left out

- Tolls.Total: the exact sum of the dict's values; the `round(..., 2)` applied to it at tarifas.py:49 is not modelled (see `Tolls.CollectTolls` below).
- Tolls.TollsOutcome: `totalTolls` is the exact sum, without the `round(..., 2)` of tarifas.py:49, for the same reason.
- Tolls.CollectTolls: `totalTolls` is the exact sum. The `round(..., 2)` at tarifas.py:49 is not modelled, because rounding a decimal float is not an operation on exact reals.
- Tariff.CalculateTariff: `baseCost`, `costWithMargin`, `costWithTolls` and `finalCost` hold exact values, not the `round(x, 2)` copies stored at tarifas.py:131-138. The formula itself uses the unrounded values, as the source does.
- IEEE-754 behaviour: `float()` also accepts "nan" and "inf". A NaN passes every `< 0` / `<= 0` check in the source. A line's `asReal` here is an exact real or nothing, so those values are not modelled.
- Python's `.strip()`, `int()` and `float()` are taken as given per line (the `Line` fields), not modelled as string parsing.
- Console messages (`print` of prompts and rejection texts) are not modelled. The model records only which lines are consumed.
- `display_results` (tarifas.py:143-167) is not part of this model. It writes the report file with `:.2f`/`:.1f` formatting. The listing order it uses is the dict's insertion order, which `TollTable.order` keeps.
- `main` (tarifas.py:169-184) is not modelled as a member. It calls `tolls_function`, `get_tariff_data`, `calculate_tariff` and `display_results` in that order and returns the results dict. The first three are modelled; `display_results` is left out, as above.
- `calculate_tariff` takes ten positional arguments. `CalculateTariff` takes the toll dict, the toll total and the eight `get_tariff_data` values grouped as one `TariffData` record.
