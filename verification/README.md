# Options strategy versus CDI: a Dafny model of the simulator core

The program compares two ways of using an initial capital over a date window.
The first is an options strategy on a stock: one or two option legs, each a
Call or a Put, held long or written short, opened on back-to-back holding
periods of `dias` price rows. The second leaves the same capital in the
Brazilian risk-free benchmark, the daily CDI rate, compounded over the window.
Each holding period ("window") is settled at its exit price. The settlement
charges exchange fees and a 15% income tax on gains. Losses are carried
forward and offset later gains before those gains are taxed. The simulator
logs every trade with the running balance.

The model covers the two functions that do this work in `app.py`:

- `calcular_leg`, the settlement of one leg;
- `simular_comparativo`, the benchmark compounding, the window loop, the tax
  ledger and the trade log.

Modules, one file each:

- `Common` (`common.dfy`): `Option`, `Max`, `Abs`, `Sum` and the inclusive
  date test `InRange`.
- `Leg` (`leg.dfy`): strike, premium, payoff, exercise, fees and the leg result.
- `Tax` (`tax.dfy`): one step of the loss-carrying tax (`TaxStep`) and the
  ledger over a run (`Ledger`).
- `Benchmark` (`benchmark.dfy`): the CDI factors inside the window and their
  product.
- `Windows` (`windows.dfy`): the first row inside the window and the entry
  indices the loop visits.
- `Simulator` (`simulator.dfy`):
  - the functional specification: `Walk` lists the windows, `Book` runs the
    ledger over them, and `Simulate` puts everything together;
  - the loop form of the source: `SumLegs`, `Trade`, `TradeLoop` and
    `SimulateLoop`, proved equal to the specification.

Representation choices:

- Dates are day ordinals (`int`). The price table is a sequence of
  `Row(day, price)`, and the CDI table a sequence of `(day, factor)` pairs.
- Money and prices are `real`, so floating-point rounding is not modelled.
- The lot size is a `nat`.
- The source's string fields become datatypes:
  - `tipo` ('Call'/'Put') is `OptionKind`;
  - `posicao` ('Comprado'/'Vendido') is `Side`.
- The result pair `(None, "Intervalo inválido")` becomes
  `SimResult.InvalidRange`, with exactly that message.

## Model

| member | source | states |
|---|---|---|
| Leg.PayoffPerUnit | app.py:87-95 | The payoff per unit is never negative and never below the intrinsic value. It is positive exactly when the leg is exercised (a Call above its strike, a Put below it). When exercised it equals the intrinsic value (exit minus strike for a Call, strike minus exit for a Put); otherwise it is zero. |
| Leg.EvaluateLeg | app.py:82-106 | The fees are 0.5% of the premium cash, plus 0.5% of strike times lot exactly when the leg is exercised. A holder never loses more than premium plus fees; a writer never gains more than premium minus fees. The exact net of each case is given by `Leg.InTheMoney` and `Leg.OutOfTheMoney`. |
| Leg.PutCallParity | app.py:90-95 | At the same strike, a Call's payoff minus a Put's is the exit price minus the strike, and the two are never both exercised. |
| Leg.InTheMoney | app.py:90-104 | An exercised leg pays both fees. The holder nets the intrinsic value of the lot minus premium and fees (for a long Call, (exit - strike) times the lot minus premium, entry fee and exercise fee); the writer nets the premium minus the intrinsic value and fees. |
| Leg.OutOfTheMoney | app.py:97-104 | A leg that is not exercised pays only the entry fee. The holder loses premium plus that fee; the writer keeps the premium less that fee. |
| Leg.Costs | app.py:99-102 | `custos`: the entry fee on the premium plus the exercise fee when exercised; `EvaluateLeg` states it exactly and `ExerciseFeeIffInTheMoney`/`CostsNonNegative` its properties. |
| Leg.CostsNonNegative | app.py:99-102 | With a non-negative entry price and premium, and an offset of at least -100%, the fees of a leg are never negative. |
| Leg.ExerciseFeeIffInTheMoney | app.py:88-95 | With a positive notional at strike, the fees exceed the entry fee if and only if the leg finishes in the money. |
| Leg.LongShortMirror | app.py:104 | Holder and writer of the same option pay the same fees. Their results add up to minus twice the fees: premium and payoff cancel. |
| Leg.WorkedLongCall | app.py:82-106 | Entry 100, exit 110, lot 1000, an at-the-money long Call with a 3% premium: fees 515 and a result of 6485. |
| Leg.WorkedFallingMarket | app.py:82-106 | Entry 100, exit 90, lot 1000, 3% premium at the money: a long Put nets 6485 and a short Put -7515 (fees 515 each); a short Call nets 2985 (fee 15). |
| Tax.TaxStep | app.py:151-158 | For any carry, the tax is 15% of the gross result plus the change in the carry. A non-positive result is untaxed. From a non-negative carry, the new carry is non-negative and the tax lies between 0 and 15% of the gain. |
| Tax.TaxStepClosedForm | app.py:152-158 | From a non-negative carry, the tax is 15% of max(0, gross - carry) and the new carry is max(0, carry - gross). |
| Tax.NetOfTax | app.py:160 | The after-tax result is never above the gross result. It equals the gross result when that is not a gain, and keeps at least 85% of a gain. |
| Tax.WorkedLossThenGain | app.py:151-158 | A loss of 1000 then a gain of 1500: tax 0 and carry 1000, then tax 75 and carry 0. |
| Tax.Ledger | app.py:123-158 | `prej_acumulado` threaded through the trades, with the total tax; its conservation law is `LedgerConservation` and its tax bounds `LedgerTaxBounds`. |
| Tax.LedgerConservation | app.py:123-158 | Over any run from a non-negative carry, the carry stays non-negative. The total tax is 15% of the total gross result plus the growth of the carry. |
| Tax.LedgerTaxBounds | app.py:123-158 | Over any run from a non-negative carry, the total tax is between 0 and 15% of the sum of the gains. |
| Benchmark.WindowFactors | app.py:116 | The window keeps at most the table's rows. It is empty exactly when no CDI date lies inside `[inicio, fim]`. |
| Benchmark.WindowFactorsMembers | app.py:116-117 | Every factor dated inside the inclusive window is kept, and every kept factor comes from a row dated inside it. |
| Benchmark.AccruedFactor | app.py:113-117 | `fator_acumulado_cdi`, 1 for an empty table and otherwise the product of the window's factors; `AccruedFactorIsWindowProduct` shows the two branches agree, and `AccruedFactorSplit`/`AccruedFactorSnoc` state how it compounds. |
| Benchmark.BenchmarkBalance | app.py:113-119 | With no CDI date in the window, the benchmark balance is the capital. Positive factors keep a positive capital positive. Factors of at least 1 never shrink it. |
| Benchmark.AccruedFactorIsWindowProduct | app.py:113-117 | The empty-table branch agrees with the product over the (empty) window. |
| Benchmark.ProductPositive | app.py:117 | A product of positive factors is positive. |
| Benchmark.ProductAtLeastOne | app.py:117 | A product of factors of at least 1 is at least 1. |
| Benchmark.ProductAppend | app.py:117 | The product of two tables placed end to end is the product of their products. |
| Benchmark.WindowFactorsAppend | app.py:116 | Filtering a concatenated table is concatenating the filtered tables. |
| Benchmark.AccruedFactorSplit | app.py:116-117 | The compounded factor of a table split anywhere is the product of the two parts' factors. |
| Benchmark.WindowFactorsSnoc | app.py:116 | Appending one CDI row appends its factor to the window exactly when its date is inside it, so every matching day counts once, repeated rates included. |
| Benchmark.AccruedFactorSnoc | app.py:116-117 | Appending one CDI row multiplies the compounded factor by that day's factor when its date is inside the window, and leaves it unchanged otherwise. |
| Benchmark.WorkedCompounding | app.py:116-117 | Both window ends are included and factors compound: 1.001 and 1.002 give 1.003002, and a day outside the window is ignored. |
| Windows.FirstInRangeFrom | app.py:126 | Returns the first index from `from` whose date is inside the window, or nothing exactly when no such row exists. |
| Windows.FirstInRange | app.py:126-128 | `indices[0]`: the first row dated inside `[inicio, fim]`. It is absent exactly when no row is dated inside, which is the invalid-interval case. |
| Windows.Entries | app.py:130-134 | The entry indices the `while` loop visits; their closed form is stated in `EntriesShape` and their number in `EntriesCount`. |
| Windows.EntriesShape | app.py:130-134 | The loop visits `curr, curr + dias, curr + 2*dias, ...`. Each visited index passes both loop guards, and the first index after them fails one. |
| Windows.ExitsInTable | app.py:131-140 | Every exit index `curr + dias` is a row of the table. |
| Windows.EntriesInsideWindow | app.py:126-134 | On a table sorted by date, every entry row the loop visits is dated inside `[inicio, fim]`. |
| Windows.EntriesCount | app.py:130-133 | When no row is dated after `fim`, the loop makes ceil((N - dias - i0) / dias) trades for N rows from start index i0 < N - dias, and none otherwise. |
| Simulator.LegsResult | app.py:146-148 | The inner `for leg` sum of the leg results, in leg order; `SumLegs` proves the loop computes it and `MirroredPairLosesTheFees` evaluates a mirrored pair. |
| Simulator.MirroredPairLosesTheFees | app.py:146-148 | A leg paired with its mirror image (same option, other side) sums to minus twice its fees. |
| Simulator.Walk | app.py:133-140 | The windows of the `while` loop, one per entry index; `WalkFollowsEntries` lines them up with `Entries` and `TradeLoop` proves the loop visits exactly them. |
| Simulator.WalkFollowsEntries | app.py:133-140 | There is one window per visited entry index. Each exits `dias` rows later, inside the table, and carries the summed result of the legs. |
| Simulator.Book | app.py:151-170 | One trade is logged per window, and the carried loss never becomes negative. |
| Simulator.BookFinalBalance | app.py:164-176 | The final balance is the last logged balance, or the starting capital when nothing is logged. |
| Simulator.BookExitDays | app.py:137-170 | Each logged trade carries the exit date of its window. |
| Simulator.BookBalances | app.py:164-170 | Every logged balance, and the final balance, is the starting capital plus the after-tax results logged so far. |
| Simulator.BookIsLedger | app.py:151-164 | The loop ends with the tax ledger's carry. Its balance grows by the total gross result minus the ledger's total tax. |
| Simulator.BookAfterTax | app.py:151-164 | The final balance is the start plus 85% of the gross total, minus 15% of the growth of the carry. It lies between the total with every gain fully taxed and the untaxed total. |
| Simulator.BookNetsVersusGross | app.py:151-160 | Each logged after-tax result is at most the gross result of its window, equals it when the window did not gain, and is at least 85% of it when the window gained. |
| Simulator.BookFollowsLedger | app.py:123-166 | Trade by trade, each logged after-tax result is the window's gross result taxed against the loss the ledger carries after the earlier trades; from no carry, that carry is never negative. |
| Simulator.Simulate | app.py:108-179 | The interval is invalid, with message "Intervalo inválido", exactly when no price row is dated inside it. Otherwise the benchmark balance is the compounded capital, and the options balance is the last logged balance (the capital when nothing traded). |
| Simulator.SimulateBalances | app.py:164-176 | In a valid run, every logged balance and the final options balance are the capital plus the after-tax results so far. |
| Simulator.WalkTrades | app.py:126-140 | From an entry dated on or after `inicio`, there is one logged trade per visited entry. Each trade carries its exit row's date; exit rows lie in the table, and on a sorted table the entries lie inside the window. |
| Simulator.SimulateWindows | app.py:126-140 | A valid run starts at the first row dated inside the interval, and its trades are exactly the windows of the walk from there. |
| Simulator.SimulateAfterTax | app.py:151-176 | The final options balance is the capital plus 85% of the gross total, minus 15% of the losses still carried. It lies between the fully taxed total and the untaxed total. |
| Simulator.SimulateNetsVersusGross | app.py:151-170 | In a valid run, each logged result is at most its window's gross result, equal to it for a window that did not gain, and at least 85% of it for a window that gained. |
| Simulator.SimulateFollowsLedger | app.py:123-170 | In a valid run, each trade logs its window's gross result taxed against the loss carried after the earlier trades, and that carry is never negative. |
| Simulator.SumLegs | app.py:142-149 | The inner loop over the legs computes the window's gross result, the leg results added up in order. |
| Simulator.Trade | app.py:136-170 | One turn of the loop logs exactly the first trade of the ledger run over the walk. It leaves the state from which the rest of the run continues. |
| Simulator.TradeLoop | app.py:130-173 | The `while` loop logs exactly the trades of the ledger run over the walk, and ends on that run's balance. |
| Simulator.SimulateLoop | app.py:108-179 | The function written as loops returns exactly what `Simulate` specifies. |

## Left out

- The Streamlit interface (app.py:181 onwards): input widgets, charts and number formatting are not modelled.
- `pegar_cdi_bcb` (app.py:47-60) is not modelled because it downloads over the network. The model takes its output, a table of daily factors `1 + rate/100`, as a parameter; an empty table stands for a failed download.
- `baixar_dados` (app.py:62-80) is not modelled because it downloads over the network. The model takes the price table as a parameter, already reduced to one closing price per row.
- The choice between the 'Close' and 'Adj Close' columns (app.py:125) is left out, because it only picks which price column becomes the table.
- Floating point is not modelled: prices and money are exact reals, so no rounding is modelled.
- Simulator.Simulate: requires `dias > 0`, because a zero holding period makes the source loop forever. The interface only offers 5 to 60 days (app.py:191).
- `custos_trade` (app.py:143, 149) is summed but never reported or used, so the model does not compute it.
- The `try/except: pass` around the loop body (app.py:135, 172) has no modelled failure path. The loop guard already keeps `curr + dias` inside the table, and the leg arithmetic cannot raise.
- Windows.EntriesCount: its count formula assumes no row is dated after `fim`. `baixar_dados` asks for prices up to 200 days past `fim` (app.py:65), so rows after `fim` exist only when `fim` is earlier than the last trading day in the download. With the default `fim`, today (app.py:212), the table ends by `fim` and the count formula applies. Otherwise the loop stops at the first entry dated after `fim` (app.py:134), which `Windows.EntriesShape` states in general.
- Windows.EntriesInsideWindow, Simulator.WalkTrades, Simulator.SimulateWindows: the entry dates are only shown to lie in the window for a table sorted by date. The source assumes a date-indexed download, which is sorted.
- The loop guard `curr < len(data) - dias` (app.py:133) is strict: a window opens only when its exit row `curr + dias` is a row of the table, so a start index with `i0 + dias == N` yields no window (see `Windows.EntriesCount`).
- The benchmark is compounded once, over the whole `[inicio, fim]` window (app.py:113-119), and is not tied to individual trades; the model does the same.
