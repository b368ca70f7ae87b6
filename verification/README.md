# BSC coin statistics: the per-token metric accumulator

This project is a Dafny model of the `Token` class in `main.py`. For one BSC token, that class gathers a daily statistics snapshot:
- the block heights for now and 24 hours ago;
- the BNB price and the token's decimals;
- the circulating supply (total supply minus the burn address's balance, scaled by the decimals);
- the holder count and yesterday's holder count;
- a list of scaled holder balances, with the burn and LP addresses left out;
- the transaction count, the marketing-wallet USD value and the distributed rewards;
- an LP-derived market cap.

`holders_analysis` derives two concentration figures from that state: the number of holders owning at least 1% of supply, and the percentage held by the first ten list entries. `to_file` writes a record of the snapshot.

`synchronize_data` runs the steps in a fixed order. Each step sits in its own `try/except`. A failing step keeps whatever fields it had already written, and the later steps still run on the state that exists.

The project has four modules:

- `Wrappers` (`wrappers.dfy`): `Option` for a provider answer, and `Result`/`Fault` for the `ZeroDivisionError`/`IndexError` the code can raise.
- `Metrics` (`metrics.dfy`): the exact formulas.
  - `Scale` divides a raw balance by `10^decimal`.
  - `CirculatingSupply` is the truncating supply formula.
  - `Collect` is the holder-list scan. It keeps response order and stops at the first item without a holder or with an unparsable kept balance. `Kept` and `Scaled` are its reference definition: filter the items, then scale each balance.
  - `WholeHolderCount` and `TopTenShare` are the concentration figures, and `Analyse` combines them.
  - `MarketCap` reads the balances positionally.
- `Snapshot` (`snapshot.dfy`):
  - `TokenState` holds every field of a `Token`, and `Initial` is the state after construction.
  - `Provider` holds the extracted provider answers. `None` is a failed call or a missing path. The total supply is an `Answer`, because the code converts it only on the supply line: it may arrive and still fail to convert. The block lookup and the two holder queries are functions of their arguments: they are called with whatever block heights the state holds, which is 0 when those are unresolved.
  - Each method has a step function, for example `SupplyStep` and `HoldersStep`. Each returns the new state and whether the method returned without raising.
  - `Synchronize` is the pipeline and `ReportOf` is the record.
- `TokenClass` (`token.dfy`): the class `Token`, with the same fields as the Python object.
  - Each method overwrites fields in the same order as the source. The holder list is appended to inside a `while` loop.
  - Each method is proved to move `State()` exactly as its step function does.
  - `RunToken` is the script's per-token body: construct, synchronise, analyse.

Python floats are modelled as exact reals, and Python's `int()` on a float as truncation toward zero (`TruncReal`).

Some of the code's behaviour is easy to misread:
- The LP balances are read by position: `[0]` is the token side and `[1]` the WBNB side. There is no magnitude comparison. `MarketCapIsPositional` shows that swapping the two gives a different market cap.
- The holders step is not all-or-nothing:
  - `yesterday_holders` and `holders` are written before later reads can fail.
  - An item without a holder, or a kept item's unparsable balance, in the middle of the items keeps the balances appended before it (`HoldersStepBadItem`).
- A total supply that arrives but does not convert raises only on the supply line, after the decimals were overwritten (`SupplyStepUnconvertibleTotal`).
- No step checks whether an upstream field was resolved. Market cap is computed from a circulating supply of 0 when the supply step failed (`BurnFailureReportsZeros`). The holder queries use block 0 when the blocks are unresolved.
- The 1% test is `>=`, so a balance of exactly 1% counts. For balances `[2, 1, 0.5]` with a supply of 100, the count is 2 (`WholeHolderCountExample`).
- The top-ten share uses the first ten entries by position, not the ten largest (`TopTenShareIsPositional`).
- The concentration figures are never written to the record.

## Model

| member | source | states |
|---|---|---|
| `Metrics.Pow10` | main.py:97 | the divisor `10 ** decimal` is at least 1, so scaling never divides by zero |
| `Metrics.Scale` | main.py:97 | the scaled balance times `10^decimal` is the raw balance, and a non-negative raw balance scales to a non-negative one |
| `Metrics.ScaleMonotone` | main.py:97 | scaling a raw balance by `10^decimal` preserves order |
| `Metrics.TruncReal` | main.py:152 | `int()` on a float truncates toward zero: `0 <= r <= x < r+1` for non-negative x, `r-1 < x <= r <= 0` for negative x |
| `Metrics.TruncRealMonotone` | main.py:120-124 | truncation toward zero is monotone, so `int(now - 86400) <= int(now)` |
| `Metrics.CirculatingSupply` | main.py:152 | the supply is the quotient of `total - burn` by `10^decimal`, truncated toward zero (pinned by integer bounds on both signs), and is 0 when total equals burn |
| `Metrics.CirculatingSupplyMonotone` | main.py:152 | a larger raw total never gives a smaller circulating supply |
| `Metrics.Excluded` | main.py:96 | only an item that names a holder can be dropped as the burn or LP address |
| `Metrics.Collect` | main.py:95-97 | the scan completes exactly when every item is readable (it has a holder, and a kept item's balance parses); it appends at most one value per item |
| `Metrics.CollectAppend` | main.py:95-97 | scanning a concatenation is scanning the first part, then (if it did not raise) the second: order is kept, values are appended |
| `Metrics.CollectSkipsExcluded` | main.py:96 | an item held by the burn or LP address contributes nothing, wherever it stands |
| `Metrics.Kept` | main.py:96 | the kept items are exactly the items not held by the burn or LP address, and no more than the response holds |
| `Metrics.Scaled` | main.py:97 | one value per item, and each value times `10^decimal` is that item's raw `next_balance` |
| `Metrics.CollectKeeps` | main.py:95-97 | when every item is readable, the scan completes and appends exactly `Scaled(Kept(items))`: one scaled `next_balance` per kept item, in response order |
| `Metrics.CollectStopsAtFirstBadItem` | main.py:95-97 | a scan that raises stopped at an item without a holder or a kept item whose balance does not parse, keeping exactly the balances appended before it |
| `Metrics.CollectNoneExcluded` | main.py:95-97 | with no burn/LP item, the list is every item's scaled balance, position by position |
| `Metrics.CollectAllExcluded` | main.py:96 | a response of only burn and LP items appends nothing |
| `Metrics.SumAppend` | main.py:158 | the sum of a concatenation is the sum of the sums |
| `Metrics.SumNonNegative` | main.py:158 | a sum of non-negative balances is non-negative |
| `Metrics.SumOfZeros` | main.py:158 | a sum of zeros is 0 |
| `Metrics.CountAtLeast` | main.py:156-157 | the length of the filtered list never exceeds the list's length |
| `Metrics.CountAtLeastIsIndexCount` | main.py:156-157 | the count equals the number of positions whose entry is `>=` the threshold |
| `Metrics.WholeHolderCount` | main.py:156-157 | the number of entries `>= circulating_supply / 100` is at most the list length |
| `Metrics.WholeHolderCountExample` | main.py:156-157 | for `[2, 1, 0.5]` and supply 100 the count is 2 (the test is `>=`) |
| `Metrics.TopTenShare` | main.py:158 | the share fails with a division error exactly when the circulating supply is 0 |
| `Metrics.TopTenShareShortList` | main.py:158 | a list of at most ten entries is summed whole (no index beyond the list) |
| `Metrics.TopTenShareIgnoresTail` | main.py:158 | entries after the tenth never change the share |
| `Metrics.TopTenShareNonNegative` | main.py:158 | non-negative balances and a positive supply give a defined, non-negative share |
| `Metrics.TopTenShareFullSupply` | main.py:158 | ten entries summing to a supply of 100 give exactly 100 |
| `Metrics.TopTenShareIsPositional` | main.py:158 | an eleventh entry holding half the supply is not counted |
| `Metrics.Analyse` | main.py:155-158 | the analysis succeeds exactly when the supply is non-zero, and its count is at most the list length |
| `Metrics.MarketCap` | main.py:67-69 | the cap is defined exactly when two balances exist and the token side is non-zero; then `cap * balances[0] == supply * balances[1] * bnb_price`; a short list is an index error and a zero token side a division error |
| `Metrics.MarketCapZeroSupply` | main.py:69 | with the supply still 0, any computed cap is 0 |
| `Metrics.MarketCapIsPositional` | main.py:67-69 | balances (100, 5) and (5, 100) give different caps: no tie-break by magnitude |
| `Snapshot.Initial` | main.py:36-55 | a fresh token keeps its addresses and capture time; its record is all zeros, and its analysis fails with a division error |
| `Snapshot.SupplyStep` | main.py:117-152 | the supply step writes only the block heights, price, decimals and supply, and a failed step leaves the supply unchanged |
| `Snapshot.LpStep` | main.py:57-69 | the LP step writes only the market cap, and a failed step changes nothing |
| `Snapshot.TransactionsStep` | main.py:71-77 | the step succeeds exactly when the count arrives, stores it, and changes nothing else |
| `Snapshot.HoldersStep` | main.py:90-97 | the holders step writes only the two counts and the list; a failed first query changes nothing |
| `Snapshot.RewardsStep` | main.py:100-114 | the step succeeds exactly when the sum arrives, stores it, and changes nothing else |
| `Snapshot.MarketingStep` | main.py:79-88 | the step succeeds exactly when the USD value arrives, stores it, and changes nothing else |
| `Snapshot.Outcomes` | main.py:181-207 | six outcomes, one per step, and no step changes the addresses or the capture time |
| `Snapshot.Synchronize` | main.py:181-211 | the record is that of the final state, the addresses and capture time are unchanged, and at most six failures are listed |
| `Snapshot.FailedSteps` | main.py:181-207 | no more failures are listed than steps were run |
| `Snapshot.ReportOf` | main.py:169-176 | the record's holder change plus yesterday's count is the holder count (it may be negative); address and supply are the state's |
| `Snapshot.SupplyStepEffect` | main.py:117-152 | the supply step succeeds exactly when all six lookups answer and the total supply converts, and then sets the supply by the formula and the block heights, price and decimals to their answers |
| `Snapshot.SupplyStepUnconvertibleTotal` | main.py:130-152 | a total supply that does not convert fails the step only after the decimals and price were written, and the supply is unchanged |
| `Snapshot.SupplyStepBurnFailure` | main.py:142-152 | a failed burn lookup leaves the supply unchanged while blocks, price and decimals are already overwritten |
| `Snapshot.YesterdayBlockNotAfterNow` | main.py:119-124 | with a monotone block lookup, yesterday's block is never after today's |
| `Snapshot.LpStepEffect` | main.py:57-69 | the LP step succeeds exactly when two balances arrive with a non-zero token side, and then relates the cap to the positional ratio |
| `Snapshot.HoldersStepEffect` | main.py:90-97 | the holder list only grows, and the old list stays a prefix |
| `Snapshot.HoldersStepSecondQueryFails` | main.py:91-93 | if the second query fails, yesterday's count is already written while the current count and the list are unchanged |
| `Snapshot.HoldersStepAppendsKept` | main.py:90-97 | with readable items the step succeeds, sets both counts from their queries, and the new list is the old list followed by `Scaled(Kept(items))`: one value per kept item, in response order |
| `Snapshot.HoldersStepBadItem` | main.py:90-97 | at the first item without a holder or with a kept unparsable balance, the step raises with both counts written and the list extended by exactly the kept balances before that item |
| `Snapshot.FailedStepsSpec` | main.py:181-207 | a step is reported failed exactly when its outcome failed, in the order the steps ran |
| `Snapshot.SynchronizeIsolation` | main.py:181-207 | each scalar ends as its own response says whatever other steps did; supply, cap and holder fields are those their own step left |
| `Snapshot.SynchronizeReportsFailures` | main.py:181-211 | every step is attempted; a step is listed failed exactly when it raised; failures are listed in pipeline order |
| `Snapshot.BurnFailureReportsZeros` | main.py:142-152 | from a fresh token, a failed burn lookup yields a record with supply 0 and market cap 0 |
| `Snapshot.SecondHolderQueryFailureReport` | main.py:91-93 | from a fresh token, a failed second holder query yields 0 holders and a 24h change of minus yesterday's count |
| `Snapshot.AllFailReportsDefaults` | main.py:44-55 | when every provider fails, the record is still produced, all zeros, and every step is listed failed |
| `TokenClass.Token.constructor` | main.py:36-55 | a new token holds its addresses and capture time, every metric 0 and an empty holder list |
| `TokenClass.Token.GetCirculationSupply` | main.py:117-152 | the object's new state and outcome are those of the supply step |
| `TokenClass.Token.GetLpInfo` | main.py:57-69 | the object's new state and outcome are those of the LP step |
| `TokenClass.Token.GetTransactionsNumber` | main.py:71-77 | the count is stored, or nothing changes on failure |
| `TokenClass.Token.GetMarketingWalletValue` | main.py:79-88 | the USD value is stored, or nothing changes on failure |
| `TokenClass.Token.GetDistributedRewards` | main.py:100-114 | the rewards sum is stored, or nothing changes on failure |
| `TokenClass.Token.GetHoldersNumber` | main.py:90-97 | the loop appends exactly the holder scan's values to the existing list; the state and outcome are those of the holders step |
| `TokenClass.Token.ToFile` | main.py:168-176 | the record written is `ReportOf` the current state, with holder change `holders - yesterday_holders` |
| `TokenClass.Token.SynchronizeData` | main.py:181-211 | the final state, failure list and record are those of the pipeline from the state before |
| `TokenClass.Token.HoldersAnalysis` | main.py:155-158 | the analysis is `Analyse` of the list and supply, and fails exactly on a zero supply |
| `TokenClass.RunToken` | main.py:226-229 | one token's record and analysis are those of the pipeline from a fresh token |

## Left out

- HTTP and provider clients (`run_covalent`, `run_covalent_yesterday_holder`, `run_query`, the BscScan client, main.py:13-29) and the GraphQL query strings: network I/O. Their extracted answers are the `Provider` parameter. `None` stands for a failed call or a missing path, and for a value that does not convert where the conversion raises at once or at the same point as the failed call (the BNB price, the burn balance, an item's balance). The total supply converts later, so it has its own `Unparsable` answer.
- JSON path extraction from responses: each answer is modelled as already extracted or failed.
- `asyncio.run` and the async context managers: the calls are strictly sequential.
- `time.time()` in the constructor: the capture time is the `now` parameter.
- File writing and JSON serialisation in `to_file` (main.py:178-179): only the record's values are modelled. An I/O failure of `to_file` is not modelled.
- Loading `clients.json` and the loop over clients (main.py:215-231), and all `print` output. Failure messages are modelled as the list of failed steps. The separate `AssertionError` handler (main.py:184-185) behaves like the generic one and is not distinguished.
- `tokenDecimal` is modelled as an already-parsed `nat`. The code stores the provider's string and calls `int()` on it later. A non-numeric or negative decimal is not modelled.
- Floating point: the model uses exact reals for `float(...)` conversions, so precision loss on large raw supplies is not modelled.
- Metrics.MarketCap: does not round to 2 decimals (`round(..., 2)`, main.py:69), because the model uses exact reals.
- TokenClass.Token.GetLpInfo: stores the unrounded market cap, for the same reason.
- TokenClass.Token.GetMarketingWalletValue: stores the unrounded USD value (`round(..., 2)`, main.py:88), for the same reason.
- Snapshot.MarketingStep: stores the unrounded USD value where main.py:88 stores `round(..., 2)`, because the model uses exact reals.
- Snapshot.LpStepEffect: relates the unrounded market cap to the balances, where main.py:69 stores `round(..., 2)`, because the model uses exact reals.
- Snapshot.SynchronizeIsolation: gives the final marketing value and market cap unrounded (main.py:69, main.py:88), because the model uses exact reals.
- The queries for the transaction count, marketing value and distributed rewards (main.py:71-88, main.py:100-114) are modelled only as "store the extracted value or fail".
