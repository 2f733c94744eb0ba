# Eth-simulator core, modelled in Dafny

This project models the core of Eth-simulator, a DeFi dashboard. It has five parts:

- **Price-simulation library** (`client/src/lib/simulation.ts`). It builds a synthetic price history as a random walk with a floor of one cent. It then cuts the history into training windows of ten, forecasts with a fitted model fed back through a sliding window, and puts a volatility band around each forecast. It ends with a recommendation and a stored series layout.
- **Simulation hook** (`client/src/hooks/use-simulation.ts`). `runSimulation` does the same work with its own rules: a 30-day cosine history, a 7-day forecast, random confidence, volatility and liquidity ratings, gas, yield and break-even. It then posts the result.
- **Server.**
  - `server/storage.ts` is the in-memory store: six id-keyed tables, each with a counter that starts at 1.
  - `server/routes.ts` holds the market feed: the 5-second broadcast throttle, the fan-out to open WebSocket clients, the snapshot sent on connect, the 10-second price tick and the PATCH route for market data.
- **Display helpers** (`client/src/lib/ethereum.ts`): the address shortener, the signed percentage and block-explorer links over the network table.
- **Components.** The positions table's search, type filter and sort (`position-table.tsx`). The simulation card's chart rows and its 7-day change figure (`simulation-card.tsx`).

Module by file:

| file | module | source |
|---|---|---|
| `wrappers.dfy` | `Wrappers` | Option/Result; `{...a, ...b}` on one field (`Pick`) |
| `jsnumber.dfy` | `JsNumber` | `Math.max`, `Math.round`, `toFixed(1)`/`toFixed(2)`, `toString(radix)` |
| `series.dfy` | `Series` | the `simulationData` record both simulation paths store |
| `simulation.dfy` | `Simulation` | `client/src/lib/simulation.ts` |
| `use_simulation.dfy` | `SimulationHook` | `client/src/hooks/use-simulation.ts` |
| `tables.dfy` | `Tables` | `Array.from(map.values())`, `filter`, `find` as the store uses them |
| `records.dfy` | `Records` | the stored records and the `{ ...old, ...patch }` merges |
| `storage.dfy` | `Storage` | `server/storage.ts` (`MemStorage` is a class over maps) |
| `routes.dfy` | `MarketFeed` | `server/routes.ts` (`Feed` is a class over the store and clients) |
| `ethereum.dfy` | `Ethereum` | `client/src/lib/ethereum.ts` |
| `position_table.dfy` | `PositionTable` | `client/src/components/position-table.tsx` |
| `simulation_card.dfy` | `SimulationCard` | `client/src/components/simulation-card.tsx` |

Modelling conventions:

- Every `Math.random()` draw is a parameter in [0, 1).
- `Math.sin`/`Math.cos` values are parameters in [-1, 1].
- `Date.now()` and `new Date()` are an integer `now`; calendar dates are integer day numbers.
- The fitted TensorFlow network is an arbitrary function from a window of prices to the next price.
- Numbers are exact `real`s. `toFixed(2)` is rounding half up to cents (`ToCents`), and `toFixed(1)` is the same to tenths (`ToTenths`).
- Decimal columns hold their value as a `real`.
- A JavaScript `Map` iterates in insertion order. Ids only grow and `set` on an existing key keeps its place, so the store reads its tables in ascending id order (`Tables.InIdOrder`).

## Model

| member | source | states |
|---|---|---|
| Simulation.GenerateDateRange | client/src/lib/simulation.ts:4-14 | `days` consecutive dates from the start date, none when `days` is not positive |
| Simulation.GenerateHistoricalPrices | client/src/lib/simulation.ts:17-37 | the walk starts at the base price, follows `History` step by step, and every later price is at least 0.01 |
| Simulation.BuildTrainingSet | client/src/lib/simulation.ts:56-64 | input k is the window of `windowSize` prices from k and target k is the price after it; there are `length - windowSize` examples, or none |
| Simulation.TrainingSetSlides | client/src/lib/simulation.ts:59-64 | each window followed by its target is a contiguous stretch of the series, and the next window is this one slid onto the target |
| Simulation.PredictPrices | client/src/lib/simulation.ts:76-95 | `futureDays` predictions; prediction i is the model applied to the window-wide stretch of history ++ predictions just before it |
| Simulation.ForecastWindows | client/src/lib/simulation.ts:82-92 | sliding the prediction into the window feeds every forecast from the values immediately before it |
| Simulation.CalculateVolatilityBounds | client/src/lib/simulation.ts:98-122 | upper and lower bound are the prediction times 1 ± the rating's multiplier (0.05/0.15/0.25), and a non-negative prediction lies inside its band |
| Simulation.RecommendThresholds | client/src/lib/simulation.ts:125-139 | increase exactly above +5 %, reduce exactly below -5 %, otherwise maintain; the suggested percentage is half the change rounded, so at least 3 |
| Simulation.RecommendationSamples | client/src/lib/simulation.ts:130-138 | +6 % gives "increase by 3", -6 % "reduce by 3", +2 % "maintain" |
| Simulation.Confidence | client/src/lib/simulation.ts:176 | the confidence is 90, 85 or 75 for Low, Medium, High |
| Simulation.RunCompleteSimulation | client/src/lib/simulation.ts:142-195 | the run equals `CompleteRun` of its inputs: history, training set, forecast, bounds and the assembled record |
| Simulation.CompleteRunOutcome | client/src/lib/simulation.ts:163-173 | a run fails exactly when the history has no more than 10 days (empty training tensor) or no day is forecast (`predictions[-1]` undefined), and succeeds otherwise |
| Simulation.SummarizeLayout | client/src/lib/simulation.ts:179-194 | `actual` is the history then nulls; `predicted` and the bounds are nulls then the forecasts rounded to cents; the prediction is the last forecast in cents |
| Simulation.SummarizeKeepsBand | client/src/lib/simulation.ts:187-193 | after rounding to cents, every non-negative stored forecast still lies between its stored bounds |
| Simulation.CompleteRunLayout | client/src/lib/simulation.ts:150-160 | a successful run covers `historicalDays + futureDays` consecutive dates from `historicalDays` days ago; its history opens on the current price and stays at or above 0.01 |
| Series.Assemble | client/src/lib/simulation.ts:189-192 | index by index: history values in `actual` with null elsewhere, forecasts to cents in `predicted`/`upperBound`/`lowerBound` after the history |
| Series.AssembleKeepsBand | client/src/hooks/use-simulation.ts:191-193 | rounding to cents keeps a non-negative forecast between its rounded bounds |
| JsNumber.ToCents | client/src/lib/simulation.ts:181 | `toFixed(2)`: a whole number of cents within half a cent of the value |
| JsNumber.FixedUnitsMonotone | client/src/lib/simulation.ts:181 | rounding to a fixed number of decimals never reverses the order of two values |
| SimulationHook.HookHistory | client/src/hooks/use-simulation.ts:74-83 | thirty prices, each a cosine swing plus a linear trend around the current price, none below 0.01 |
| SimulationHook.HookDatesSkipToday | client/src/hooks/use-simulation.ts:189 | 37 dates from 30 days ago to 7 days ahead, one day apart except a two-day step over today, which is absent |
| SimulationHook.HookTrainingExamples | client/src/hooks/use-simulation.ts:93-102 | thirty history days give twenty windows of ten, each with the price after it |
| SimulationHook.HookForecastWindows | client/src/hooks/use-simulation.ts:110-122 | the window starts as the last ten history prices, and forecast i is the model applied to the ten values before it |
| SimulationHook.VolatilityTier | client/src/hooks/use-simulation.ts:127 | Low below 0.3, Medium from 0.3 below 0.7, High from 0.7, each an if-and-only-if |
| SimulationHook.BoundMultiplierNearTable | client/src/hooks/use-simulation.ts:130 | the hook's multiplier grows with the volatility value and is within 0.06 of the library's table value for the same rating |
| SimulationHook.LiquidityMirrorsVolatility | client/src/hooks/use-simulation.ts:166-167 | liquidity impact uses the volatility cut points with High and Low swapped |
| SimulationHook.HookConfidence | client/src/hooks/use-simulation.ts:125 | the confidence lies between 70 and 100 |
| SimulationHook.GasFees | client/src/hooks/use-simulation.ts:156-158 | gas fees lie between 3 and 5 times the gas price (50 for Ethereum, 25 otherwise) |
| SimulationHook.YieldValue | client/src/hooks/use-simulation.ts:157 | the yield lies between 5 and 15 percent |
| SimulationHook.BreakEven | client/src/hooks/use-simulation.ts:169-172 | break-even is the entry price times 1.003, above any positive entry price |
| SimulationHook.HookRanges | client/src/hooks/use-simulation.ts:175-187 | in the result, rounded to cents: confidence 70–100, yield 5–15, gas 3–5 times its base, break-even at or above the last price |
| SimulationHook.ComputeSimulation | client/src/hooks/use-simulation.ts:66-195 | the pipeline's result is `HookRun` of the current price, draws and model |
| SimulationHook.HookLayout | client/src/hooks/use-simulation.ts:188-194 | 37 entries per series; 30 prices then 7 nulls in `actual`, 30 nulls then 7 rounded forecasts elsewhere |
| SimulationHook.HookKeepsBand | client/src/hooks/use-simulation.ts:129-132 | every non-negative stored forecast lies inside its stored band |
| SimulationHook.SimulationRunner.RunSimulation | client/src/hooks/use-simulation.ts:49-236 | without a wallet, null and no request; otherwise one market-data request; on a failed fetch, null and no post; else one post of the computed result, returned only when the save succeeds; `isRunning` ends false |
| Tables.InIdOrderRows | server/storage.ts:271-273 | the rows are exactly the stored values, each once, in strictly increasing id order |
| Tables.FindRow | server/storage.ts:91-95 | `find` over the rows is none exactly when no stored value matches; otherwise it is the stored match with the smallest id |
| Tables.RowsWhere | server/storage.ts:120-124 | `filter` over the rows keeps exactly the stored values that match, in increasing id order |
| Storage.MemStorage.constructor | server/storage.ts:67-84 | empty tables with counters at 1, then the Ethereum and Chainlink seeds under ids 1 and 2 |
| Storage.MemStorage.SeedMarketData | server/storage.ts:310-337 | two creates: the Ethereum record, then the Chainlink record, with the source's prices, changes, volumes and gas data |
| Storage.MemStorage.GetUser | server/storage.ts:87-89 | none exactly when the id is absent; otherwise the record stored under it |
| Storage.MemStorage.GetUserByUsername | server/storage.ts:91-95 | none exactly when no user has the name; otherwise the stored user with that name and the smallest id |
| Storage.MemStorage.GetUserByWalletAddress | server/storage.ts:97-101 | none exactly when no user has the address; otherwise the stored user with it and the smallest id |
| Storage.MemStorage.CreateUser | server/storage.ts:103-108 | the insert gets the counter's id, which is above every existing key; only the users table and its counter change |
| Storage.MemStorage.UpdateUserWalletAddress | server/storage.ts:110-117 | none and no change for an absent id; otherwise only that user's address changes |
| Storage.MemStorage.GetPositions | server/storage.ts:120-124 | exactly the user's stored positions, in id order |
| Storage.MemStorage.GetPosition | server/storage.ts:126-128 | none exactly when the id is absent; otherwise the record stored under it |
| Storage.MemStorage.CreatePosition | server/storage.ts:130-141 | the record reads back under a fresh id above all keys, created and updated at the same instant; nothing else changes |
| Storage.MemStorage.UpdatePosition | server/storage.ts:143-154 | none and no change for an absent id; otherwise the merged record replaces that one entry |
| Storage.MemStorage.DeletePosition | server/storage.ts:156-158 | true exactly when the id was present; only that entry is removed |
| Storage.MemStorage.GetSmartContracts | server/storage.ts:161-165 | exactly the user's stored contracts, in id order |
| Storage.MemStorage.GetSmartContract | server/storage.ts:167-169 | none exactly when the id is absent; otherwise the record stored under it |
| Storage.MemStorage.CreateSmartContract | server/storage.ts:171-182 | the insert gets the counter's id, above all keys; only that table and counter change |
| Storage.MemStorage.UpdateSmartContract | server/storage.ts:184-195 | none and no change for an absent id; otherwise the merged record replaces that one entry |
| Storage.MemStorage.DeleteSmartContract | server/storage.ts:197-199 | true exactly when the id was present; only that entry is removed |
| Storage.MemStorage.GetApiIntegrations | server/storage.ts:202-206 | exactly the user's stored integrations, in id order |
| Storage.MemStorage.GetApiIntegration | server/storage.ts:208-210 | none exactly when the id is absent; otherwise the record stored under it |
| Storage.MemStorage.CreateApiIntegration | server/storage.ts:212-224 | the insert gets the counter's id and is marked synced at creation; only that table and counter change |
| Storage.MemStorage.UpdateApiIntegration | server/storage.ts:226-237 | none and no change for an absent id; otherwise the merged record replaces that one entry |
| Storage.MemStorage.DeleteApiIntegration | server/storage.ts:239-241 | true exactly when the id was present; only that entry is removed |
| Storage.MemStorage.GetSimulations | server/storage.ts:244-248 | exactly the user's stored simulations, in id order |
| Storage.MemStorage.GetSimulation | server/storage.ts:250-252 | none exactly when the id is absent; otherwise the record stored under it |
| Storage.MemStorage.CreateSimulation | server/storage.ts:254-264 | the insert gets the counter's id, above all keys; only that table and counter change |
| Storage.MemStorage.DeleteSimulation | server/storage.ts:266-268 | true exactly when the id was present; only that entry is removed |
| Storage.MemStorage.GetAllMarketData | server/storage.ts:271-273 | every market record exactly once, in id order |
| Storage.ByAsset | server/storage.ts:275-279 | none exactly when no record has the asset; otherwise the stored record for it with the smallest id |
| Storage.MemStorage.UpdateMarketData | server/storage.ts:281-295 | none and no change when no record has the asset; otherwise the first such record, merged, replaces itself under its own id |
| Storage.MemStorage.CreateMarketData | server/storage.ts:297-307 | the insert gets the counter's id, above all keys; only that table and counter change |
| Storage.InsertFresh | server/storage.ts:130-139 | storing under the counter's id keeps every record under its own id and below the incremented counter |
| Records.NewPosition | server/storage.ts:133-138 | the new record carries its id, the insert's fields and `createdAt == updatedAt == now` |
| Records.MergePosition | server/storage.ts:147-151 | a merge keeps the id and `createdAt` and stamps `updatedAt`; the empty patch changes nothing else |
| Records.MergePositionIdempotent | server/storage.ts:147-151 | applying the same patch twice is applying it once, at the later time |
| Records.MergePositionTwice | server/storage.ts:147-151 | two updates in a row are one update with the later patch winning field by field |
| Records.MergePositionFull | server/storage.ts:147-151 | a patch supplying every field gives the record the insert would create, keeping its id and creation time |
| Records.MergeSmartContract | server/storage.ts:188-192 | a merge keeps the id and `createdAt` and stamps `updatedAt`; the empty patch changes nothing else |
| Records.MergeSmartContractIdempotent | server/storage.ts:188-192 | applying the same patch twice is applying it once |
| Records.NewApiIntegration | server/storage.ts:215-221 | a new integration has `lastSynced`, `createdAt` and `updatedAt` all equal to now |
| Records.MergeApiIntegration | server/storage.ts:230-234 | an update stamps `updatedAt` and leaves `lastSynced` unchanged |
| Records.MergeApiIntegrationIdempotent | server/storage.ts:230-234 | applying the same patch twice is applying it once |
| Records.NewSimulation | server/storage.ts:257-261 | a simulation keeps the insert's series and gets its id and `createdAt` |
| Records.MergeMarketData | server/storage.ts:288-292 | a merge keeps the id and stamps `updatedAt`; the empty patch changes nothing else |
| Records.MergeMarketDataIdempotent | server/storage.ts:288-292 | applying the same patch twice is applying it once |
| Records.PriceChangeKeepsRest | server/routes.ts:411-414 | the tick's patch sets price and 24-hour change and keeps every other field |
| MarketFeed.Feed.constructor | server/routes.ts:53-55 | the throttle starts at `lastBroadcast = 0` with no client |
| MarketFeed.Feed.Broadcast | server/routes.ts:58-83 | when more than 5000 ms have passed: the snapshot goes to every OPEN client and no other, the count is the number of OPEN clients, `lastBroadcast` becomes now; otherwise nothing changes and the count is 0 |
| MarketFeed.DeliverOpen | server/routes.ts:69-75 | the fan-out leaves the open set unchanged and adds exactly one message to each OPEN client only |
| MarketFeed.SentTimesSpaced | server/routes.ts:62 | whatever the request times, successive broadcasts are more than 5000 ms apart |
| MarketFeed.SlowRequestsAllSent | server/routes.ts:62 | requests more than 5000 ms apart are all broadcast |
| MarketFeed.ThrottleExample | server/routes.ts:55-62 | requests at 10 s, 11 s and 16 s broadcast at 10 s and 16 s |
| MarketFeed.Feed.Connect | server/routes.ts:40-50 | a new client receives one snapshot at once; the throttle is neither read nor reset |
| MarketFeed.PerturbationBounds | server/routes.ts:407-409 | the price factor lies in [0.995, 1.005) and the change delta in [-0.1, 0.1) |
| MarketFeed.TickKeepsPrice | server/routes.ts:407-412 | a positive price stays positive, and a price of at least one cent stays at least one cent after rounding |
| MarketFeed.TickedRecord | server/routes.ts:404-415 | a tick changes only the first record of its asset, and only when it has a 24-hour change: price to cents, change to tenths, stamped now; no key appears or disappears |
| MarketFeed.Feed.TickAsset | server/routes.ts:404-415 | one asset's update leaves the store equal to `Ticked` of the old store |
| MarketFeed.Feed.Tick | server/routes.ts:401-436 | Ethereum is ticked, then Chainlink, then one throttled broadcast |
| MarketFeed.Feed.PatchMarketData | server/routes.ts:379-398 | 404 with no change and no broadcast for an unknown asset; otherwise the merged record is stored and returned, and a throttled broadcast follows |
| Ethereum.NetworkIdsDistinct | client/src/lib/ethereum.ts:4-40 | no two of the five networks share a chain id |
| Ethereum.FormatAddressEmpty | client/src/lib/ethereum.ts:49 | a null or empty address shows as the empty string |
| Ethereum.FormatAddressShape | client/src/lib/ethereum.ts:48-51 | a long enough address shows its first n+2 characters, "..." and its last n: 2n+5 characters |
| Ethereum.FormatAddressShort | client/src/lib/ethereum.ts:50 | a shorter address is shown whole, then "..." and its tail, as `substring` clamps |
| Ethereum.FormatPercentageSign | client/src/lib/ethereum.ts:63-68 | "+" exactly for a wanted sign and a value ≥ 0, "-" exactly for a wanted sign and a negative value, a digit otherwise; one decimal, then "%" |
| Ethereum.NetworkByChainId | client/src/lib/ethereum.ts:81 | none exactly when no network has the hex id; otherwise the unique network with it |
| Ethereum.GetExplorerUrl | client/src/lib/ethereum.ts:76-88 | the matching network's explorer followed by `/type/hash`, or etherscan when none matches |
| Ethereum.ExplorerChainRoundTrip | client/src/lib/ethereum.ts:78 | the matched network's hex id reads back as the numeric chain id |
| Ethereum.KnownExplorers | client/src/lib/ethereum.ts:12-25 | chain 137 links to polygonscan and 42161 to arbiscan |
| Ethereum.UnknownExplorer | client/src/lib/ethereum.ts:83-85 | chain 5 falls back to etherscan |
| JsNumber.RadixRoundTrip | client/src/lib/ethereum.ts:78 | reading the hex text of a chain id back gives the chain id |
| PositionTable.ContainsAt | client/src/components/position-table.tsx:47-48 | `includes` holds exactly when the query occurs at some position |
| PositionTable.FilteredPositionsKeep | client/src/components/position-table.tsx:45-55 | the filter keeps exactly the positions matching both search and type, in their original order |
| PositionTable.KeptMatchesQuery | client/src/components/position-table.tsx:46-48 | every kept position's lower-cased asset or ticker contains the lower-cased query |
| PositionTable.FilterAllKeepsEverything | client/src/components/position-table.tsx:46-52 | an empty query and "all" keep every position |
| PositionTable.NotBeforeTransitive | client/src/components/position-table.tsx:58-69 | each comparator is a strict weak order, so the sort is well defined |
| PositionTable.SortCorrect | client/src/components/position-table.tsx:58-69 | the sort is a permutation, and no element follows one it should precede |
| PositionTable.SortedPositionsOrder | client/src/components/position-table.tsx:58-69 | by value and by performance, largest first; by name, ascending; an unknown key keeps the filtered order; always a permutation of the filtered list |
| PositionTable.SortedPositionsMissing | client/src/components/position-table.tsx:58 | no positions yield an empty table |
| SimulationCard.ChartRows | client/src/components/simulation-card.tsx:31-41 | no data gives no rows; otherwise one row per date carrying entry i of every series |
| SimulationCard.ChartOfAssembled | client/src/components/simulation-card.tsx:34-40 | on the stored layout, the actual line covers the history days and the predicted line the forecast days, never both |
| SimulationCard.PredictionChangeAsWrittenIsNaN | client/src/components/simulation-card.tsx:156 | with seven or more forecast days, the 7-day change as written divides by a null and is never a number |
| SimulationCard.PredictionChangeUsesLastPrice | client/src/components/simulation-card.tsx:156 | the corrected change is the prediction against the last historical price, to one decimal |

## Left out

- I/O is not modelled: HTTP, WebSocket transport, JSON encoding, logging and toasts. A sent message is appended to the client's inbox.
- The other HTTP routes in `server/routes.ts` are left out, and so is request validation with zod. Every PATCH body in the model carries only fields of the record's insert type. The source spreads the unvalidated body, so a body holding `id` or `createdAt` would overwrite those fields. The model does not cover that.
- MarketFeed.Feed.Broadcast: the model updates `lastBroadcast` at once. The source updates it inside the `.then` of an asynchronous read, so two calls made before that read resolves can both broadcast. Interleavings are not modelled.
- MarketFeed.Feed.Tick: the tick's `catch` branch is unreachable, because no modelled store operation throws. The order of the `Math.random()` draws across assets is fixed as Ethereum, then Chainlink.
- Decimal strings (`"3245.67"`) are modelled as `real`; `parseFloat`/`String` round trips are the identity.
- Floating point is modelled as exact reals. Rounding error in `toFixed` on binary doubles is not modelled.
- The TensorFlow model is not modelled: its layers, training and the numbers it predicts. It is an arbitrary predictor function.
- SimulationHook.HookSummary: the impermanent-loss figure (`Math.sqrt`) is left out of the result record. The `insertSimulationSchema` that strips it and the hook's other extra fields from the post is not part of this model.
- Date formatting (`toISOString().split('T')[0]`) is left out; dates are day numbers.
- PositionTable.LowerChar: only ASCII capitals are lowered. `toLowerCase` on other scripts is left out.
- PositionTable.LexLess: `localeCompare` is modelled as code-unit order; locale collation is left out.
- Chart rows: `undefined` (past the end of a series) and `null` are both "no value".
- `formatEther`, `formatTokenAmount`, `isValidAddress` and `isMetaMaskInstalled` in `client/src/lib/ethereum.ts` are left out. They are formatting or calls into the ethers library and the browser.
- Ethereum.FormatPercentage: a string argument goes through `parseFloat`, which is left out. The model takes the number.
- The hook's query of stored simulations and its delete mutation (`client/src/hooks/use-simulation.ts:37-46`, `239-258`) are calls to the server and are left out.

## Findings

| source | as written | input that shows it | evidently intended | confidence | as-written member | corrected member |
|---|---|---|---|---|---|---|
| client/src/components/simulation-card.tsx:156 | the "Prediction (7d)" change divides by `actual[actual.length - 7]` | any stored simulation. With 30 history days and 7 forecast days, `actual` has 37 entries and index 30 is the first trailing null, so `parseFloat(null)` is NaN and the card shows "NaN%" | divide by the last historical price, index `length - 8` here, the last non-null entry of `actual` | not executed | SimulationCard.PredictionChangeAsWrittenIsNaN | SimulationCard.PredictionChangeUsesLastPrice |
