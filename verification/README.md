# Polygon MEV bot: a verified model of its decision core

This project models, in Dafny, the deterministic logic of a Polygon MEV bot
written in Rust:

- the **QuickSwap call decoder**. It recognises a pending transaction as a
  call to the QuickSwap router, matches the 4-byte selector against nine
  Uniswap-V2-style swap entry points, and re-packs the decoded ABI tokens into a
  typed `QuickSwapAction`.
- the **mempool monitor**. It deduplicates transaction hashes, turns a
  simulation whose expected profit is above 10^15 wei into a stored arbitrage
  opportunity, gates each stored opportunity on net profit after gas, and
  submits a FastLane bundle for each one that passes.
- the **simulation engine**. It has a hash-keyed memo cache and an argmax
  over two fixed candidate cycles (WMATIC→USDC→WMATIC and
  WMATIC→USDT→USDC→WMATIC), with constant U256 profit arithmetic.
- **bundle construction**. It builds the three-leg FastLane bundle
  (flash loan, arbitrage, repayment) and maps the relay's receipt to a bundle
  hash.
- **sandwich detection**. A price-impact filter over pending transactions,
  and a frontrun / victim / backrun bundle.

U256 values are naturals below 2^256. A subtraction that would go negative, or
a product that would not fit in 256 bits, is a panic in the Rust program. The
model represents it as an `Err` whose `Error.IsPanic()` holds. Everything the
core only receives from outside becomes a parameter of the model:

- node queries (gas price, block number);
- the ABI library's argument decoder;
- the relay;
- the router and pool lookups;
- the sandwich helpers whose code is not part of the repository.

The answers of the node, the relay and the lookups (`ChainAnswers`, `Relay`,
`PathLookups`, and the gas price handed to `AnalyzeArbitrage` and
`ProcessTransaction`) have type `Answer<T>`: a value or a returned error,
never a panic. The pure functions `EstimateGasCost`, `ComplexPath`,
`ShouldExecute` and `CreateArbitrageBundle` accept any `Result`.

Files:

- `primitives.dfy`: `Option`, `Result`, `Error`, U256/U64/Address/Hash, checked
  arithmetic, the transaction record.
- `quickswap.dfy` (module `QuickSwap`): the decoder.
- `simulation_engine.dfy` (module `SimulationEngine`): the cache and argmax.
- `fastlane_integration.dfy` (module `FastLane`): bundle construction and
  submission.
- `advanced.dfy` (module `Advanced`): sandwich detection.
- `monitor.dfy` (module `Mempool`): the monitor class, the gates and the
  execution cycle.

Consequences of the code as written, proved in the model:

- Both candidate cycles earn 15^15 − 2^15 − 1^15 = 437893890380826606 wei and
  tie, so the three-hop cycle is always chosen (`SimulationPicksThreeHop`).
- That profit is above the 10^15 threshold. The monitor's own pool lookup
  parses the string `"0x...01"`, which is not a hexadecimal address, so its
  `?` always fails. Every fresh analysis therefore fails, and no opportunity
  is ever stored (`FreshAnalysisWithMockLookupsFails`). The model keeps the
  lookups as a parameter, so the rest of the pipeline is verified for any
  lookup.
- A gas cost above the expected profit makes `should_execute` panic
  (U256 underflow) rather than return `false` (`UnprofitableGatePanics`).

Further behaviour of the execution cycle as coded:

- An execution cycle stops at the first opportunity whose gate, gas-price
  query, bundle construction or submission fails; later opportunities are not
  tried.
- A negative net profit is a panic, not a discard.
- Nothing is ever removed from the opportunity store, including after a
  failed submission.

## Model

| member | source | states |
|---|---|---|
| `QuickSwap.GetPath` | src/quickswap.rs:124-138 | returns exactly the `path` field of every one of the nine variants |
| `QuickSwap.ToU256` | src/quickswap.rs:170-172 | `Some` iff the token is a `Uint`, and then exactly its integer |
| `QuickSwap.ToAddr` | src/quickswap.rs:174-176 | `Some` iff the token is an `Address`, and then exactly its address |
| `QuickSwap.ToAddrVec` | src/quickswap.rs:157-168 | `Some` iff the token is an `Array` whose every element is an `Address`, and then the addresses in order (the array rebuilt from them is the token); `None` for any other token or a non-address element |
| `QuickSwap.AddrVecOfAddressArray` | src/quickswap.rs:157-168 | an address array converts back to exactly its addresses |
| `QuickSwap.AddressArrayOfAddrVec` | src/quickswap.rs:157-168 | a token that converts is the address array of what it converts to |
| `QuickSwap.Repack` | src/quickswap.rs:177-286 | a token list whose length is not the matched function's arity (5, or 4 for the ETH-input variants) gives `None`, never a partial action |
| `QuickSwap.RepackArgTokens` | src/quickswap.rs:179-275 | the positional argument tokens of any action re-pack into that same action when the transaction value is the native amount |
| `QuickSwap.RepackInverse` | src/quickswap.rs:177-286 | an action comes only from its own function, with the right arity, from exactly its positional argument tokens, so every amount is a `Uint`, the recipient an `Address` and the path an array of addresses; the native amount (`amount_in` or `amount_in_max`) of an ETH-input variant is `tx.value` |
| `QuickSwap.FindBySelector` | src/quickswap.rs:150-151 | a function found has the looked-up selector and is in the list; `None` means no function in the list has that selector |
| `QuickSwap.SelectorInjective` | src/quickswap.rs:14-30 | the nine selectors are pairwise distinct |
| `QuickSwap.EveryFunctionInAbi` | src/quickswap.rs:14-30 | every entry point is in the router ABI |
| `QuickSwap.FindSelectorOf` | src/quickswap.rs:150-151 | looking up the selector of an entry point in the ABI finds that entry point |
| `QuickSwap.DecodeCall` | src/quickswap.rs:141-288 | `None` for a transaction not sent to the router, for calldata under 4 bytes, and for an unknown selector; a result implies the argument bytes decoded |
| `QuickSwap.DecodeCallComplete` | src/quickswap.rs:141-288 | encode then decode: router calldata made of an action's selector and bytes that decode to its argument tokens decodes to exactly that action |
| `QuickSwap.DecodeCallSound` | src/quickswap.rs:141-288 | decode then encode: a decoded action was sent to the router, its selector is the calldata's first 4 bytes and the remaining bytes decode to its argument tokens |
| `QuickSwap.ParseQuickSwapTx` | src/quickswap.rs:141-288 | the early-return scan over the ABI computes `DecodeCall`, so it inherits both round-trip lemmas |
| `SimulationEngine.GenerateArbitragePaths` | src/simulation_engine.rs:120-143 | exactly the two cycles WMATIC→USDC→WMATIC and WMATIC→USDT→USDC→WMATIC, in that order; every path has length at least 3 and starts and ends at WMATIC |
| `SimulationEngine.PowConstants` | src/simulation_engine.rs:145-161 | the three `pow` calls compute 15^15, 2^15 and 1^15 as the stated numbers |
| `SimulationEngine.CalculateTotalFees` | src/simulation_engine.rs:154-157 | the fees are 2^15 = 32768 wei for every path |
| `SimulationEngine.EstimateSlippage` | src/simulation_engine.rs:159-162 | the slippage is 1^15 = 1 wei for every path |
| `SimulationEngine.CalculatePriceImpact` | src/simulation_engine.rs:164-167 | the price impact is 150 basis points (1.5%) for every path |
| `SimulationEngine.CalculatePathProfit` | src/simulation_engine.rs:145-152 | for every path the profit is 15^15 − 2^15 − 1^15 and neither subtraction underflows |
| `SimulationEngine.EstimateGasCost` | src/simulation_engine.rs:169-173 | a gas-price failure propagates; otherwise the estimate is gas price × 300000 when that fits in 256 bits and an overflow panic when it does not |
| `SimulationEngine.ScanFailsIffSomeProfitFails` | src/simulation_engine.rs:103-109 | the argmax loop fails iff the profit of some candidate fails |
| `SimulationEngine.ScanIsFirstMaximum` | src/simulation_engine.rs:99-109 | the final best is no smaller than the starting best or any candidate's profit; it is either the starting best, or the FIRST candidate reaching the maximum, which then strictly beats the starting best (ties keep the earliest) |
| `SimulationEngine.ComplexPathSelectsFirstMaximum` | src/simulation_engine.rs:93-118 | for any profit model, a result's profit is at least every candidate's; zero profit comes with an empty path; a positive profit comes with a generated path, the first one reaching the maximum |
| `SimulationEngine.SimulationPicksThreeHop` | src/simulation_engine.rs:93-172 | with the source's profit arithmetic the two cycles tie and the result is price impact 150, profit 437893890380826606, the three-hop cycle, and the gas estimate (or the gas estimate's failure) |
| `SimulationEngine.SimulateComplexPath` | src/simulation_engine.rs:93-118 | the loop with a zero-initialised best and strict `>` computes the first-maximum selection specified by `ComplexPath` |
| `SimulationEngine.SimulationIdempotent` | src/simulation_engine.rs:65-91 | once a simulation of a hash succeeded, simulating it again returns the identical result, whatever the provider answers, and leaves the cache unchanged |
| `SimulationEngine.AdvancedSimulationEngine.constructor` | src/simulation_engine.rs:42-63 | the cache starts empty |
| `SimulationEngine.AdvancedSimulationEngine.SimulateMultiDexArbitrage` | src/simulation_engine.rs:65-91 | a hit returns the cached result unchanged and leaves the cache as it was; a miss simulates and caches a successful result under the hash; every cached result has a candidate path when its profit is positive |
| `SimulationEngine.SimulateTwice` | src/simulation_engine.rs:71-90 | a second simulation of a hash whose first simulation succeeded returns the same result |
| `FastLane.CreateFlashLoanTx` | src/fastlane_integration.rs:113-127 | a call to the flash-loan contract with value 0, the given gas price, 300000 gas and calldata `"flash_loan_call_data"`, every other field at its default |
| `FastLane.CreateArbitrageTx` | src/fastlane_integration.rs:129-143 | a call to the solver contract with value 0, the given gas price, 500000 gas and calldata `"arbitrage_execution_data"`, every other field at its default |
| `FastLane.CreateRepaymentTx` | src/fastlane_integration.rs:145-159 | a call to the flash-loan contract with value 0, the given gas price, 200000 gas and calldata `"repayment_data"`, every other field at its default |
| `FastLane.CreateArbitrageBundle` | src/fastlane_integration.rs:79-159 | three legs: flash loan, arbitrage, repayment. `can_revert` is false, true, false; targets are the flash-loan contract, the solver contract and the flash-loan contract; gas is 300000, 500000, 200000. Every leg has value 0 and the supplied gas price. The block number is the observed one without +1, there are no timestamps and no reverting hashes. Failing the block-number query is the only failure |
| `FastLane.SubmitBundle` | src/fastlane_integration.rs:41-62 | a receipt yields its transaction hash, a missing receipt is `BundleSubmissionFailed`, and a failure of the send propagates |
| `Advanced.AnalyzeSandwich` | src/advanced.rs:51-68 | no opportunity iff the impact is at most 200; an impact error propagates. Above 200 the result is an opportunity iff both helpers succeed, and otherwise the error of the first failing helper (amounts, then path). An opportunity has the input transaction as victim, the optimal-amounts triple as frontrun, backrun and expected profit, and the helper's path |
| `Advanced.DetectKeepsFlaggedInOrder` | src/advanced.rs:36-49 | the victims of the detected opportunities are exactly the transactions whose analysis gives an opportunity, in input order, and each opportunity is its victim's analysis |
| `Advanced.DetectFailsIffSomeAnalysisFails` | src/advanced.rs:42-46 | detection fails iff the analysis of some transaction fails |
| `Advanced.DetectSandwichOpportunities` | src/advanced.rs:36-49 | the filter loop computes `Detect`, so it inherits the two lemmas above |
| `Advanced.CreateSandwichBundle` | src/advanced.rs:83-117 | three elements: frontrun, the victim's own calldata, backrun |
| `Advanced.CreateFrontrunTx` | src/advanced.rs:103-109 | the frontrun payload is the placeholder bytes `"0x"` for every opportunity |
| `Advanced.CreateBackrunTx` | src/advanced.rs:111-117 | the backrun payload is the placeholder bytes `"0x"` for every opportunity |
| `Advanced.SendBundle` | src/advanced.rs:119-123 | sending any bundle succeeds |
| `Advanced.ExecuteSandwichAttack` | src/advanced.rs:70-123 | sends the frontrun / victim / backrun bundle and succeeds, the send being a stub |
| `Mempool.ThresholdsArePowersOfTen` | src/main.rs:119-123 | the profit threshold is 10^15 and the input amount 10^18 |
| `Mempool.Materialise` | src/main.rs:119-133 | profit at most 10^15 gives no opportunity. Above it, with a non-empty path, the result is an opportunity iff both lookups succeed, and otherwise the error of the first failing lookup (routers, then pool); above it, `Ok` is never "no opportunity". It has `token_in = path[0]`, `token_out = last(path)`, `amount_in = 10^18`, `fee = 3000`, the simulation's path and profit, the looked-up routers and pool, and the simulation result. An empty path above the threshold is an index panic |
| `Mempool.MaterialiseNeverIndexesEmptyPath` | src/main.rs:119-122 | for any result the simulation can produce, the `optimal_path[0]` index cannot panic |
| `Mempool.MockLookupsRejectEveryOpportunity` | src/main.rs:136-148 | with the monitor's own lookups, every simulation above the threshold makes the analysis fail |
| `Mempool.AnalysisNeverIndexesEmptyPath` | src/main.rs:113-134 | over a cache of producible results, `analyze_arbitrage` never panics on the path index |
| `Mempool.FreshAnalysisWithMockLookupsFails` | src/main.rs:113-148 | with the monitor's own lookups, analysing a transaction not yet simulated always fails |
| `Mempool.ShouldExecute` | src/main.rs:169-175 | true iff the profit exceeds gas price × 300000; false iff they are equal; an underflow panic when the cost exceeds the profit and an overflow panic when the cost does not fit in 256 bits; a gas-price failure propagates |
| `Mempool.UnprofitableGatePanics` | src/main.rs:171-174 | profit 2,000,000 wei at gas price 10 wei (cost 3,000,000) panics rather than returning false |
| `Mempool.StepIsJustified` | src/main.rs:153-163 | a bundle is submitted for an opportunity only after its gate returned true, built at the queried gas price and acknowledged by the relay |
| `Mempool.SubmissionsAreOrderedAndJustified` | src/main.rs:150-167 | submissions follow the snapshot's store order, at most one per opportunity, each for an opportunity whose gate returned true |
| `Mempool.CompletedCycleSubmitsEveryProfitable` | src/main.rs:150-167 | a cycle that completes submits a bundle for every opportunity whose gate returned true |
| `Mempool.FailedCycleStopsAtFirstError` | src/main.rs:150-167 | a failed cycle reports the error of the first failing opportunity, every earlier one was handled, and nothing at or after it was submitted |
| `Mempool.MempoolMonitor.constructor` | src/main.rs:63-76 | empty store, empty processed set, empty simulation cache, the given contracts |
| `Mempool.MempoolMonitor.AnalyzeArbitrage` | src/main.rs:113-134 | simulates through the engine's cache and materialises the result; never an index panic; a stored opportunity has the materialised shape |
| `Mempool.MempoolMonitor.ProcessTransaction` | src/main.rs:93-111 | the processed set grows by exactly the hash. A hash seen before returns `Ok` with store and cache unchanged. Otherwise the store grows by exactly the analysed opportunity, appended, iff the analysis yields one, and an analysis error propagates |
| `Mempool.MempoolMonitor.ExecuteOpportunities` | src/main.rs:150-167 | the loop over a snapshot computes the cycle specified by `ExecuteFrom`; it changes nothing (no `modifies`), so the store is never shrunk |
| `Mempool.ProcessTwice` | src/main.rs:96-102 | a transaction handed over twice: the second call returns `Ok`, the hash is recorded, and store and cache end as after the first call alone (unchanged for a hash seen before; otherwise grown by exactly the first analysis's opportunity and simulation) |

## Left out

- The pending-transaction subscription and its loop (`start_monitoring`) are
  network I/O. The model takes one transaction per `ProcessTransaction` call.
- `main` is left out: environment loading, logging, task spawning and the
  one-second scheduler. One execution cycle is `ExecuteOpportunities`.
- Tokio mutexes are left out: the shared store, set and cache are plain
  sequential state.
- Provider answers are parameters (`Answer<T>`): the gas price, the block
  number, and the relay's send and receipt. This includes the FastLane
  contract's ABI loading in `get_fastlane_contract`.
- `get_bundle_status` and `BundleStatus` are left out; the code defines no
  status type, and no target-block check or timeout exists to model.
- The Keccak-256 computation of selectors is left out; `Selector` lists the
  nine standard 4-byte values. ethers' `decode_input` is the `InputDecoder`
  parameter.
- `simulate_price_impact`, `find_optimal_sandwich_amounts` and
  `get_sandwich_path` are functions of the transaction in `SandwichOracle`.
  They are not defined in the repository.
- `get_routers_for_path` and `find_best_pool` are the `PathLookups` parameter.
  Their mock bodies are the constant `MockLookups`, with the pool parse failure
  as `LookupFailure`.
- The revm `EVM` set-up in `simulate_multi_dex_arbitrage` is left out: it is
  unused.
- `success_probability` is left out: it is floating point (always 0.85), so
  `SimulationResult` has no such field.
- The engine's `dex_routers` map and `pool_cache` are left out: nothing reads
  them.
- The monitor's `provider` is not a field: its answers (the gas price for the
  gate and for the bundle, the block number, the relay) are the `gasPrice`
  and `ChainAnswers` parameters, and its subscription is left out with
  `start_monitoring`. The monitor's `sim_cache` and its three router fields
  are left out: nothing reads them.
- The `depth` argument is accepted and ignored, as in the source.
- The declared `ArbitrageOpportunity` struct (token0, token1, amounts, …) does
  not match the fields built in `analyze_arbitrage`. The model uses the fields
  of the construction site.
- The flash-loan legs read `opportunity.flash_loan_contract`, a field the
  opportunity does not have. The model takes the flash-loan contract as a
  parameter, and the monitor passes its own.
  `CreateArbitrageBundle` takes no opportunity, because nothing else in the
  legs depends on it.
- Each placeholder calldata (`"flash_loan_call_data"`, `"0x"`, …) is modelled
  as the ASCII bytes of its string literal.
- The routers' contract wrappers, the `abigen!` bindings and module
  re-exports are left out: they contain no local logic.
