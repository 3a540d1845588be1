/** The mempool monitor: each pending transaction is analysed once, a
    simulation above the profit threshold becomes a stored arbitrage
    opportunity, and each execution cycle gates the stored opportunities on
    net profit and submits a FastLane bundle for every one that passes. */
module Mempool {
  import opened Wrappers
  import opened Eth
  import opened SimulationEngine
  import opened FastLane
  import QuickSwap

  /** 10^15 wei: a simulation must expect strictly more profit than this. */
  const MIN_PROFIT: U256 := 1_000_000_000_000_000
  /** 10^18 wei: the input amount of every opportunity. */
  const AMOUNT_IN: U256 := 1_000_000_000_000_000_000
  const POOL_FEE: nat := 3000
  /** The depth handed to the simulation engine. */
  const SIMULATION_DEPTH: nat := 3

  const UNISWAP_V3_ROUTER: Address := 0xE592427A0AEce92De3Edee1F18E0157C05861564
  const SUSHISWAP_ROUTER: Address := 0x1b02dA8Cb0d097eB8D57A175b88c7D8b47997506

  lemma ThresholdsArePowersOfTen()
    ensures MIN_PROFIT == Pow(10, 15)
    ensures AMOUNT_IN == Pow(10, 18)
  {
    PowAdd(10, 5, 5);
    PowAdd(10, 10, 5);
    PowAdd(10, 15, 3);
  }

  /** An opportunity as the analysis builds it. */
  datatype ArbitrageOpportunity = ArbitrageOpportunity(
    tokenIn: Address,
    tokenOut: Address,
    amountIn: U256,
    expectedProfit: U256,
    path: Path,
    routers: seq<Address>,
    poolAddress: Address,
    fee: nat,
    simulationResult: Option<SimulationResult>)

  /** `get_routers_for_path` and `find_best_pool`, as functions of the path that
      may fail. */
  datatype PathLookups = PathLookups(
    routersFor: Path -> Answer<seq<Address>>,
    bestPoolFor: Path -> Answer<Address>)

  /** The lookups as the monitor defines them: three fixed routers, and a pool
      address parsed from a string that is not a hexadecimal address, so the
      parse, and with it the lookup, always fails. */
  const MockLookups: PathLookups := PathLookups(
    (p: Path) => Ok([QuickSwap.QUICKSWAP_ROUTER, UNISWAP_V3_ROUTER, SUSHISWAP_ROUTER]),
    (p: Path) => Err(LookupFailure))

  /** The shape of every opportunity the analysis stores. */
  ghost predicate Materialised(o: ArbitrageOpportunity) {
    && o.expectedProfit > MIN_PROFIT
    && |o.path| > 0
    && o.tokenIn == o.path[0]
    && o.tokenOut == o.path[|o.path| - 1]
    && o.amountIn == AMOUNT_IN
    && o.fee == POOL_FEE
    && o.simulationResult.Some?
    && o.simulationResult.value.optimalPath == o.path
    && o.simulationResult.value.expectedProfit == o.expectedProfit
  }

  /** The second half of `analyze_arbitrage`: a simulation above the threshold
      becomes an opportunity on its path, after the router and pool lookups;
      anything else is no opportunity.  Indexing an empty path panics. */
  function Materialise(sim: SimulationResult, lookups: PathLookups): (r: Result<Option<ArbitrageOpportunity>>)
    ensures sim.expectedProfit <= MIN_PROFIT ==> r == Ok(None)
    ensures sim.expectedProfit > MIN_PROFIT && sim.optimalPath == [] ==> r == Err(IndexOutOfBounds)
    ensures sim.expectedProfit > MIN_PROFIT && sim.optimalPath != [] ==>
      (r.Ok? <==> lookups.routersFor(sim.optimalPath).Ok? && lookups.bestPoolFor(sim.optimalPath).Ok?)
    ensures sim.expectedProfit > MIN_PROFIT && r.Ok? ==> r.value.Some?
    ensures sim.expectedProfit > MIN_PROFIT && sim.optimalPath != [] && lookups.routersFor(sim.optimalPath).Err? ==>
      r == Err(lookups.routersFor(sim.optimalPath).error)
    ensures sim.expectedProfit > MIN_PROFIT && sim.optimalPath != [] ==>
      lookups.routersFor(sim.optimalPath).Ok? && lookups.bestPoolFor(sim.optimalPath).Err? ==>
      r == Err(lookups.bestPoolFor(sim.optimalPath).error)
    ensures r.Ok? && r.value.Some? ==>
      var o := r.value.value;
      && Materialised(o)
      && o.simulationResult == Some(sim)
      && o.path == sim.optimalPath
      && o.routers == lookups.routersFor(sim.optimalPath).value
      && o.poolAddress == lookups.bestPoolFor(sim.optimalPath).value
  {
    if sim.expectedProfit > MIN_PROFIT then
      var path := sim.optimalPath;
      if |path| == 0 then Err(IndexOutOfBounds)
      else
        var routers :- lookups.routersFor(path);
        var pool :- lookups.bestPoolFor(path);
        Ok(Some(ArbitrageOpportunity(path[0], path[|path| - 1], AMOUNT_IN, sim.expectedProfit,
                                     path, routers, pool, POOL_FEE, Some(sim))))
    else
      Ok(None)
  }

  /** The path indexing cannot panic on a result the simulation produces:
      a positive profit always comes with a candidate path. */
  lemma MaterialiseNeverIndexesEmptyPath(sim: SimulationResult, lookups: PathLookups)
    requires WellFormed(sim)
    ensures Materialise(sim, lookups) != Err(IndexOutOfBounds)
  {
  }

  /** With the monitor's own lookups no simulation above the threshold ever
      becomes an opportunity: the analysis fails instead. */
  lemma MockLookupsRejectEveryOpportunity(sim: SimulationResult)
    ensures sim.expectedProfit > MIN_PROFIT ==> Materialise(sim, MockLookups).Err?
    ensures Materialise(sim, MockLookups).Ok? ==> Materialise(sim, MockLookups).value.None?
  {
  }

  /** `analyze_arbitrage` as a function of the simulation cache it finds. */
  function Analysis(cache: map<Hash, SimulationResult>, tx: Transaction, gasPrice: Result<U256>, lookups: PathLookups)
    : Result<Option<ArbitrageOpportunity>>
  {
    var sim :- Simulated(cache, tx.hash, gasPrice);
    Materialise(sim, lookups)
  }

  /** Over a cache of results the simulation can produce, the analysis never
      panics on the path index. */
  lemma AnalysisNeverIndexesEmptyPath(cache: map<Hash, SimulationResult>, tx: Transaction, gasPrice: Answer<U256>, lookups: PathLookups)
    requires forall h :: h in cache ==> WellFormed(cache[h])
    ensures Analysis(cache, tx, gasPrice, lookups) != Err(IndexOutOfBounds)
  {
    var sim := Simulated(cache, tx.hash, gasPrice);
    if tx.hash in cache {
      MaterialiseNeverIndexesEmptyPath(cache[tx.hash], lookups);
    } else if sim.Ok? {
      ComplexPathSelectsFirstMaximum(gasPrice, CalculatePathProfit);
      MaterialiseNeverIndexesEmptyPath(sim.value, lookups);
    } else {
      SimulationPicksThreeHop(gasPrice);
    }
  }

  /** Every transaction not yet simulated leads to the three-hop cycle with a
      profit above the threshold, so, with the monitor's own lookups, its
      analysis fails. */
  lemma FreshAnalysisWithMockLookupsFails(cache: map<Hash, SimulationResult>, tx: Transaction, gasPrice: Result<U256>)
    requires tx.hash !in cache
    ensures Analysis(cache, tx, gasPrice, MockLookups).Err?
  {
    SimulationPicksThreeHop(gasPrice);
    var sim := Simulated(cache, tx.hash, gasPrice);
    if sim.Ok? {
      assert sim.value.expectedProfit == PATH_PROFIT;
      MockLookupsRejectEveryOpportunity(sim.value);
    }
  }

  /** `should_execute`: the net profit after a gas cost of 300000 units at the
      current gas price must be positive.  Both U256 operations panic on
      overflow or underflow, so a cost above the profit is a panic, not a
      refusal. */
  function ShouldExecute(expectedProfit: U256, gasPrice: Result<U256>): (r: Result<bool>)
    ensures gasPrice.Err? ==> r == Err(gasPrice.error)
    ensures r == Ok(true) <==>
      gasPrice.Ok? && gasPrice.value * 300000 < U256_LIMIT && expectedProfit > gasPrice.value * 300000
    ensures r == Ok(false) <==> gasPrice.Ok? && expectedProfit == gasPrice.value * 300000
    ensures gasPrice.Ok? && gasPrice.value * 300000 >= U256_LIMIT ==> r == Err(ArithmeticOverflow)
    ensures gasPrice.Ok? && gasPrice.value * 300000 < U256_LIMIT && expectedProfit < gasPrice.value * 300000
      ==> r == Err(ArithmeticUnderflow)
  {
    var price :- gasPrice;
    var gasCost :- CheckedMul(price, GAS_UNITS);
    var netProfit :- CheckedSub(expectedProfit, gasCost);
    Ok(netProfit > 0)
  }

  /** A profit of 2,000,000 wei against a gas price of 10 wei (cost 3,000,000
      wei) is a panic, not a skipped opportunity. */
  lemma UnprofitableGatePanics()
    ensures ShouldExecute(2000000, Ok(10)) == Err(ArithmeticUnderflow)
  {
  }

  /** What the node and the relay answer while one stored opportunity is
      handled in an execution cycle: the gas price read by the gate, the gas
      price read for the bundle, the block number read by the bundle builder,
      and the relay. */
  datatype ChainAnswers = ChainAnswers(
    gateGasPrice: Answer<U256>,
    bundleGasPrice: Answer<U256>,
    blockNumber: Answer<U64>,
    relay: Relay)

  /** A bundle submitted for the opportunity at `index` of the cycle's snapshot. */
  datatype Submission = Submission(index: nat, bundle: FastLaneBundle, bundleHash: Hash)

  /** What an execution cycle did: the bundles submitted, in order, and whether
      it ran to the end or stopped with an error. */
  datatype ExecReport = ExecReport(submitted: seq<Submission>, outcome: Result<()>)

  /** One iteration of the execution loop: gate, then read the gas price, build
      the bundle and submit it. */
  function ExecuteStep(index: nat, o: ArbitrageOpportunity, a: ChainAnswers, client: FastLaneClient, flashLoanContract: Address)
    : Result<Option<Submission>>
  {
    var execute :- ShouldExecute(o.expectedProfit, a.gateGasPrice);
    if !execute then Ok(None)
    else
      var gasPrice :- a.bundleGasPrice;
      var bundle :- CreateArbitrageBundle(client, flashLoanContract, gasPrice, a.blockNumber);
      var bundleHash :- SubmitBundle(bundle, a.relay);
      Ok(Some(Submission(index, bundle, bundleHash)))
  }

  /** The execution cycle from position `i` of the snapshot on: the first error
      ends the cycle. */
  function ExecuteFrom(opps: seq<ArbitrageOpportunity>, answers: nat -> ChainAnswers, client: FastLaneClient,
                       flashLoanContract: Address, i: nat): ExecReport
    requires i <= |opps|
    decreases |opps| - i
  {
    if i == |opps| then ExecReport([], Ok(()))
    else
      match ExecuteStep(i, opps[i], answers(i), client, flashLoanContract)
      case Err(e) => ExecReport([], Err(e))
      case Ok(None) => ExecuteFrom(opps, answers, client, flashLoanContract, i + 1)
      case Ok(Some(s)) =>
        var rest := ExecuteFrom(opps, answers, client, flashLoanContract, i + 1);
        ExecReport([s] + rest.submitted, rest.outcome)
  }

  /** The submissions made before a report, followed by the report. */
  function After(done: seq<Submission>, rest: ExecReport): ExecReport {
    ExecReport(done + rest.submitted, rest.outcome)
  }

  /** A submission is justified when its opportunity passed the gate and its
      bundle is the three-leg bundle built at the bundle gas price, handed to
      the relay, which acknowledged it with the recorded hash. */
  ghost predicate Justified(opps: seq<ArbitrageOpportunity>, answers: nat -> ChainAnswers, client: FastLaneClient,
                            flashLoanContract: Address, s: Submission)
  {
    && s.index < |opps|
    && ShouldExecute(opps[s.index].expectedProfit, answers(s.index).gateGasPrice) == Ok(true)
    && answers(s.index).bundleGasPrice.Ok?
    && CreateArbitrageBundle(client, flashLoanContract, answers(s.index).bundleGasPrice.value, answers(s.index).blockNumber) == Ok(s.bundle)
    && SubmitBundle(s.bundle, answers(s.index).relay) == Ok(s.bundleHash)
  }

  lemma StepIsJustified(opps: seq<ArbitrageOpportunity>, answers: nat -> ChainAnswers, client: FastLaneClient,
                        flashLoanContract: Address, i: nat)
    requires i < |opps|
    requires ExecuteStep(i, opps[i], answers(i), client, flashLoanContract).Ok?
    ensures var step := ExecuteStep(i, opps[i], answers(i), client, flashLoanContract);
      step.value.Some? ==> step.value.value.index == i && Justified(opps, answers, client, flashLoanContract, step.value.value)
  {
  }

  /** Submissions follow the snapshot's order from position `i` on, each
      opportunity at most once, and each is justified. */
  ghost predicate OrderedAndJustified(opps: seq<ArbitrageOpportunity>, answers: nat -> ChainAnswers, client: FastLaneClient,
                                      flashLoanContract: Address, i: nat, subs: seq<Submission>)
  {
    && (forall k :: 0 <= k < |subs| ==> i <= subs[k].index)
    && (forall k, l :: 0 <= k < l < |subs| ==> subs[k].index < subs[l].index)
    && (forall k :: 0 <= k < |subs| ==> Justified(opps, answers, client, flashLoanContract, subs[k]))
  }

  lemma OrderedAndJustifiedExtends(opps: seq<ArbitrageOpportunity>, answers: nat -> ChainAnswers, client: FastLaneClient,
                                   flashLoanContract: Address, i: nat, head: seq<Submission>, subs: seq<Submission>)
    requires OrderedAndJustified(opps, answers, client, flashLoanContract, i + 1, subs)
    requires |head| <= 1
    requires forall k :: 0 <= k < |head| ==> head[k].index == i && Justified(opps, answers, client, flashLoanContract, head[k])
    ensures OrderedAndJustified(opps, answers, client, flashLoanContract, i, head + subs)
  {
    assert forall k :: |head| <= k < |head + subs| ==> (head + subs)[k] == subs[k - |head|];
  }

  lemma {:induction false} SubmissionsAreOrderedAndJustified(opps: seq<ArbitrageOpportunity>, answers: nat -> ChainAnswers,
                                                             client: FastLaneClient, flashLoanContract: Address, i: nat)
    requires i <= |opps|
    ensures OrderedAndJustified(opps, answers, client, flashLoanContract, i, ExecuteFrom(opps, answers, client, flashLoanContract, i).submitted)
    decreases |opps| - i
  {
    if i < |opps| {
      var r := ExecuteFrom(opps, answers, client, flashLoanContract, i);
      var step := ExecuteStep(i, opps[i], answers(i), client, flashLoanContract);
      var rest := ExecuteFrom(opps, answers, client, flashLoanContract, i + 1);
      SubmissionsAreOrderedAndJustified(opps, answers, client, flashLoanContract, i + 1);
      if step.Ok? {
        StepIsJustified(opps, answers, client, flashLoanContract, i);
        var head := if step.value.Some? then [step.value.value] else [];
        assert r.submitted == head + rest.submitted;
        OrderedAndJustifiedExtends(opps, answers, client, flashLoanContract, i, head, rest.submitted);
      }
    }
  }

  /** Every opportunity from position `i` on that passes the gate has a
      submission in `subs`. */
  ghost predicate CoversProfitable(opps: seq<ArbitrageOpportunity>, answers: nat -> ChainAnswers, i: nat, subs: seq<Submission>)
  {
    forall j :: i <= j < |opps| && ShouldExecute(opps[j].expectedProfit, answers(j).gateGasPrice) == Ok(true) ==>
      exists k :: 0 <= k < |subs| && subs[k].index == j
  }

  lemma CoversProfitableExtends(opps: seq<ArbitrageOpportunity>, answers: nat -> ChainAnswers, i: nat,
                                head: seq<Submission>, subs: seq<Submission>)
    requires i < |opps|
    requires CoversProfitable(opps, answers, i + 1, subs)
    requires ShouldExecute(opps[i].expectedProfit, answers(i).gateGasPrice) == Ok(true) ==> |head| == 1 && head[0].index == i
    ensures CoversProfitable(opps, answers, i, head + subs)
  {
    forall j | i <= j < |opps| && ShouldExecute(opps[j].expectedProfit, answers(j).gateGasPrice) == Ok(true)
      ensures exists k :: 0 <= k < |head + subs| && (head + subs)[k].index == j
    {
      if j == i {
        assert (head + subs)[0].index == i;
      } else {
        var k :| 0 <= k < |subs| && subs[k].index == j;
        assert (head + subs)[|head| + k] == subs[k];
      }
    }
  }

  /** A cycle that completes submits a bundle for every opportunity that passes
      the gate. */
  lemma {:induction false} CompletedCycleSubmitsEveryProfitable(opps: seq<ArbitrageOpportunity>, answers: nat -> ChainAnswers,
                                                               client: FastLaneClient, flashLoanContract: Address, i: nat)
    requires i <= |opps|
    requires ExecuteFrom(opps, answers, client, flashLoanContract, i).outcome.Ok?
    ensures CoversProfitable(opps, answers, i, ExecuteFrom(opps, answers, client, flashLoanContract, i).submitted)
    decreases |opps| - i
  {
    if i < |opps| {
      var r := ExecuteFrom(opps, answers, client, flashLoanContract, i);
      var step := ExecuteStep(i, opps[i], answers(i), client, flashLoanContract);
      var rest := ExecuteFrom(opps, answers, client, flashLoanContract, i + 1);
      CompletedCycleSubmitsEveryProfitable(opps, answers, client, flashLoanContract, i + 1);
      var head := if step.value.Some? then [step.value.value] else [];
      assert r.submitted == head + rest.submitted;
      CoversProfitableExtends(opps, answers, i, head, rest.submitted);
    }
  }

  /** The cycle from position `i` on stopped at position `j`: every earlier
      step succeeded, step `j` failed with `error`, and nothing at or after `j`
      was submitted. */
  ghost predicate StoppedAt(opps: seq<ArbitrageOpportunity>, answers: nat -> ChainAnswers, client: FastLaneClient,
                            flashLoanContract: Address, i: nat, j: nat, error: Error, subs: seq<Submission>)
  {
    && i <= j < |opps|
    && ExecuteStep(j, opps[j], answers(j), client, flashLoanContract) == Err(error)
    && (forall m :: i <= m < j ==> ExecuteStep(m, opps[m], answers(m), client, flashLoanContract).Ok?)
    && (forall k :: 0 <= k < |subs| ==> subs[k].index < j)
  }

  lemma StoppedAtExtends(opps: seq<ArbitrageOpportunity>, answers: nat -> ChainAnswers, client: FastLaneClient,
                         flashLoanContract: Address, i: nat, j: nat, error: Error, head: seq<Submission>, subs: seq<Submission>)
    requires i < |opps|
    requires ExecuteStep(i, opps[i], answers(i), client, flashLoanContract).Ok?
    requires StoppedAt(opps, answers, client, flashLoanContract, i + 1, j, error, subs)
    requires forall k :: 0 <= k < |head| ==> head[k].index == i
    ensures StoppedAt(opps, answers, client, flashLoanContract, i, j, error, head + subs)
  {
    assert forall k :: |head| <= k < |head + subs| ==> (head + subs)[k] == subs[k - |head|];
  }

  /** A cycle that fails stops at the first opportunity whose handling failed,
      with that error, and submits nothing at or after it. */
  lemma {:induction false} FailedCycleStopsAtFirstError(opps: seq<ArbitrageOpportunity>, answers: nat -> ChainAnswers,
                                                        client: FastLaneClient, flashLoanContract: Address, i: nat)
    requires i <= |opps|
    requires ExecuteFrom(opps, answers, client, flashLoanContract, i).outcome.Err?
    ensures exists j :: StoppedAt(opps, answers, client, flashLoanContract, i, j,
                                  ExecuteFrom(opps, answers, client, flashLoanContract, i).outcome.error,
                                  ExecuteFrom(opps, answers, client, flashLoanContract, i).submitted)
    decreases |opps| - i
  {
    var r := ExecuteFrom(opps, answers, client, flashLoanContract, i);
    var step := ExecuteStep(i, opps[i], answers(i), client, flashLoanContract);
    if step.Err? {
      assert StoppedAt(opps, answers, client, flashLoanContract, i, i, r.outcome.error, r.submitted);
    } else {
      var rest := ExecuteFrom(opps, answers, client, flashLoanContract, i + 1);
      FailedCycleStopsAtFirstError(opps, answers, client, flashLoanContract, i + 1);
      var j :| StoppedAt(opps, answers, client, flashLoanContract, i + 1, j, rest.outcome.error, rest.submitted);
      var head := if step.value.Some? then [step.value.value] else [];
      assert r.submitted == head + rest.submitted && r.outcome == rest.outcome;
      StoppedAtExtends(opps, answers, client, flashLoanContract, i, j, rest.outcome.error, head, rest.submitted);
    }
  }

  class MempoolMonitor {
    const flashLoanContract: Address
    const fastlaneClient: FastLaneClient
    const simulationEngine: AdvancedSimulationEngine
    var opportunities: seq<ArbitrageOpportunity>
    var processedTxs: set<Hash>

    /** The engine's cache holds only producible results, and every stored
        opportunity has the shape the analysis gives it. */
    ghost predicate Valid()
      reads this, simulationEngine
    {
      && simulationEngine.Valid()
      && forall k :: 0 <= k < |opportunities| ==> Materialised(opportunities[k])
    }

    /** `MempoolMonitor::new`: empty store and empty dedup set. */
    constructor (contractAddress: Address, fastlaneAddress: Address, solverAddress: Address)
      ensures Valid()
      ensures flashLoanContract == contractAddress
      ensures fastlaneClient == FastLaneClient(fastlaneAddress, solverAddress)
      ensures fresh(simulationEngine) && simulationEngine.simulationCache == map[]
      ensures opportunities == [] && processedTxs == {}
    {
      flashLoanContract := contractAddress;
      fastlaneClient := FastLaneClient(fastlaneAddress, solverAddress);
      simulationEngine := new AdvancedSimulationEngine();
      opportunities := [];
      processedTxs := {};
    }

    /** `analyze_arbitrage`: simulate (through the engine's cache), then turn a
        result above the threshold into an opportunity. */
    method AnalyzeArbitrage(tx: Transaction, gasPrice: Answer<U256>, lookups: PathLookups)
      returns (r: Result<Option<ArbitrageOpportunity>>)
      requires Valid()
      modifies simulationEngine
      ensures Valid()
      ensures r == Analysis(old(simulationEngine.simulationCache), tx, gasPrice, lookups)
      ensures simulationEngine.simulationCache == CacheAfter(old(simulationEngine.simulationCache), tx.hash, gasPrice)
      ensures r != Err(IndexOutOfBounds)
      ensures r.Ok? && r.value.Some? ==> Materialised(r.value.value)
    {
      AnalysisNeverIndexesEmptyPath(simulationEngine.simulationCache, tx, gasPrice, lookups);
      var simulationResult :- simulationEngine.SimulateMultiDexArbitrage(tx, SIMULATION_DEPTH, gasPrice);
      r := Materialise(simulationResult, lookups);
    }

    /** `process_transaction`: a hash seen before is skipped; otherwise it is
        marked processed before the analysis (so a failed analysis is never
        retried) and an opportunity found is appended to the store. */
    method ProcessTransaction(tx: Transaction, gasPrice: Answer<U256>, lookups: PathLookups)
      returns (r: Result<()>)
      requires Valid()
      modifies this, simulationEngine
      ensures Valid()
      ensures processedTxs == old(processedTxs) + {tx.hash}
      ensures old(tx.hash in processedTxs) ==>
        && r == Ok(())
        && opportunities == old(opportunities)
        && simulationEngine.simulationCache == old(simulationEngine.simulationCache)
      ensures old(tx.hash !in processedTxs) ==>
        var a := Analysis(old(simulationEngine.simulationCache), tx, gasPrice, lookups);
        && r == (if a.Err? then Err(a.error) else Ok(()))
        && opportunities == (if a.Ok? && a.value.Some? then old(opportunities) + [a.value.value] else old(opportunities))
        && simulationEngine.simulationCache == CacheAfter(old(simulationEngine.simulationCache), tx.hash, gasPrice)
    {
      if tx.hash in processedTxs {
        return Ok(());
      }
      processedTxs := processedTxs + {tx.hash};
      var opportunity :- AnalyzeArbitrage(tx, gasPrice, lookups);
      if opportunity.Some? {
        opportunities := opportunities + [opportunity.value];
      }
      r := Ok(());
    }

    /** `execute_opportunities`: one cycle over a snapshot of the store. */
    method ExecuteOpportunities(answers: nat -> ChainAnswers) returns (report: ExecReport)
      ensures report == ExecuteFrom(opportunities, answers, fastlaneClient, flashLoanContract, 0)
    {
      var snapshot := opportunities;
      var submitted: seq<Submission> := [];
      for i := 0 to |snapshot|
        invariant ExecuteFrom(snapshot, answers, fastlaneClient, flashLoanContract, 0)
          == After(submitted, ExecuteFrom(snapshot, answers, fastlaneClient, flashLoanContract, i))
      {
        var step := ExecuteStep(i, snapshot[i], answers(i), fastlaneClient, flashLoanContract);
        if step.Err? {
          return ExecReport(submitted, Err(step.error));
        }
        if step.value.Some? {
          ghost var rest := ExecuteFrom(snapshot, answers, fastlaneClient, flashLoanContract, i + 1);
          assert submitted + ([step.value.value] + rest.submitted) == submitted + [step.value.value] + rest.submitted;
          submitted := submitted + [step.value.value];
        }
      }
      assert submitted + [] == submitted;
      return ExecReport(submitted, Ok(()));
    }
  }

  /** Deduplication: a transaction handed to the monitor twice is analysed only
      the first time; the second call succeeds and changes neither the store
      nor the simulation cache, so both calls together change them exactly as
      the first call alone does. */
  method ProcessTwice(monitor: MempoolMonitor, tx: Transaction, g1: Answer<U256>, g2: Answer<U256>, lookups: PathLookups)
    returns (first: Result<()>, second: Result<()>)
    requires monitor.Valid()
    modifies monitor, monitor.simulationEngine
    ensures monitor.Valid()
    ensures second == Ok(())
    ensures monitor.processedTxs == old(monitor.processedTxs) + {tx.hash}
    ensures old(tx.hash in monitor.processedTxs) ==>
      && monitor.opportunities == old(monitor.opportunities)
      && monitor.simulationEngine.simulationCache == old(monitor.simulationEngine.simulationCache)
    ensures old(tx.hash !in monitor.processedTxs) ==>
      var a := Analysis(old(monitor.simulationEngine.simulationCache), tx, g1, lookups);
      && monitor.opportunities == (if a.Ok? && a.value.Some? then old(monitor.opportunities) + [a.value.value] else old(monitor.opportunities))
      && monitor.simulationEngine.simulationCache == CacheAfter(old(monitor.simulationEngine.simulationCache), tx.hash, g1)
  {
    first := monitor.ProcessTransaction(tx, g1, lookups);
    second := monitor.ProcessTransaction(tx, g2, lookups);
  }
}
