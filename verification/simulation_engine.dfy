/** The opportunity simulator: a per-transaction-hash memo cache in front of a
    search over candidate arbitrage cycles that keeps the most profitable one. */
module SimulationEngine {
  import opened Wrappers
  import opened Eth

  const WMATIC: Address := 0x0d500B1d8E8eF31E21C99d1Db9A6444d3ADf1270
  const USDC: Address := 0x2791Bca1f2de4661ED88A30C99A7a9449Aa84174
  const USDT: Address := 0xc2132D05D31c914a87C6611C10748AEb04B58e8F

  /** A hop path: the tokens visited, in order. */
  type Path = seq<Address>

  const ThreeHop: Path := [WMATIC, USDC, WMATIC]
  const FourHop: Path := [WMATIC, USDT, USDC, WMATIC]

  /** Gas units assumed for a whole arbitrage. */
  const GAS_UNITS: U256 := 300000

  /** What `calculate_path_profit` yields for every path: 15^15 - 2^15 - 1^15. */
  const PATH_PROFIT: U256 := 437893890380826606

  /** The simulator's verdict on a transaction.  The floating-point success
      probability of the source is not part of the model. */
  datatype SimulationResult = SimulationResult(
    priceImpact: U256,
    expectedProfit: U256,
    gasEstimate: U256,
    optimalPath: Path)

  /** `generate_arbitrage_paths`: the two hard-wired WMATIC cycles, pushed one
      after the other; `depth` is not consulted. */
  method GenerateArbitragePaths(depth: nat) returns (paths: seq<Path>)
    ensures |paths| == 2
    ensures paths[0] == [WMATIC, USDC, WMATIC] && paths[1] == [WMATIC, USDT, USDC, WMATIC]
    ensures forall p <- paths :: |p| >= 3 && p[0] == WMATIC && p[|p| - 1] == WMATIC
  {
    paths := [];
    paths := paths + [ThreeHop];
    paths := paths + [FourHop];
  }

  /** The paths `GenerateArbitragePaths` produces. */
  const CandidatePaths: seq<Path> := [ThreeHop, FourHop]

  lemma PowConstants()
    ensures Pow(15, 15) == 437893890380859375
    ensures Pow(2, 15) == 32768
    ensures Pow(1, 15) == 1
  {
    PowAdd(15, 5, 5);
    PowAdd(15, 10, 5);
    PowAdd(2, 5, 10);
    PowAdd(2, 5, 5);
    PowAdd(1, 5, 10);
    PowAdd(1, 5, 5);
  }

  /** `calculate_total_fees`: 2^15 whatever the path. */
  function CalculateTotalFees(path: Path): (r: U256)
    ensures r == 32768
  {
    PowConstants();
    Pow(2, 15)
  }

  /** `estimate_slippage`: 1^15 whatever the path. */
  function EstimateSlippage(path: Path): (r: U256)
    ensures r == 1
  {
    PowConstants();
    Pow(1, 15)
  }

  /** `calculate_path_profit`: the base profit 15^15 less fees less slippage,
      each subtraction a U256 subtraction that would panic on underflow.  For
      these constants neither underflows, and every path earns the same. */
  function CalculatePathProfit(path: Path): (r: Result<U256>)
    ensures r == Ok(PATH_PROFIT)
  {
    PowConstants();
    var afterFees := CheckedSub(Pow(15, 15), CalculateTotalFees(path));
    if afterFees.Err? then afterFees
    else CheckedSub(afterFees.value, EstimateSlippage(path))
  }

  /** `calculate_price_impact`: 150 (1.5%) whatever the path. */
  function CalculatePriceImpact(path: Path): (r: U256)
    ensures r == 150
  {
    150
  }

  /** `estimate_gas_cost`: the provider's gas price times 300000 gas units; a
      failed gas-price query propagates, an overflowing product panics. */
  function EstimateGasCost(gasPrice: Result<U256>): (r: Result<U256>)
    ensures gasPrice.Err? ==> r == gasPrice
    ensures gasPrice.Ok? ==> (r.Ok? <==> gasPrice.value * 300000 < U256_LIMIT)
    ensures r.Ok? ==> r.value == gasPrice.value * 300000
    ensures gasPrice.Ok? && r.Err? ==> r.error == ArithmeticOverflow
  {
    var g :- gasPrice;
    CheckedMul(g, GAS_UNITS)
  }

  // ---- best-path selection ----------------------------------------------------

  /** A profit model: the expected profit of a path, or why it could not be had. */
  type ProfitModel = Path -> Result<U256>

  datatype Best = Best(profit: U256, path: Path)

  /** The selection loop of `simulate_complex_path`, run over `paths` from the
      running best `best`: a path replaces the best only when its profit is
      strictly greater, and the first failing profit aborts the scan. */
  function Scan(paths: seq<Path>, profitOf: ProfitModel, best: Best): Result<Best>
    decreases |paths|
  {
    if paths == [] then Ok(best)
    else
      var profit :- profitOf(paths[0]);
      Scan(paths[1..], profitOf, if profit > best.profit then Best(profit, paths[0]) else best)
  }

  /** `paths[k]` is the first path whose profit reaches `b.profit`, and that
      profit beats `floor`. */
  ghost predicate FirstMaximumAt(paths: seq<Path>, profitOf: ProfitModel, k: nat, floor: U256, b: Best)
    requires k < |paths|
  {
    && b.path == paths[k]
    && profitOf(paths[k]) == Ok(b.profit)
    && b.profit > floor
    && forall j :: 0 <= j < k ==> profitOf(paths[j]).Ok? && profitOf(paths[j]).value < b.profit
  }

  /** The scan fails exactly when some path's profit fails. */
  lemma {:induction false} ScanFailsIffSomeProfitFails(paths: seq<Path>, profitOf: ProfitModel, best: Best)
    ensures Scan(paths, profitOf, best).Err? <==> exists j :: 0 <= j < |paths| && profitOf(paths[j]).Err?
  {
    if paths != [] {
      var profit := profitOf(paths[0]);
      if profit.Ok? {
        var next := if profit.value > best.profit then Best(profit.value, paths[0]) else best;
        ScanFailsIffSomeProfitFails(paths[1..], profitOf, next);
        if exists j :: 0 <= j < |paths| && profitOf(paths[j]).Err? {
          var j :| 0 <= j < |paths| && profitOf(paths[j]).Err?;
          assert paths[1..][j - 1] == paths[j];
        }
      }
    }
  }

  /** Argmax: the scan ends on a profit no smaller than the starting best and no
      smaller than any path's; and it either keeps the starting best or ends on
      the FIRST path attaining the maximum, which then beats the starting best. */
  lemma {:induction false} ScanIsFirstMaximum(paths: seq<Path>, profitOf: ProfitModel, best: Best)
    requires Scan(paths, profitOf, best).Ok?
    ensures var b := Scan(paths, profitOf, best).value;
      && best.profit <= b.profit
      && (forall j :: 0 <= j < |paths| ==> profitOf(paths[j]).Ok? && profitOf(paths[j]).value <= b.profit)
      && (b == best || exists k :: 0 <= k < |paths| && FirstMaximumAt(paths, profitOf, k, best.profit, b))
  {
    if paths != [] {
      var p := profitOf(paths[0]).value;
      var next := if p > best.profit then Best(p, paths[0]) else best;
      var b := Scan(paths, profitOf, best).value;
      assert Scan(paths[1..], profitOf, next) == Scan(paths, profitOf, best);
      ScanIsFirstMaximum(paths[1..], profitOf, next);
      forall j | 0 <= j < |paths|
        ensures profitOf(paths[j]).Ok? && profitOf(paths[j]).value <= b.profit
      {
        if j > 0 {
          assert paths[1..][j - 1] == paths[j];
        }
      }
      if b == next {
        if next != best {
          assert FirstMaximumAt(paths, profitOf, 0, best.profit, b);
        }
      } else {
        var k :| 0 <= k < |paths[1..]| && FirstMaximumAt(paths[1..], profitOf, k, next.profit, b);
        assert paths[1..][k] == paths[k + 1];
        forall j | 0 <= j < k + 1
          ensures profitOf(paths[j]).Ok? && profitOf(paths[j]).value < b.profit
        {
          if j > 0 {
            assert paths[1..][j - 1] == paths[j];
          }
        }
        assert FirstMaximumAt(paths, profitOf, k + 1, best.profit, b);
      }
    }
  }

  /** A simulation result as the selection can produce it: no profit and no
      path, or a positive profit on one of the candidate paths. */
  ghost predicate WellFormed(s: SimulationResult) {
    && (s.expectedProfit == 0 ==> s.optimalPath == [])
    && (s.expectedProfit > 0 ==> s.optimalPath in CandidatePaths)
  }

  /** `simulate_complex_path` as a function of the gas-price answer and the
      profit model: scan the candidates from a zero best with an empty path,
      then price impact and gas estimate of the chosen path. */
  function ComplexPath(gasPrice: Result<U256>, profitOf: ProfitModel): Result<SimulationResult> {
    var best :- Scan(CandidatePaths, profitOf, Best(0, []));
    var gasEstimate :- EstimateGasCost(gasPrice);
    Ok(SimulationResult(CalculatePriceImpact(best.path), best.profit, gasEstimate, best.path))
  }

  /** Whatever the profit model, a result reports the best candidate's profit,
      ties going to the earlier candidate, and an empty path when no candidate
      earns anything. */
  lemma ComplexPathSelectsFirstMaximum(gasPrice: Result<U256>, profitOf: ProfitModel)
    requires ComplexPath(gasPrice, profitOf).Ok?
    ensures var s := ComplexPath(gasPrice, profitOf).value;
      && WellFormed(s)
      && (forall j :: 0 <= j < |CandidatePaths| ==>
            profitOf(CandidatePaths[j]).Ok? && profitOf(CandidatePaths[j]).value <= s.expectedProfit)
      && (s.expectedProfit > 0 ==>
            exists k :: 0 <= k < |CandidatePaths| && FirstMaximumAt(CandidatePaths, profitOf, k, 0, Best(s.expectedProfit, s.optimalPath)))
  {
    var b := Scan(CandidatePaths, profitOf, Best(0, [])).value;
    ScanIsFirstMaximum(CandidatePaths, profitOf, Best(0, []));
    if b != Best(0, []) {
      var k :| 0 <= k < |CandidatePaths| && FirstMaximumAt(CandidatePaths, profitOf, k, 0, b);
      assert b.path in CandidatePaths;
    }
  }

  /** With the source's profit model both cycles earn 15^15 - 2^15 - 1 and tie,
      so the three-hop cycle is chosen; the result fails only when the gas
      estimate does. */
  lemma SimulationPicksThreeHop(gasPrice: Result<U256>)
    ensures var g := EstimateGasCost(gasPrice);
      ComplexPath(gasPrice, CalculatePathProfit)
        == if g.Ok? then Ok(SimulationResult(150, PATH_PROFIT, g.value, ThreeHop)) else Err(g.error)
  {
    var first := Best(PATH_PROFIT, ThreeHop);
    assert Scan(CandidatePaths[1..], CalculatePathProfit, first) == Scan([], CalculatePathProfit, first);
    assert Scan(CandidatePaths, CalculatePathProfit, Best(0, [])) == Ok(first);
  }

  /** `simulate_complex_path`: the argmax loop with a running best that starts
      at zero and is replaced only on a strictly greater profit. */
  method SimulateComplexPath(depth: nat, gasPrice: Result<U256>, profitOf: ProfitModel)
    returns (r: Result<SimulationResult>)
    ensures r == ComplexPath(gasPrice, profitOf)
  {
    var bestProfit: U256 := 0;
    var optimalPath: Path := [];
    var paths := GenerateArbitragePaths(depth);
    assert paths == CandidatePaths;
    for i := 0 to |paths|
      invariant Scan(paths, profitOf, Best(0, [])) == Scan(paths[i..], profitOf, Best(bestProfit, optimalPath))
    {
      var profit :- profitOf(paths[i]);
      if profit > bestProfit {
        bestProfit := profit;
        optimalPath := paths[i];
      }
      assert paths[i..][1..] == paths[i + 1..];
    }
    var gasEstimate :- EstimateGasCost(gasPrice);
    return Ok(SimulationResult(CalculatePriceImpact(optimalPath), bestProfit, gasEstimate, optimalPath));
  }

  // ---- the memo cache -----------------------------------------------------------

  /** What `simulate_multi_dex_arbitrage` returns for a transaction hash given
      the cache it finds. */
  function Simulated(cache: map<Hash, SimulationResult>, hash: Hash, gasPrice: Result<U256>): Result<SimulationResult> {
    if hash in cache then Ok(cache[hash]) else ComplexPath(gasPrice, CalculatePathProfit)
  }

  /** The cache `simulate_multi_dex_arbitrage` leaves behind. */
  function CacheAfter(cache: map<Hash, SimulationResult>, hash: Hash, gasPrice: Result<U256>): map<Hash, SimulationResult> {
    if hash in cache then cache
    else match ComplexPath(gasPrice, CalculatePathProfit)
      case Ok(s) => cache[hash := s]
      case Err(_) => cache
  }

  /** Idempotence: once a simulation of `hash` has succeeded, simulating `hash`
      again returns the very same result, whatever the provider says the next
      time, and leaves the cache as it is. */
  lemma SimulationIdempotent(cache: map<Hash, SimulationResult>, hash: Hash, g1: Result<U256>, g2: Result<U256>)
    requires Simulated(cache, hash, g1).Ok?
    ensures Simulated(CacheAfter(cache, hash, g1), hash, g2) == Simulated(cache, hash, g1)
    ensures CacheAfter(CacheAfter(cache, hash, g1), hash, g2) == CacheAfter(cache, hash, g1)
  {
  }

  class AdvancedSimulationEngine {
    var simulationCache: map<Hash, SimulationResult>

    /** Every cached result is one the selection can produce. */
    ghost predicate Valid()
      reads this
    {
      forall h :: h in simulationCache ==> WellFormed(simulationCache[h])
    }

    constructor ()
      ensures Valid() && simulationCache == map[]
    {
      simulationCache := map[];
    }

    /** `simulate_multi_dex_arbitrage`: answer from the cache on a hit;
        otherwise simulate, and cache the result if the simulation succeeded. */
    method SimulateMultiDexArbitrage(tx: Transaction, depth: nat, gasPrice: Result<U256>)
      returns (r: Result<SimulationResult>)
      requires Valid()
      modifies this
      ensures Valid()
      ensures r == Simulated(old(simulationCache), tx.hash, gasPrice)
      ensures simulationCache == CacheAfter(old(simulationCache), tx.hash, gasPrice)
      ensures old(tx.hash in simulationCache) ==> r == Ok(old(simulationCache)[tx.hash])
      ensures r.Ok? ==> tx.hash in simulationCache && simulationCache[tx.hash] == r.value && WellFormed(r.value)
    {
      if tx.hash in simulationCache {
        return Ok(simulationCache[tx.hash]);
      }
      r := SimulateComplexPath(depth, gasPrice, CalculatePathProfit);
      if r.Ok? {
        ComplexPathSelectsFirstMaximum(gasPrice, CalculatePathProfit);
        simulationCache := simulationCache[tx.hash := r.value];
      }
    }
  }

  /** Two simulations of the same transaction: the second is answered from the
      cache with a result identical to the first. */
  method SimulateTwice(engine: AdvancedSimulationEngine, tx: Transaction, g1: Result<U256>, g2: Result<U256>)
    returns (first: Result<SimulationResult>, second: Result<SimulationResult>)
    requires engine.Valid()
    modifies engine
    ensures engine.Valid()
    ensures first.Ok? ==> second == first
  {
    first := engine.SimulateMultiDexArbitrage(tx, 3, g1);
    second := engine.SimulateMultiDexArbitrage(tx, 3, g2);
  }
}
