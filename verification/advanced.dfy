/** Sandwich detection: pick the pending transactions whose simulated price
    impact clears a threshold and wrap each in a frontrun / victim / backrun
    bundle. */
module Advanced {
  import opened Wrappers
  import opened Eth

  /** Price impact, in basis points, a victim must exceed (2%). */
  const IMPACT_THRESHOLD: U256 := 200

  datatype SandwichOpportunity = SandwichOpportunity(
    victimTx: Transaction,
    frontrunAmount: U256,
    backrunAmount: U256,
    expectedProfit: U256,
    path: seq<Address>)

  /** The helpers `simulate_price_impact`, `find_optimal_sandwich_amounts` and
      `get_sandwich_path`, whose code is not part of this model: they enter as
      functions of the transaction that may fail. */
  datatype SandwichOracle = SandwichOracle(
    simulatePriceImpact: Transaction -> Result<U256>,
    findOptimalSandwichAmounts: Transaction -> Result<(U256, U256, U256)>,
    getSandwichPath: Transaction -> Result<seq<Address>>)

  /** `analyze_sandwich`: an opportunity exactly when the simulated impact is
      strictly above the threshold; its amounts are the optimal-amounts triple
      in order and its victim the transaction itself. */
  function AnalyzeSandwich(o: SandwichOracle, tx: Transaction): (r: Result<Option<SandwichOpportunity>>)
    ensures r == Ok(None) <==> o.simulatePriceImpact(tx).Ok? && o.simulatePriceImpact(tx).value <= IMPACT_THRESHOLD
    ensures o.simulatePriceImpact(tx).Err? ==> r == Err(o.simulatePriceImpact(tx).error)
    ensures o.simulatePriceImpact(tx).Ok? && o.simulatePriceImpact(tx).value > IMPACT_THRESHOLD ==>
      && (r.Ok? <==> o.findOptimalSandwichAmounts(tx).Ok? && o.getSandwichPath(tx).Ok?)
      && (r.Ok? ==> r.value.Some?)
      && (o.findOptimalSandwichAmounts(tx).Err? ==> r == Err(o.findOptimalSandwichAmounts(tx).error))
      && (o.findOptimalSandwichAmounts(tx).Ok? && o.getSandwichPath(tx).Err? ==> r == Err(o.getSandwichPath(tx).error))
    ensures r.Ok? && r.value.Some? ==>
      var op := r.value.value;
      var amounts := o.findOptimalSandwichAmounts(tx);
      && o.simulatePriceImpact(tx).value > IMPACT_THRESHOLD
      && amounts.Ok? && o.getSandwichPath(tx).Ok?
      && op == SandwichOpportunity(tx, amounts.value.0, amounts.value.1, amounts.value.2, o.getSandwichPath(tx).value)
  {
    var impact :- o.simulatePriceImpact(tx);
    if impact > IMPACT_THRESHOLD then
      var amounts :- o.findOptimalSandwichAmounts(tx);
      var path :- o.getSandwichPath(tx);
      Ok(Some(SandwichOpportunity(tx, amounts.0, amounts.1, amounts.2, path)))
    else
      Ok(None)
  }

  /** The opportunities found in `txs`, in order; the first failing analysis
      fails the whole call. */
  function Detect(o: SandwichOracle, txs: seq<Transaction>): Result<seq<SandwichOpportunity>>
    decreases |txs|
  {
    if txs == [] then Ok([])
    else
      var first :- AnalyzeSandwich(o, txs[0]);
      var rest :- Detect(o, txs[1..]);
      Ok((if first.Some? then [first.value] else []) + rest)
  }

  /** `acc` followed by the outcome of a detection run, when it succeeded. */
  function Prepend(acc: seq<SandwichOpportunity>, r: Result<seq<SandwichOpportunity>>): Result<seq<SandwichOpportunity>> {
    if r.Err? then r else Ok(acc + r.value)
  }

  lemma PrependAssociative(acc: seq<SandwichOpportunity>, more: seq<SandwichOpportunity>, r: Result<seq<SandwichOpportunity>>)
    ensures Prepend(acc, Prepend(more, r)) == Prepend(acc + more, r)
    ensures Prepend([], r) == r
  {
    if r.Ok? {
      assert acc + (more + r.value) == acc + more + r.value;
      assert [] + r.value == r.value;
    }
  }

  /** The pending transactions the analysis turns into opportunities, in order. */
  function Flagged(o: SandwichOracle, txs: seq<Transaction>): seq<Transaction>
    decreases |txs|
  {
    if txs == [] then []
    else
      var a := AnalyzeSandwich(o, txs[0]);
      (if a.Ok? && a.value.Some? then [txs[0]] else []) + Flagged(o, txs[1..])
  }

  function Victims(ops: seq<SandwichOpportunity>): seq<Transaction> {
    seq(|ops|, k requires 0 <= k < |ops| => ops[k].victimTx)
  }

  /** Detection keeps input order and drops nothing it should keep: the victims
      of the detected opportunities are exactly the flagged transactions, in
      input order, and each opportunity is the analysis of its own victim. */
  lemma {:induction false} DetectKeepsFlaggedInOrder(o: SandwichOracle, txs: seq<Transaction>)
    requires Detect(o, txs).Ok?
    ensures Victims(Detect(o, txs).value) == Flagged(o, txs)
    ensures forall k :: 0 <= k < |Detect(o, txs).value| ==>
      AnalyzeSandwich(o, Detect(o, txs).value[k].victimTx) == Ok(Some(Detect(o, txs).value[k]))
  {
    if txs != [] {
      DetectKeepsFlaggedInOrder(o, txs[1..]);
      var first := AnalyzeSandwich(o, txs[0]).value;
      var rest := Detect(o, txs[1..]).value;
      var head := if first.Some? then [first.value] else [];
      assert Detect(o, txs).value == head + rest;
      assert Victims(head + rest) == Victims(head) + Victims(rest);
    }
  }

  /** Detection fails exactly when the analysis of some transaction fails. */
  lemma {:induction false} DetectFailsIffSomeAnalysisFails(o: SandwichOracle, txs: seq<Transaction>)
    ensures Detect(o, txs).Err? <==> exists j :: 0 <= j < |txs| && AnalyzeSandwich(o, txs[j]).Err?
  {
    if txs != [] {
      DetectFailsIffSomeAnalysisFails(o, txs[1..]);
      if AnalyzeSandwich(o, txs[0]).Ok? && exists j :: 0 <= j < |txs| && AnalyzeSandwich(o, txs[j]).Err? {
        var j :| 0 <= j < |txs| && AnalyzeSandwich(o, txs[j]).Err?;
        assert txs[1..][j - 1] == txs[j];
      }
    }
  }

  /** `detect_sandwich_opportunities`: analyse each pending transaction in turn
      and push every opportunity found. */
  method DetectSandwichOpportunities(o: SandwichOracle, pendingTxs: seq<Transaction>)
    returns (r: Result<seq<SandwichOpportunity>>)
    ensures r == Detect(o, pendingTxs)
  {
    var opportunities: seq<SandwichOpportunity> := [];
    assert pendingTxs[0..] == pendingTxs;
    PrependAssociative([], [], Detect(o, pendingTxs));
    for i := 0 to |pendingTxs|
      invariant Detect(o, pendingTxs) == Prepend(opportunities, Detect(o, pendingTxs[i..]))
    {
      assert pendingTxs[i..][1..] == pendingTxs[i + 1..];
      var opportunity :- AnalyzeSandwich(o, pendingTxs[i]);
      var found := if opportunity.Some? then [opportunity.value] else [];
      PrependAssociative(opportunities, found, Detect(o, pendingTxs[i + 1..]));
      opportunities := opportunities + found;
    }
    assert pendingTxs[|pendingTxs|..] == [];
    assert opportunities + [] == opportunities;
    return Ok(opportunities);
  }

  /** `create_frontrun_tx`: a placeholder payload. */
  function CreateFrontrunTx(op: SandwichOpportunity): (r: seq<byte>)
    ensures r == Ascii("0x")
  {
    Ascii("0x")
  }

  /** `create_backrun_tx`: a placeholder payload. */
  function CreateBackrunTx(op: SandwichOpportunity): (r: seq<byte>)
    ensures r == Ascii("0x")
  {
    Ascii("0x")
  }

  /** `create_sandwich_bundle`: frontrun, then the victim's own calldata, then
      backrun. */
  method CreateSandwichBundle(op: SandwichOpportunity) returns (bundle: seq<seq<byte>>)
    ensures |bundle| == 3
    ensures bundle[0] == CreateFrontrunTx(op)
    ensures bundle[1] == op.victimTx.input
    ensures bundle[2] == CreateBackrunTx(op)
  {
    bundle := [];
    var frontrunTx := CreateFrontrunTx(op);
    bundle := bundle + [frontrunTx];
    bundle := bundle + [op.victimTx.input];
    var backrunTx := CreateBackrunTx(op);
    bundle := bundle + [backrunTx];
  }

  /** `send_bundle`: the relay call is a stub that always succeeds. */
  function SendBundle(bundle: seq<seq<byte>>): (r: Result<()>)
    ensures r == Ok(())
  {
    Ok(())
  }

  /** `execute_sandwich_attack`: build the bundle and send it; `sent` is the
      bundle handed to the relay. */
  method ExecuteSandwichAttack(op: SandwichOpportunity) returns (r: Result<()>, sent: seq<seq<byte>>)
    ensures sent == [CreateFrontrunTx(op), op.victimTx.input, CreateBackrunTx(op)]
    ensures r == Ok(())
  {
    var bundle := CreateSandwichBundle(op);
    sent := bundle;
    r := SendBundle(bundle);
  }
}
