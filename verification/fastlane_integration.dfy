/** Bundle construction for the FastLane relay: a flash-loan draw, the
    arbitrage execution and the flash-loan repayment, in that order, and the
    mapping of the relay's receipt to a bundle hash. */
module FastLane {
  import opened Wrappers
  import opened Eth

  const FLASH_LOAN_GAS: U256 := 300000
  const ARBITRAGE_GAS: U256 := 500000
  const REPAYMENT_GAS: U256 := 200000

  datatype FastLaneTransaction = FastLaneTransaction(tx: Transaction, canRevert: bool)

  datatype FastLaneBundle = FastLaneBundle(
    transactions: seq<FastLaneTransaction>,
    blockNumber: U64,
    minTimestamp: Option<U256>,
    maxTimestamp: Option<U256>,
    revertingTxHashes: seq<Hash>)

  /** The relay contract and the solver contract the client was built with. */
  datatype FastLaneClient = FastLaneClient(fastlaneContract: Address, solverContract: Address)

  /** The part of a transaction receipt the client reads. */
  datatype TransactionReceipt = TransactionReceipt(transactionHash: Hash)

  /** The relay as seen from `submit_bundle`: sending the bundle and awaiting
      the pending transaction either fails, or yields a receipt or none. */
  type Relay = FastLaneBundle -> Answer<Option<TransactionReceipt>>

  /** A call transaction with every field not named left at its default
      (hash, sender and value zero). */
  function CallTx(to: Address, gasPrice: U256, gas: U256, input: seq<byte>): Transaction {
    Transaction(0, 0, Some(to), 0, gasPrice, gas, input)
  }

  /** `create_flash_loan_tx`. */
  function CreateFlashLoanTx(flashLoanContract: Address, gasPrice: U256): (r: Transaction)
    ensures r.to == Some(flashLoanContract) && r.value == 0 && r.gasPrice == gasPrice && r.gas == 300000
    ensures r.input == Ascii("flash_loan_call_data") && r.hash == 0 && r.from == 0
  {
    CallTx(flashLoanContract, gasPrice, FLASH_LOAN_GAS, Ascii("flash_loan_call_data"))
  }

  /** `create_arbitrage_tx`. */
  function CreateArbitrageTx(client: FastLaneClient, gasPrice: U256): (r: Transaction)
    ensures r.to == Some(client.solverContract) && r.value == 0 && r.gasPrice == gasPrice && r.gas == 500000
    ensures r.input == Ascii("arbitrage_execution_data") && r.hash == 0 && r.from == 0
  {
    CallTx(client.solverContract, gasPrice, ARBITRAGE_GAS, Ascii("arbitrage_execution_data"))
  }

  /** `create_repayment_tx`. */
  function CreateRepaymentTx(flashLoanContract: Address, gasPrice: U256): (r: Transaction)
    ensures r.to == Some(flashLoanContract) && r.value == 0 && r.gasPrice == gasPrice && r.gas == 200000
    ensures r.input == Ascii("repayment_data") && r.hash == 0 && r.from == 0
  {
    CallTx(flashLoanContract, gasPrice, REPAYMENT_GAS, Ascii("repayment_data"))
  }

  /** `create_arbitrage_bundle`: three legs, flash loan, arbitrage, repayment,
      of which only the arbitrage may revert, aimed at the block the provider
      reports (no +1) with no timestamp window and no reverting hashes.  A
      failed block-number query is the only way it fails. */
  function CreateArbitrageBundle(client: FastLaneClient, flashLoanContract: Address, gasPrice: U256, blockNumber: Result<U64>)
    : (r: Result<FastLaneBundle>)
    ensures blockNumber.Err? ==> r == Err(blockNumber.error)
    ensures blockNumber.Ok? ==> r.Ok?
    ensures r.Ok? ==>
      var b := r.value;
      && |b.transactions| == 3
      && b.transactions[0].tx == CreateFlashLoanTx(flashLoanContract, gasPrice)
      && b.transactions[1].tx == CreateArbitrageTx(client, gasPrice)
      && b.transactions[2].tx == CreateRepaymentTx(flashLoanContract, gasPrice)
      && !b.transactions[0].canRevert && b.transactions[1].canRevert && !b.transactions[2].canRevert
      && b.transactions[0].tx.to == Some(flashLoanContract)
      && b.transactions[1].tx.to == Some(client.solverContract)
      && b.transactions[2].tx.to == Some(flashLoanContract)
      && b.transactions[0].tx.gas == 300000 && b.transactions[1].tx.gas == 500000 && b.transactions[2].tx.gas == 200000
      && (forall k :: 0 <= k < 3 ==> b.transactions[k].tx.value == 0 && b.transactions[k].tx.gasPrice == gasPrice)
      && b.blockNumber == blockNumber.value
      && b.minTimestamp.None? && b.maxTimestamp.None?
      && b.revertingTxHashes == []
  {
    var flashLoanTx := CreateFlashLoanTx(flashLoanContract, gasPrice);
    var arbitrageTx := CreateArbitrageTx(client, gasPrice);
    var repaymentTx := CreateRepaymentTx(flashLoanContract, gasPrice);
    var transactions := [
      FastLaneTransaction(flashLoanTx, false),
      FastLaneTransaction(arbitrageTx, true),
      FastLaneTransaction(repaymentTx, false)
    ];
    var block :- blockNumber;
    Ok(FastLaneBundle(transactions, block, None, None, []))
  }

  /** `submit_bundle`: hand the bundle to the relay; a receipt yields its
      transaction hash, no receipt is a submission failure, and a failure of
      the send itself propagates. */
  function SubmitBundle(bundle: FastLaneBundle, relay: Relay): (r: Result<Hash>)
    ensures relay(bundle).Err? ==> r == Err(relay(bundle).error)
    ensures relay(bundle) == Ok(None) ==> r == Err(BundleSubmissionFailed)
    ensures r.Ok? <==> relay(bundle).Ok? && relay(bundle).value.Some?
    ensures r.Ok? ==> r.value == relay(bundle).value.value.transactionHash
  {
    var receipt :- relay(bundle);
    if receipt.Some? then Ok(receipt.value.transactionHash)
    else Err(BundleSubmissionFailed)
  }
}
