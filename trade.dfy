/** Transaction assembly and submission of src/trade.rs. */
module Trade {
  import opened Wrappers
  import opened Primitives
  import opened Sdk
  import ComputeBudget

  datatype Priority = Priority(compute_unit_limit: u32, microlamports_per_cu: u64)

  /** The retry bound both submission modes pass to the node. */
  const MaxRetries: nat := 3

  /** The instruction list a transaction carries. Exactly two
      compute-budget instructions lead, limit first and price second,
      carrying the configured values; the caller's instructions follow
      unchanged and in order, also when there are none. */
  function WithComputeBudget(prio: Priority, ixs: seq<Instruction>): (full: seq<Instruction>)
    ensures |full| == |ixs| + 2 && full[2..] == ixs
    ensures forall i :: 0 <= i < |ixs| ==> full[i + 2] == ixs[i]
    ensures ComputeBudget.FromInstruction(full[0]) == Some(ComputeBudget.SetComputeUnitLimit(prio.compute_unit_limit))
    ensures ComputeBudget.FromInstruction(full[1]) == Some(ComputeBudget.SetComputeUnitPrice(prio.microlamports_per_cu))
  {
    [ComputeBudget.SetComputeUnitLimitIx(prio.compute_unit_limit),
     ComputeBudget.SetComputeUnitPriceIx(prio.microlamports_per_cu)] + ixs
  }

  /** `let mut full_ixs = vec![limit, price]; full_ixs.extend(ixs);` */
  method AssembleInstructions(prio: Priority, ixs: seq<Instruction>) returns (full: seq<Instruction>)
    ensures full == WithComputeBudget(prio, ixs)
    ensures |full| == |ixs| + 2 && full[2..] == ixs
  {
    full := [ComputeBudget.SetComputeUnitLimitIx(prio.compute_unit_limit),
             ComputeBudget.SetComputeUnitPriceIx(prio.microlamports_per_cu)];
    full := full + ixs;
  }

  /** The submission chosen by `skip_preflight`. */
  function SelectMode(skip_preflight: bool): (m: SendMode)
    ensures m.SendOnly? <==> skip_preflight
    ensures m.config.skip_preflight == skip_preflight
    ensures m.config.max_retries == Some(MaxRetries)
    ensures skip_preflight ==> m.config.preflight_commitment == Some(Processed)
    ensures !skip_preflight ==> m.commitment == Processed
    ensures !skip_preflight ==> m.config == DefaultSendConfig.(max_retries := Some(MaxRetries))
  {
    if skip_preflight then
      SendOnly(SendConfig(true, Some(Processed), Some(MaxRetries)))
    else
      SendAndConfirm(Processed, DefaultSendConfig.(max_retries := Some(MaxRetries)))
  }

  /** A transaction handed to the node, with how it was handed over. */
  datatype Submission = Submission(tx: Transaction, mode: SendMode)

  /** The node as the dispatcher sees it. What the node answers to a
      submission is `answer` (the signature text, or an error after the
      node's own retries); `submitted` records every submission in order. */
  class RpcClient {
    const answer: (Transaction, SendMode) -> Result<string, string>
    var submitted: seq<Submission>

    constructor (answer: (Transaction, SendMode) -> Result<string, string>)
      ensures this.answer == answer && submitted == []
    {
      this.answer := answer;
      submitted := [];
    }

    /** `send_transaction_with_config`: returns once the node accepts. */
    method SendTransactionWithConfig(tx: Transaction, config: SendConfig) returns (r: Result<string, string>)
      modifies this
      ensures submitted == old(submitted) + [Submission(tx, SendOnly(config))]
      ensures r == answer(tx, SendOnly(config))
    {
      submitted := submitted + [Submission(tx, SendOnly(config))];
      r := answer(tx, SendOnly(config));
    }

    /** `send_and_confirm_transaction_with_spinner_and_config`: returns once
        the transaction reaches `commitment`, or with the error. */
    method SendAndConfirmTransactionWithSpinnerAndConfig(tx: Transaction, commitment: CommitmentLevel, config: SendConfig)
      returns (r: Result<string, string>)
      modifies this
      ensures submitted == old(submitted) + [Submission(tx, SendAndConfirm(commitment, config))]
      ensures r == answer(tx, SendAndConfirm(commitment, config))
    {
      submitted := submitted + [Submission(tx, SendAndConfirm(commitment, config))];
      r := answer(tx, SendAndConfirm(commitment, config));
    }
  }

  /** `fast_send`: assemble the fee-boosted instruction list, sign it for
      `payer` at `blockhash`, and submit it in the mode `skip_preflight`
      selects. A signing failure is returned before anything is submitted;
      otherwise exactly one submission is made and its answer returned. */
  method FastSend(rpc: RpcClient, payer: Keypair, ixs: seq<Instruction>, blockhash: Hash, prio: Priority,
                  skip_preflight: bool, sign: (Keypair, Message) -> Result<Signature, string>)
    returns (r: Result<string, string>)
    modifies rpc
    ensures var signed := TrySign(NewUnsigned(NewMessage(WithComputeBudget(prio, ixs), payer.pubkey)), payer, blockhash, sign);
      if signed.Failure? then
        r == Failure(signed.error) && rpc.submitted == old(rpc.submitted)
      else
        rpc.submitted == old(rpc.submitted) + [Submission(signed.value, SelectMode(skip_preflight))] &&
        r == rpc.answer(signed.value, SelectMode(skip_preflight))
    ensures |rpc.submitted| <= |old(rpc.submitted)| + 1
    ensures |rpc.submitted| == |old(rpc.submitted)| + 1 ==>
      var tx := rpc.submitted[|rpc.submitted| - 1].tx;
      tx.message.instructions == WithComputeBudget(prio, ixs) &&
      tx.message.fee_payer == payer.pubkey && tx.message.recent_blockhash == blockhash
  {
    var full_ixs := AssembleInstructions(prio, ixs);
    var msg := NewMessage(full_ixs, payer.pubkey);
    var tx := NewUnsigned(msg);
    var signed := TrySign(tx, payer, blockhash, sign);
    if signed.Failure? {
      return Failure(signed.error);
    }
    tx := signed.value;
    var mode := SelectMode(skip_preflight);
    match mode
    case SendOnly(config) =>
      r := rpc.SendTransactionWithConfig(tx, config);
    case SendAndConfirm(commitment, config) =>
      r := rpc.SendAndConfirmTransactionWithSpinnerAndConfig(tx, commitment, config);
  }

  /** `build_buy_ixs`: the buy route is not implemented, so every request
      fails. */
  function BuildBuyIxs(payer: Pubkey, token_mint: Pubkey, amount_sol: u64, slippage_bps: u16)
    : (r: Result<seq<Instruction>, string>)
    ensures r.Failure?
  {
    Failure("buy route not implemented yet")
  }
}
