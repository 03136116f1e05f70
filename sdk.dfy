/** The chain-client types the dispatcher builds and hands on: instructions,
    messages, transactions and the submission configuration. Account
    compilation, serialization and ed25519 are not modelled; a message keeps
    its fee payer, its instructions and its reference hash. */
module Sdk {
  import opened Wrappers
  import opened Primitives

  datatype AccountMeta = AccountMeta(pubkey: Pubkey, is_signer: bool, is_writable: bool)

  datatype Instruction = Instruction(program_id: Pubkey, accounts: seq<AccountMeta>, data: seq<byte>)

  /** A signing key pair, seen through its public half. */
  datatype Keypair = Keypair(pubkey: Pubkey)

  type Signature = seq<byte>

  datatype Message = Message(fee_payer: Pubkey, instructions: seq<Instruction>, recent_blockhash: Hash)

  datatype Transaction = Transaction(signatures: seq<Signature>, message: Message)

  /** `Hash::default()`: 32 zero bytes. */
  function DefaultHash(): Hash
  {
    seq(32, _ => 0 as byte)
  }

  /** `Message::new(ixs, Some(payer))`: the reference hash starts zeroed. */
  function NewMessage(ixs: seq<Instruction>, payer: Pubkey): (m: Message)
    ensures m.instructions == ixs && m.fee_payer == payer
  {
    Message(payer, ixs, DefaultHash())
  }

  /** `Transaction::new_unsigned`. */
  function NewUnsigned(msg: Message): (tx: Transaction)
    ensures tx.message == msg && tx.signatures == []
  {
    Transaction([], msg)
  }

  /** `tx.try_sign(&[payer], blockhash)`: set the reference hash, then sign
      the message with the payer's key. The signature scheme is `sign`, which
      may fail; a failure leaves no transaction. */
  function TrySign(tx: Transaction, payer: Keypair, blockhash: Hash,
                   sign: (Keypair, Message) -> Result<Signature, string>): (r: Result<Transaction, string>)
    ensures r.Failure? <==> sign(payer, tx.message.(recent_blockhash := blockhash)).Failure?
    ensures r.Failure? ==> r.error == sign(payer, tx.message.(recent_blockhash := blockhash)).error
    ensures r.Success? ==> r.value.message.instructions == tx.message.instructions
    ensures r.Success? ==> r.value.message.fee_payer == tx.message.fee_payer
    ensures r.Success? ==> r.value.message.recent_blockhash == blockhash
  {
    var msg := tx.message.(recent_blockhash := blockhash);
    match sign(payer, msg)
    case Failure(e) => Failure(e)
    case Success(s) => Success(Transaction([s], msg))
  }

  datatype CommitmentLevel = Processed | Confirmed | Finalized

  /** The recognised fields of `RpcSendTransactionConfig`. */
  datatype SendConfig = SendConfig(
    skip_preflight: bool,
    preflight_commitment: Option<CommitmentLevel>,
    max_retries: Option<nat>)

  /** `RpcSendTransactionConfig::default()`. */
  const DefaultSendConfig: SendConfig := SendConfig(false, None, None)

  /** How a signed transaction is handed to the node: sent and returned at
      once, or sent and waited on until it reaches a commitment level. */
  datatype SendMode =
    | SendOnly(config: SendConfig)
    | SendAndConfirm(commitment: CommitmentLevel, config: SendConfig)
}

/** The compute-budget program's instructions as they travel on the wire: the
    variant's index as one byte, then its argument little-endian. */
module ComputeBudget {
  import opened Wrappers
  import opened Primitives
  import opened Sdk

  /** The address written `ComputeBudget111111111111111111111111111111`. */
  const ProgramId: Pubkey := [3, 6, 70, 111, 229, 33, 23, 50, 255, 236, 173, 186, 114, 195, 155, 231,
                              188, 140, 229, 187, 197, 247, 18, 107, 44, 67, 155, 58, 64, 0, 0, 0]

  datatype BudgetInstruction =
    | Unused
    | RequestHeapFrame(bytes: u32)
    | SetComputeUnitLimit(units: u32)
    | SetComputeUnitPrice(micro_lamports: u64)
    | SetLoadedAccountsDataSizeLimit(bytes: u32)

  function Encode(b: BudgetInstruction): (data: seq<byte>)
    ensures |data| > 0
  {
    match b
    case Unused => [0]
    case RequestHeapFrame(n) => [1] + EncodeLE(n as nat, 4)
    case SetComputeUnitLimit(n) => [2] + EncodeLE(n as nat, 4)
    case SetComputeUnitPrice(n) => [3] + EncodeLE(n as nat, 8)
    case SetLoadedAccountsDataSizeLimit(n) => [4] + EncodeLE(n as nat, 4)
  }

  /** Deserialization: a known index followed by exactly its argument. */
  function Decode(data: seq<byte>): Option<BudgetInstruction>
  {
    if |data| == 0 then None
    else
      var tag, arg := data[0], data[1..];
      if tag == 0 && |arg| == 0 then Some(Unused)
      else if tag == 1 && |arg| == 4 then Some(RequestHeapFrame(DecodeLE(arg) as u32))
      else if tag == 2 && |arg| == 4 then Some(SetComputeUnitLimit(DecodeLE(arg) as u32))
      else if tag == 3 && |arg| == 8 then Some(SetComputeUnitPrice(DecodeLE(arg) as u64))
      else if tag == 4 && |arg| == 4 then Some(SetLoadedAccountsDataSizeLimit(DecodeLE(arg) as u32))
      else None
  }

  /** `Instruction::new_with_borsh(id(), &b, vec![])`: the compute-budget
      program reads back the setting the instruction was built from. */
  function ToInstruction(b: BudgetInstruction): (ix: Instruction)
    ensures FromInstruction(ix) == Some(b)
  {
    DecodeEncode(b);
    Instruction(ProgramId, [], Encode(b))
  }

  /** What the compute-budget program reads out of an instruction. */
  function FromInstruction(ix: Instruction): Option<BudgetInstruction>
  {
    if ix.program_id == ProgramId then Decode(ix.data) else None
  }

  lemma DecodeEncode(b: BudgetInstruction)
    ensures Decode(Encode(b)) == Some(b)
  {
    match b
    case Unused =>
    case RequestHeapFrame(n) => DecodeArg(Encode(b), n as nat, 4);
    case SetComputeUnitLimit(n) => DecodeArg(Encode(b), n as nat, 4);
    case SetComputeUnitPrice(n) => DecodeArg(Encode(b), n as nat, 8);
    case SetLoadedAccountsDataSizeLimit(n) => DecodeArg(Encode(b), n as nat, 4);
  }

  lemma DecodeArg(data: seq<byte>, n: nat, width: nat)
    requires n < Pow256(width)
    requires |data| > 0 && data[1..] == EncodeLE(n, width)
    ensures DecodeLE(data[1..]) == n
  {
    DecodeEncodeLE(n, width);
  }

  lemma EncodeDecode(data: seq<byte>)
    requires Decode(data).Some?
    ensures Encode(Decode(data).value) == data
  {
    EncodeDecodeLE(data[1..]);
  }

  function SetComputeUnitLimitIx(units: u32): (ix: Instruction)
    ensures FromInstruction(ix) == Some(SetComputeUnitLimit(units))
  {
    ToInstruction(SetComputeUnitLimit(units))
  }

  function SetComputeUnitPriceIx(micro_lamports: u64): (ix: Instruction)
    ensures FromInstruction(ix) == Some(SetComputeUnitPrice(micro_lamports))
  {
    ToInstruction(SetComputeUnitPrice(micro_lamports))
  }
}
