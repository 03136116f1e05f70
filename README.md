# Launch detection and fee-boosted dispatch, modelled in Dafny

This project models the two parts of a Solana launch-sniping bot that hold
logic. It proves properties of both.

- **The launch classifier (`Detector`).** A detector holds up to three program
  identities: the Raydium AMM, Raydium CLMM and Pump.fun families. Each identity
  is either a parsed address or "not configured". `Process` joins a
  notification's log lines with newlines and lowercases the text. It then scans
  the identities in the fixed order AMM, CLMM, PumpFun. The first identity that
  is configured, while the text contains `initialize`, gives a `LaunchEvent` of
  that kind. The event has the input signature and slot, no mint, and
  `base_is_sol = true`.
- **Transaction assembly (`fast_send`).** Two compute-budget instructions go
  ahead of the caller's instructions: the unit limit first, then the unit price.
  The message is signed for the payer at the given reference hash. It is then
  submitted in one of two modes, picked by `skip_preflight`: send-only with
  preflight skipped, or send-and-confirm at `processed` commitment. Both modes
  allow 3 retries. The buy-route builder `build_buy_ixs` is a stub that always
  fails.

Files:

- `primitives.dfy`: `Option`/`Result`, byte and `u16`/`u32`/`u64` newtypes,
  32-byte keys, and little-endian encoding with its round trip.
- `detect.dfy`: module `Detect`.
- `sdk.dfy`: the chain-client types (modules `Sdk` and `ComputeBudget`). This
  includes the wire encoding of compute-budget instructions: a one-byte variant
  index followed by the little-endian argument, sent to the program
  `ComputeBudget111111111111111111111111111111`.
- `trade.dfy`: module `Trade`.

`Detector::process` never compares a configured address with the
notification's accounts. src/detect.rs binds each address (lines 41, 53, 65)
and never uses it. So classification depends only on which identities are
configured and on the keyword. `Detect.AddressesIgnored` states this.

## Model

| member | source | states |
|---|---|---|
| `Detect.Join` | src/detect.rs:39 | `join` of no lines is empty; otherwise the text starts with the first line and ends with the last |
| `Detect.ToLower` | src/detect.rs:39 | Lowercasing keeps the length, leaves no upper-case ASCII letter, and keeps every other character in place |
| `Detect.ToLowerIdempotent` | src/detect.rs:39 | Lowercasing an already lowercased text changes nothing |
| `Detect.ToUpper` | src/detect.rs:39 | Upper-casing changes a string only in the case of its letters (used to state case insensitivity) |
| `Detect.Contains` | src/detect.rs:42 | The empty pattern is in every text, and a pattern longer than the text is in none |
| `Detect.ParseIdentity` | src/detect.rs:30-32 | An identity is present exactly when a string was given and the parser accepts it, and it is then the parsed key |
| `Detect.New` | src/detect.rs:28-34 | Each of the three identities is `Some(k)` exactly when its string is present and parses to `k`; otherwise it is not configured |
| `Detect.Process` | src/detect.rs:37-78 | Any event carries the input signature and slot, no token mint, and `base_is_sol = true` |
| `Detect.ProcessCharacterised` | src/detect.rs:39-77 | An event is produced exactly when some identity is configured and some lowercased log line contains `initialize`; its kind is configured and no identity earlier in the order AMM, CLMM, PumpFun is |
| `Detect.NoIdentityNoEvent` | src/detect.rs:41-77 | With no identity configured, every notification gives `None` |
| `Detect.NoKeywordNoEvent` | src/detect.rs:39-77 | When no lowercased line contains `initialize`, the result is `None` whatever is configured |
| `Detect.FirstConfiguredWins` | src/detect.rs:41-75 | With the keyword present, the result is the event of the first configured kind in priority order, with the input signature and slot |
| `Detect.AddressesIgnored` | src/detect.rs:41-65 | Two detectors that have the same kinds configured, whatever their addresses, classify every notification alike |
| `Detect.KeywordInJoinedText` | src/detect.rs:39-42 | The lowercased joined text contains `initialize` exactly when some single lowercased line does, because the keyword has no newline |
| `Detect.JoinContains` | src/detect.rs:39 | A pattern that shares no character with a non-empty separator occurs in the joined lines exactly when it occurs in one of them |
| `Detect.ToLowerJoin` | src/detect.rs:39 | Lowercasing the joined text equals joining the lowercased lines |
| `Detect.CaseInsensitive` | src/detect.rs:39 | Notifications whose log lines differ only in ASCII letter case give the same result |
| `Detect.UpperCasedLogs` | src/detect.rs:39 | Upper-casing every log line leaves the result unchanged |
| `Detect.AmmInitializeExample` | src/detect.rs:41-49 | A detector with only AMM configured classifies the line `Instruction: Initialize2` with signature `SIG1` at slot 100 as an AMM launch with that signature and slot |
| `Primitives.DecodeEncodeLE` | src/trade.rs:29-30 | Decoding the little-endian encoding of a number gives the number back |
| `Primitives.EncodeDecodeLE` | src/trade.rs:29-30 | Re-encoding a decoded byte string at its own width gives the bytes back |
| `ComputeBudget.DecodeEncode` | src/trade.rs:29-30 | Every compute-budget instruction decodes back from its wire encoding |
| `ComputeBudget.EncodeDecode` | src/trade.rs:29-30 | Any data that decodes is exactly the encoding of what it decodes to |
| `ComputeBudget.ToInstruction` | src/trade.rs:29-30 | The compute-budget program reads back the setting an instruction was built from |
| `ComputeBudget.SetComputeUnitLimitIx` | src/trade.rs:29 | The built instruction is read by the compute-budget program as a unit limit with the given value |
| `ComputeBudget.SetComputeUnitPriceIx` | src/trade.rs:30 | The built instruction is read by the compute-budget program as a unit price with the given value |
| `Trade.WithComputeBudget` | src/trade.rs:28-32 | The list has length `|ixs| + 2` (also for none); element 0 is the unit limit `prio.compute_unit_limit`, element 1 the unit price `prio.microlamports_per_cu`, then the caller's instructions unchanged and in order |
| `Trade.AssembleInstructions` | src/trade.rs:28-32 | The vector built and extended in place is the two fee instructions followed by the caller's instructions |
| `Sdk.NewMessage` | src/trade.rs:34 | Assumed library behaviour, not proved: the message carries the assembled instructions with the payer as fee payer |
| `Sdk.NewUnsigned` | src/trade.rs:35 | Assumed library behaviour, not proved: the unsigned transaction holds the message and no signatures |
| `Sdk.TrySign` | src/trade.rs:36 | Assumed library behaviour, not proved: signing fails exactly when the signature scheme fails, with its error; on success the instructions and fee payer are kept and the reference hash is the given one |
| `Trade.SelectMode` | src/trade.rs:38-57 | `skip_preflight = true` gives a send-only call with preflight skipped, preflight commitment `processed` and 3 retries; `false` gives send-and-confirm at `processed` with the default configuration except 3 retries |
| `Trade.RpcClient.SendTransactionWithConfig` | src/trade.rs:39-47 | Records one send-only submission and returns the node's answer to it |
| `Trade.RpcClient.SendAndConfirmTransactionWithSpinnerAndConfig` | src/trade.rs:49-56 | Records one send-and-confirm submission at the given commitment and returns the node's answer |
| `Trade.FastSend` | src/trade.rs:20-60 | A signing failure returns that error and submits nothing. Otherwise exactly one transaction is submitted, in the selected mode, and the node's answer is returned. The submitted transaction carries the fee-prefixed instructions, the payer as fee payer, and the given reference hash |
| `Trade.BuildBuyIxs` | src/trade.rs:63-75 | Every request fails |

## Left out

- src/main.rs is not part of this model. It holds environment parsing, the
  WebSocket subscription, the stream loop, and the SOL-amount conversion
  through `f64`. Its calls also do not match the functions they call:
  `process` gets one argument where it takes two, and an `Option<Pubkey>` is
  passed where `&Pubkey` is expected.
- The reference-hash cache is not modelled. It is the background task in
  src/main.rs that refreshes the hash every 3 seconds under a reader-writer
  lock. It involves concurrency and timers.
- src/db.rs (MongoDB I/O), src/guards.rs (an RPC fetch with no checks),
  src/price.rs (a stub that returns `0.0`), src/sell.rs (a stub that always
  errors) and src/position.rs (a plain record) are not part of this model.
- `Pubkey` parsing (`s.parse().ok()`) is the parameter `parse` of
  `Detect.New`. Base58 decoding is not modelled.
- `Detect.ToLower`: `to_lowercase` is modelled for ASCII letters only. Other
  characters are left unchanged. Unicode case mapping, which can change a
  string's length, is not modelled.
- The notification's `err` field is not modelled, because `process` never
  reads it.
- Message compilation (account ordering, header counts) and the default
  signature slots of an unsigned transaction are abstract. A message keeps
  only its fee payer, its instructions and its reference hash.
- ed25519 signing is the parameter `sign` of `FastSend`. It is any total
  function that may fail.
- The node's behaviour is the function `RpcClient.answer`, fixed per client.
  It covers network-level retries, the confirmation wait and its timing, the
  spinner, and timeouts. The model records each submission and states the
  retry bound passed to the node.
- `SendConfig` keeps three fields of `RpcSendTransactionConfig`:
  `skip_preflight`, `preflight_commitment` and `max_retries`. It drops
  `encoding` and `min_context_slot`. Both modes leave those two at their
  defaults through `..Default::default()` (src/trade.rs:45, :54), so no
  behaviour is lost.
- `sig.to_string()` is folded into the node's answer, which is already the
  signature text.
- The `anyhow` errors are modelled as their message strings.
- `async` suspension is not modelled.
