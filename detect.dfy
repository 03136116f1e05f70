/** The launch classifier of src/detect.rs: a detector holds up to three
    program identities and turns one log notification into at most one
    launch event. */
module Detect {
  import opened Wrappers
  import opened Primitives

  datatype LaunchKind = RaydiumAMM | RaydiumCLMM | PumpFun

  datatype LaunchEvent = LaunchEvent(
    kind: LaunchKind,
    signature: string,
    token_mint: Option<Pubkey>,
    base_is_sol: bool,
    detected_at_slot: u64)

  /** The part of a log notification the detector reads: the transaction
      signature and its log lines, in order. */
  datatype LogsResponse = LogsResponse(signature: string, logs: seq<string>)

  /** The three configured identities; `None` means "not configured". */
  datatype Detector = Detector(
    raydium_amm: Option<Pubkey>,
    raydium_clmm: Option<Pubkey>,
    pump_fun: Option<Pubkey>)

  /** The initialization marker searched for in the lowercased log text. */
  const Keyword: string := "initialize"

  // ---------------------------------------------------------------------
  // Text operations: join, ASCII lowercasing, substring search
  // ---------------------------------------------------------------------

  /** `lines.join(sep)`: the lines with `sep` between neighbours. The text
      starts with the first line and ends with the last. */
  function Join(lines: seq<string>, sep: string): (t: string)
    ensures |lines| == 0 ==> t == ""
    ensures |lines| > 0 ==> |lines[0]| <= |t| && t[..|lines[0]|] == lines[0]
    ensures |lines| > 0 ==> |Last(lines)| <= |t| && t[|t| - |Last(lines)|..] == Last(lines)
  {
    if |lines| == 0 then ""
    else if |lines| == 1 then lines[0]
    else lines[0] + sep + Join(lines[1..], sep)
  }

  function Last(lines: seq<string>): string
    requires |lines| > 0
  {
    lines[|lines| - 1]
  }

  /** Lowercasing of one character; only 'A'..'Z' change. */
  function LowerChar(c: char): (l: char)
    ensures 'A' <= c <= 'Z' ==> l as int == c as int + 32
    ensures !('A' <= c <= 'Z') ==> l == c
    ensures !('A' <= l <= 'Z')
  {
    if 'A' <= c <= 'Z' then (c as int + 32) as char else c
  }

  /** Uppercasing of one character; only 'a'..'z' change. */
  function UpperChar(c: char): (u: char)
    ensures LowerChar(u) == LowerChar(c)
  {
    if 'a' <= c <= 'z' then (c as int - 32) as char else c
  }

  /** `to_lowercase`, restricted to ASCII letters: the result has the same
      length, no upper-case letter, and every character that is not an
      upper-case letter where it was. */
  function ToLower(s: string): (l: string)
    ensures |l| == |s|
    ensures forall i :: 0 <= i < |l| ==> !('A' <= l[i] <= 'Z')
    ensures forall i :: 0 <= i < |s| && !('A' <= s[i] <= 'Z') ==> l[i] == s[i]
  {
    seq(|s|, i requires 0 <= i < |s| => LowerChar(s[i]))
  }

  /** Lowercasing twice is lowercasing once. */
  lemma ToLowerIdempotent(s: string)
    ensures ToLower(ToLower(s)) == ToLower(s)
  {
  }

  /** Upper-casing changes nothing but the case of letters. */
  function ToUpper(s: string): (u: string)
    ensures SameIgnoringCase(u, s)
  {
    seq(|s|, i requires 0 <= i < |s| => UpperChar(s[i]))
  }

  /** `pat` occurs in `text` starting at index `i`. */
  predicate OccursAt(text: string, pat: string, i: int)
  {
    0 <= i && i + |pat| <= |text| && text[i..i + |pat|] == pat
  }

  /** `text.contains(pat)`: the empty pattern is in every text, and a
      pattern longer than the text is in none. */
  predicate Contains(text: string, pat: string)
    ensures |pat| == 0 ==> Contains(text, pat)
    ensures Contains(text, pat) ==> |pat| <= |text|
  {
    assert |pat| == 0 ==> OccursAt(text, pat, 0);
    exists i | 0 <= i <= |text| - |pat| :: OccursAt(text, pat, i)
  }

  // ---------------------------------------------------------------------
  // Detector::new and Detector::process
  // ---------------------------------------------------------------------

  /** `s.and_then(|s| s.parse().ok())`, with the address parser given as
      `parse` (a failed parse is `None`). */
  function ParseIdentity(parse: string -> Option<Pubkey>, s: Option<string>): (k: Option<Pubkey>)
    ensures k.Some? <==> s.Some? && parse(s.value).Some?
    ensures k.Some? ==> parse(s.value) == Some(k.value)
  {
    match s
    case None => None
    case Some(str) => parse(str)
  }

  /** `Detector::new`. */
  function New(parse: string -> Option<Pubkey>,
               raydium_amm: Option<string>,
               raydium_clmm: Option<string>,
               pump_fun: Option<string>): (d: Detector)
    ensures d.raydium_amm.Some? <==> raydium_amm.Some? && parse(raydium_amm.value).Some?
    ensures d.raydium_clmm.Some? <==> raydium_clmm.Some? && parse(raydium_clmm.value).Some?
    ensures d.pump_fun.Some? <==> pump_fun.Some? && parse(pump_fun.value).Some?
    ensures d.raydium_amm.Some? ==> parse(raydium_amm.value) == d.raydium_amm
    ensures d.raydium_clmm.Some? ==> parse(raydium_clmm.value) == d.raydium_clmm
    ensures d.pump_fun.Some? ==> parse(pump_fun.value) == d.pump_fun
  {
    Detector(ParseIdentity(parse, raydium_amm),
             ParseIdentity(parse, raydium_clmm),
             ParseIdentity(parse, pump_fun))
  }

  /** The event `process` builds for a kind: mint unknown, paired with SOL. */
  function EventOf(kind: LaunchKind, sig: string, slot: u64): LaunchEvent
  {
    LaunchEvent(kind, sig, None, true, slot)
  }

  /** `Detector::process`. The configured addresses are bound by the source
      but never compared with anything, so only whether each identity is
      configured matters here. */
  function Process(d: Detector, logs: LogsResponse, slot: u64): (r: Option<LaunchEvent>)
    ensures r.Some? ==> r.value.signature == logs.signature
    ensures r.Some? ==> r.value.detected_at_slot == slot
    ensures r.Some? ==> r.value.token_mint.None? && r.value.base_is_sol
  {
    var sig := logs.signature;
    var text := ToLower(Join(logs.logs, "\n"));
    if d.raydium_amm.Some? && Contains(text, Keyword) then
      Some(EventOf(RaydiumAMM, sig, slot))
    else if d.raydium_clmm.Some? && Contains(text, Keyword) then
      Some(EventOf(RaydiumCLMM, sig, slot))
    else if d.pump_fun.Some? && Contains(text, Keyword) then
      Some(EventOf(PumpFun, sig, slot))
    else
      None
  }

  // ---------------------------------------------------------------------
  // Reference definitions for the classifier
  // ---------------------------------------------------------------------

  /** The fixed priority order of the three program families. */
  const Order: seq<LaunchKind> := [RaydiumAMM, RaydiumCLMM, PumpFun]

  function Identity(d: Detector, kind: LaunchKind): Option<Pubkey>
  {
    match kind
    case RaydiumAMM => d.raydium_amm
    case RaydiumCLMM => d.raydium_clmm
    case PumpFun => d.pump_fun
  }

  function Rank(kind: LaunchKind): (n: nat)
    ensures n < |Order| && Order[n] == kind
  {
    match kind
    case RaydiumAMM => 0
    case RaydiumCLMM => 1
    case PumpFun => 2
  }

  predicate Configured(d: Detector, kind: LaunchKind)
  {
    Identity(d, kind).Some?
  }

  predicate AnyConfigured(d: Detector)
  {
    exists k :: Configured(d, k)
  }

  /** `kind` is configured and no kind earlier in `Order` is. */
  predicate FirstConfigured(d: Detector, kind: LaunchKind)
  {
    Configured(d, kind) && forall j :: 0 <= j < Rank(kind) ==> !Configured(d, Order[j])
  }

  /** Some single lowercased log line contains the keyword. */
  predicate KeywordInSomeLine(lines: seq<string>)
  {
    exists i :: 0 <= i < |lines| && Contains(ToLower(lines[i]), Keyword)
  }

  /** Two strings that differ at most in the ASCII case of their letters. */
  predicate SameIgnoringCase(a: string, b: string)
  {
    |a| == |b| && forall i :: 0 <= i < |a| ==> LowerChar(a[i]) == LowerChar(b[i])
  }

  // ---------------------------------------------------------------------
  // Lemmas about the text operations
  // ---------------------------------------------------------------------

  lemma ToLowerConcat(a: string, b: string)
    ensures ToLower(a + b) == ToLower(a) + ToLower(b)
  {
  }

  /** Lowercasing the joined text is joining the lowercased lines, since the
      separator has no upper-case letter. */
  lemma {:induction false} ToLowerJoin(lines: seq<string>, sep: string)
    requires ToLower(sep) == sep
    ensures ToLower(Join(lines, sep)) == Join(seq(|lines|, i requires 0 <= i < |lines| => ToLower(lines[i])), sep)
  {
    var low := seq(|lines|, i requires 0 <= i < |lines| => ToLower(lines[i]));
    if |lines| > 1 {
      var tail := seq(|lines| - 1, i requires 0 <= i < |lines| - 1 => ToLower(lines[1..][i]));
      assert low[1..] == tail;
      ToLowerJoin(lines[1..], sep);
      ToLowerConcat(lines[0] + sep, Join(lines[1..], sep));
      ToLowerConcat(lines[0], sep);
    }
  }

  /** A match in `a + sep + b` lies wholly in `a` or wholly in `b` when the
      pattern shares no character with a non-empty separator. */
  lemma ContainsAcrossSeparator(a: string, sep: string, b: string, pat: string)
    requires |pat| > 0 && |sep| > 0
    requires forall c :: c in sep ==> c !in pat
    ensures Contains(a + sep + b, pat) <==> Contains(a, pat) || Contains(b, pat)
  {
    var t := a + sep + b;
    if Contains(t, pat) {
      var i :| 0 <= i <= |t| - |pat| && OccursAt(t, pat, i);
      if i + |pat| <= |a| {
        assert t[i..i + |pat|] == a[i..i + |pat|];
        assert OccursAt(a, pat, i);
      } else if i >= |a| + |sep| {
        var j := i - |a| - |sep|;
        assert t[i..i + |pat|] == b[j..j + |pat|];
        assert OccursAt(b, pat, j);
      } else {
        WindowHitsSeparator(a, sep, b, pat, i);
        assert false;
      }
    }
    if Contains(a, pat) {
      var i :| 0 <= i <= |a| - |pat| && OccursAt(a, pat, i);
      assert t[i..i + |pat|] == a[i..i + |pat|];
      assert OccursAt(t, pat, i);
    }
    if Contains(b, pat) {
      var j :| 0 <= j <= |b| - |pat| && OccursAt(b, pat, j);
      var i := j + |a| + |sep|;
      assert t[i..i + |pat|] == b[j..j + |pat|];
      assert OccursAt(t, pat, i);
    }
  }

  /** A match that neither ends within `a` nor starts within `b` covers a
      character of the separator. */
  lemma WindowHitsSeparator(a: string, sep: string, b: string, pat: string, i: int)
    requires |pat| > 0 && |sep| > 0
    requires OccursAt(a + sep + b, pat, i)
    requires |a| < i + |pat| && i < |a| + |sep|
    ensures exists c :: c in sep && c in pat
  {
    var t := a + sep + b;
    var p := if i < |a| then |a| else i;
    assert t[p] == sep[p - |a|];
    assert pat[p - i] == t[i..i + |pat|][p - i] == t[p];
    assert t[p] in sep && t[p] in pat;
  }

  /** The joined text contains the pattern exactly when one of the lines does. */
  lemma {:induction false} JoinContains(lines: seq<string>, sep: string, pat: string)
    requires |pat| > 0 && |sep| > 0
    requires forall c :: c in sep ==> c !in pat
    ensures Contains(Join(lines, sep), pat) <==> exists i :: 0 <= i < |lines| && Contains(lines[i], pat)
  {
    if |lines| == 0 {
      assert !OccursAt("", pat, 0);
    } else if |lines| > 1 {
      JoinContains(lines[1..], sep, pat);
      ContainsAcrossSeparator(lines[0], sep, Join(lines[1..], sep), pat);
      assert Join(lines, sep) == lines[0] + sep + Join(lines[1..], sep);
      if exists i :: 1 <= i < |lines| && Contains(lines[i], pat) {
        var i :| 1 <= i < |lines| && Contains(lines[i], pat);
        assert lines[1..][i - 1] == lines[i];
      }
    }
  }

  /** The newline separator is its own lowercase and is not in the keyword. */
  lemma NewlineFacts()
    ensures ToLower("\n") == "\n"
    ensures forall c :: c in "\n" ==> c !in Keyword
  {
    assert "\n"[0] == '\n';
    assert forall i :: 0 <= i < |Keyword| ==> Keyword[i] != '\n';
  }

  /** The test `process` makes on the joined, lowercased text is the same as
      asking whether some single lowercased line contains the keyword: the
      keyword has no newline. */
  lemma KeywordInJoinedText(lines: seq<string>)
    ensures Contains(ToLower(Join(lines, "\n")), Keyword) <==> KeywordInSomeLine(lines)
  {
    var low := seq(|lines|, i requires 0 <= i < |lines| => ToLower(lines[i]));
    NewlineFacts();
    ToLowerJoin(lines, "\n");
    JoinContains(low, "\n", Keyword);
    if KeywordInSomeLine(lines) {
      var i :| 0 <= i < |lines| && Contains(ToLower(lines[i]), Keyword);
      assert low[i] == ToLower(lines[i]);
    }
  }

  /** Strings equal up to ASCII case lowercase to the same string. */
  lemma SameIgnoringCaseLower(a: string, b: string)
    requires SameIgnoringCase(a, b)
    ensures ToLower(a) == ToLower(b)
  {
  }

  // ---------------------------------------------------------------------
  // Properties of process
  // ---------------------------------------------------------------------

  /** `process` in terms of the reference definitions: an event exactly when
      some identity is configured and some lowercased line has the keyword,
      and then of the first configured kind in priority order. */
  lemma ProcessCharacterised(d: Detector, logs: LogsResponse, slot: u64)
    ensures Process(d, logs, slot).Some? <==> AnyConfigured(d) && KeywordInSomeLine(logs.logs)
    ensures Process(d, logs, slot).Some? ==> FirstConfigured(d, Process(d, logs, slot).value.kind)
  {
    KeywordInJoinedText(logs.logs);
    var r := Process(d, logs, slot);
    if r.Some? {
      assert Configured(d, r.value.kind);
    }
    if AnyConfigured(d) {
      var k :| Configured(d, k);
      assert d.raydium_amm.Some? || d.raydium_clmm.Some? || d.pump_fun.Some?;
    }
  }

  /** With no identity configured, no notification is classified. */
  lemma NoIdentityNoEvent(d: Detector, logs: LogsResponse, slot: u64)
    requires d.raydium_amm.None? && d.raydium_clmm.None? && d.pump_fun.None?
    ensures Process(d, logs, slot).None?
  {
  }

  /** Without the keyword in any line, whatever is configured, no event. */
  lemma NoKeywordNoEvent(d: Detector, logs: LogsResponse, slot: u64)
    requires forall i :: 0 <= i < |logs.logs| ==> !Contains(ToLower(logs.logs[i]), Keyword)
    ensures Process(d, logs, slot).None?
  {
    KeywordInJoinedText(logs.logs);
  }

  /** With the keyword present and some identity configured, the event is of
      the first configured kind, for the input signature and slot. */
  lemma FirstConfiguredWins(d: Detector, logs: LogsResponse, slot: u64, kind: LaunchKind)
    requires KeywordInSomeLine(logs.logs)
    requires FirstConfigured(d, kind)
    ensures Process(d, logs, slot) == Some(LaunchEvent(kind, logs.signature, None, true, slot))
  {
    KeywordInJoinedText(logs.logs);
    assert Rank(kind) >= 1 ==> !Configured(d, Order[0]);
    assert Rank(kind) >= 2 ==> !Configured(d, Order[1]);
  }

  /** The configured addresses themselves never matter: two detectors with
      the same identities configured classify every notification alike. */
  lemma AddressesIgnored(d1: Detector, d2: Detector, logs: LogsResponse, slot: u64)
    requires forall k :: Configured(d1, k) <==> Configured(d2, k)
    ensures Process(d1, logs, slot) == Process(d2, logs, slot)
  {
    assert Configured(d1, RaydiumAMM) <==> Configured(d2, RaydiumAMM);
    assert Configured(d1, RaydiumCLMM) <==> Configured(d2, RaydiumCLMM);
    assert Configured(d1, PumpFun) <==> Configured(d2, PumpFun);
  }

  /** Changing the ASCII case of any log lines (and nothing else) does not
      change the result. */
  lemma {:induction false} CaseInsensitive(d: Detector, logs1: LogsResponse, logs2: LogsResponse, slot: u64)
    requires logs1.signature == logs2.signature
    requires |logs1.logs| == |logs2.logs|
    requires forall i :: 0 <= i < |logs1.logs| ==> SameIgnoringCase(logs1.logs[i], logs2.logs[i])
    ensures Process(d, logs1, slot) == Process(d, logs2, slot)
  {
    var a, b := logs1.logs, logs2.logs;
    var lowA := seq(|a|, i requires 0 <= i < |a| => ToLower(a[i]));
    var lowB := seq(|b|, i requires 0 <= i < |b| => ToLower(b[i]));
    forall i | 0 <= i < |a| ensures lowA[i] == lowB[i] {
      SameIgnoringCaseLower(a[i], b[i]);
    }
    assert lowA == lowB;
    NewlineFacts();
    ToLowerJoin(a, "\n");
    ToLowerJoin(b, "\n");
  }

  /** An instance of case insensitivity: shouting every log line. */
  lemma UpperCasedLogs(d: Detector, logs: LogsResponse, slot: u64)
    ensures Process(d, LogsResponse(logs.signature, seq(|logs.logs|, i requires 0 <= i < |logs.logs| => ToUpper(logs.logs[i]))), slot)
         == Process(d, logs, slot)
  {
    var up := LogsResponse(logs.signature, seq(|logs.logs|, i requires 0 <= i < |logs.logs| => ToUpper(logs.logs[i])));
    CaseInsensitive(d, up, logs, slot);
  }

  /** A concrete run: an AMM-configured detector and the log line
      "Instruction: Initialize2". */
  lemma AmmInitializeExample(amm: Pubkey)
    ensures Process(Detector(Some(amm), None, None), LogsResponse("SIG1", ["Instruction: Initialize2"]), 100)
         == Some(LaunchEvent(RaydiumAMM, "SIG1", None, true, 100))
  {
    var line := "Instruction: Initialize2";
    var low := ToLower(line);
    assert low == "instruction: initialize2";
    assert OccursAt(low, Keyword, 13);
    KeywordInJoinedText([line]);
  }
}
