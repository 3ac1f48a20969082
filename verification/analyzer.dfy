/**
  The keyword-driven mock model of analyzer.py. It tells the kind of prompt
  apart by fixed markers and answers with canned findings, with a verdict per
  item of the counterparty report it finds in the prompt, or with a canned
  confirmation. Markers are matched with letter case as written.
*/
module Analyzer {
  import opened JsonValue
  import opened Text
  import opened Replies
  import Utils

  /** A prompt asking for the full analysis of a contract. */
  predicate AsksFullAnalysis(p: string) {
    Contains(p, "FULL CONTRACT CODE") || Contains(p, "FULL CONTRACT")
      || Contains(p, "You are a smart contract security auditor")
  }

  /** A prompt asking to verify another model's report. */
  predicate AsksVerification(p: string) {
    Contains(p, "Counterparty report") || Contains(p, "verifying another model")
  }

  /** A prompt asking to confirm or dispute a verification item. */
  predicate AsksConfirmation(p: string) {
    Contains(p, "Prior verification item") || Contains(p, "Verification item:")
  }

  /** The low-level call patterns that raise the reentrancy finding. */
  predicate HasLowLevelCall(p: string) {
    Contains(p, ".call{") || Contains(p, "call{") || Contains(p, ".call(")
  }

  const TxOriginFinding := AuditFinding(
    "vuln-txorigin",
    "Use of tx.origin for authentication",
    "SWC-115",
    "medium",
    0.75,
    "tx.origin used in an access check",
    "tx.origin is unsafe for auth checks",
    ["auth functions"],
    "Use msg.sender and proper role management",
    ["SWC-115"])

  /** The findings of the full-analysis branch. */
  function FullAnalysis(p: string): seq<AuditFinding> {
    (if HasLowLevelCall(p) then [ReentrancyFinding] else [])
      + (if Contains(p, "tx.origin") then [TxOriginFinding] else [])
  }

  const PayloadMarker := "Counterparty report (JSON):"

  /** The text after the first payload marker, stripped. */
  function AfterMarker(p: string): string
    requires Contains(p, PayloadMarker)
  {
    Strip(p[Find(p, PayloadMarker) + |PayloadMarker|..])
  }

  /** `json.loads(text)`, with a decode error caught and replaced by `[]`. */
  function DecodeOrEmpty(parse: Parser, text: string): Json {
    match parse(text)
    case Some(payload) => payload
    case None => Arr([])
  }

  /** The counterparty report in the prompt: the decode of the text from the
      first `[` to the last `]` after the marker; `[]` when the marker or a
      bracket is missing or the decode fails. */
  function Payload(parse: Parser, p: string): Json {
    if !Contains(p, PayloadMarker) then Arr([])
    else
      var raw := AfterMarker(p);
      var start := Find(raw, "[");
      var end := RFind(raw, "]");
      if start != -1 && end != -1 then DecodeOrEmpty(parse, PySlice(raw, start, end + 1))
      else Arr([])
  }

  /** The items `for it in (payload or [])` meets, as far as they can be
      items: a falsy payload gives none, a list its items, a string its
      characters; a non-empty dict's first key (a string) already fails on
      `.get`, and a number or a bool cannot be iterated. */
  function PayloadItems(payload: Json): Result<seq<Json>> {
    if !Truthy(payload) then Ok([])
    else
      match payload
      case Arr(xs) => Ok(xs)
      case Str(s) => Ok(seq(|s|, i requires 0 <= i < |s| => Str([s[i]])))
      case Obj(_) => Err(AttributeError)
      case _ => Err(TypeError)
  }

  /** `(it.get("evidence") or "").lower()` */
  function EvidenceOf(item: map<string, Json>): Result<string> {
    var v := Get(item, "evidence", Null);
    if !Truthy(v) then Ok("")
    else if v.Str? then Ok(LowerStr(v.s))
    else Err(AttributeError)
  }

  /** The evidence words that make the verifier confirm. */
  predicate SupportsReentrancy(evidence: string) {
    Contains(evidence, "reentrancy") || Contains(evidence, "call") || Contains(evidence, "external call")
  }

  /** The verdict on one payload item. */
  function VerifyItem(it: Json): Result<Verification> {
    if !it.Obj? then Err(AttributeError)
    else
      match EvidenceOf(it.fields)
      case Err(e) => Err(e)
      case Ok(evidence) =>
        var id := Get(it.fields, "id", Str("vuln-1"));
        var title := Get(it.fields, "title", Null);
        if SupportsReentrancy(evidence) then
          Ok(Verification(id, title, true, 0.8, "confirm",
            "Snippet shows external call pattern matching reentrancy risk",
            Get(it.fields, "category", Null), Get(it.fields, "severity", Null), None))
        else
          Ok(Verification(id, title, false, 0.3, "needs-more-evidence",
            "No clear evidence in provided snippets", Null, Null, Some(FetchMore)))
  }

  /** The verifier loop over the items, stopping at the first exception. */
  function VerifyAll(items: seq<Json>): Result<seq<Verification>> {
    if items == [] then Ok([])
    else
      match VerifyAll(items[..|items| - 1])
      case Err(e) => Err(e)
      case Ok(out) =>
        match VerifyItem(items[|items| - 1])
        case Err(e) => Err(e)
        case Ok(v) => Ok(out + [v])
  }

  /** The counterparty branch: a verdict per item of the report. */
  function VerifyReport(parse: Parser, p: string): Result<seq<Verification>> {
    match PayloadItems(Payload(parse, p))
    case Err(e) => Err(e)
    case Ok(items) => VerifyAll(items)
  }

  const ConfirmItem := StanceItem(Str("vuln-reentrancy"), "confirm", 0.85, "Evidence is sufficient in the snippet", None)

  /** The reply to a prompt; exceptions can only come from the items of the
      counterparty report. */
  function ReplyTo(parse: Parser, p: string): Result<Reply> {
    if AsksFullAnalysis(p) then Ok(Findings(FullAnalysis(p)))
    else if AsksVerification(p) then
      match VerifyReport(parse, p)
      case Err(e) => Err(e)
      case Ok(out) => Ok(Verifications(out))
    else if AsksConfirmation(p) then Ok(Stances([ConfirmItem]))
    else Ok(Nothing)
  }

  /** Full-analysis markers win over counterparty markers, which win over
      confirmation markers; any other prompt gets the empty list. Only the
      counterparty branch can raise. */
  lemma BranchPriority(parse: Parser, p: string)
    ensures ReplyTo(parse, p).Err? ==> !AsksFullAnalysis(p) && AsksVerification(p)
    ensures ReplyTo(parse, p).Ok? ==>
      var r := ReplyTo(parse, p).value;
      && (r.Findings? <==> AsksFullAnalysis(p))
      && (r.Verifications? <==> !AsksFullAnalysis(p) && AsksVerification(p))
      && (r.Stances? <==> !AsksFullAnalysis(p) && !AsksVerification(p) && AsksConfirmation(p))
      && (r.Nothing? <==> !AsksFullAnalysis(p) && !AsksVerification(p) && !AsksConfirmation(p))
  {
  }

  /** "FULL CONTRACT CODE" contains "FULL CONTRACT", so two markers decide
      the full-analysis branch. */
  lemma FullAnalysisMarkers(p: string)
    ensures AsksFullAnalysis(p) <==>
      Contains(p, "FULL CONTRACT") || Contains(p, "You are a smart contract security auditor")
  {
    if Contains(p, "FULL CONTRACT CODE") {
      ContainsPart(p, "FULL CONTRACT CODE", 0, 13);
      assert "FULL CONTRACT CODE"[0..13] == "FULL CONTRACT";
    }
  }

  /** The reentrancy finding is reported exactly when the prompt holds
      `call{` or `.call(`, the tx.origin finding exactly when it holds
      `tx.origin`; reentrancy comes first and there are at most two. */
  lemma FullAnalysisFindings(p: string)
    ensures |FullAnalysis(p)| <= 2
    ensures ReentrancyFinding in FullAnalysis(p) <==> Contains(p, "call{") || Contains(p, ".call(")
    ensures TxOriginFinding in FullAnalysis(p) <==> Contains(p, "tx.origin")
    ensures |FullAnalysis(p)| == 2 ==> FullAnalysis(p) == [ReentrancyFinding, TxOriginFinding]
  {
    if Contains(p, ".call{") {
      ContainsPart(p, ".call{", 1, 6);
      assert ".call{"[1..6] == "call{";
    }
  }

  /** Without the payload marker, or without a `[` and a `]` after it, the
      counterparty report is empty. */
  lemma PayloadNeedsMarkerAndBrackets(parse: Parser, p: string)
    ensures Payload(parse, p) != Arr([]) ==>
      Contains(p, PayloadMarker) && Find(AfterMarker(p), "[") != -1 && RFind(AfterMarker(p), "]") != -1
  {
  }

  /** The text the payload is cut from is the stripped text after the first report
      marker: after the occurrence at `m` when no earlier one exists. */
  lemma FirstMarker(p: string, m: nat)
    requires OccursAt(p, PayloadMarker, m)
    requires forall t :: 0 <= t < m ==> !OccursAt(p, PayloadMarker, t)
    ensures Contains(p, PayloadMarker) && AfterMarker(p) == Strip(p[m + |PayloadMarker|..])
  {
    assert Find(p, PayloadMarker) == m;
  }

  /** With the marker present, the payload is the decode of the stripped text after it (see
      `FirstMarker`), cut from its first `[` through its last `]`; when that `]` comes before
      the `[`, the cut is empty, as a Python slice with its end before its start is. An
      input that cannot be decoded gives `[]`. */
  lemma PayloadDecodesBrackets(parse: Parser, p: string, raw: string, i: nat, j: nat)
    requires Contains(p, PayloadMarker) && raw == AfterMarker(p)
    requires i < |raw| && j < |raw| && raw[i] == '[' && raw[j] == ']'
    requires forall t :: 0 <= t < i ==> raw[t] != '['
    requires forall t :: j < t < |raw| ==> raw[t] != ']'
    ensures Payload(parse, p) == DecodeOrEmpty(parse, if i < j then raw[i..j + 1] else [])
  {
    BracketSlice(raw, i, j);
    PayloadOfCut(parse, p, raw, i, j);
  }

  /** With the marker and both brackets present, the payload is the decode of the cut. */
  lemma PayloadOfCut(parse: Parser, p: string, raw: string, i: int, j: int)
    requires Contains(p, PayloadMarker) && raw == AfterMarker(p)
    requires i != -1 && j != -1 && Find(raw, "[") == i && RFind(raw, "]") == j
    ensures Payload(parse, p) == DecodeOrEmpty(parse, PySlice(raw, i, j + 1))
  {
  }

  /** The cut from the first `[` through the last `]` of `raw`. */
  lemma BracketSlice(raw: string, i: nat, j: nat)
    requires i < |raw| && j < |raw| && raw[i] == '[' && raw[j] == ']'
    requires forall t :: 0 <= t < i ==> raw[t] != '['
    requires forall t :: j < t < |raw| ==> raw[t] != ']'
    ensures Find(raw, "[") == i && RFind(raw, "]") == j
    ensures PySlice(raw, i, j + 1) == if i < j then raw[i..j + 1] else []
  {
    assert OccursAt(raw, "[", i) by {
      assert raw[i..i + 1] == [raw[i]];
    }
    assert OccursAt(raw, "]", j) by {
      assert raw[j..j + 1] == [raw[j]];
    }
    Utils.FirstOccurrence(raw, '[', i);
    Utils.LastOccurrence(raw, ']', j);
  }

  /** The verifier emits exactly one verdict per item, in order. */
  lemma {:induction false} VerifyAllItems(items: seq<Json>)
    requires VerifyAll(items).Ok?
    ensures |VerifyAll(items).value| == |items|
    ensures forall i :: 0 <= i < |items| ==> VerifyItem(items[i]) == Ok(VerifyAll(items).value[i])
  {
    if items != [] {
      var init := items[..|items| - 1];
      VerifyAllItems(init);
      assert forall i :: 0 <= i < |init| ==> init[i] == items[i];
    }
  }

  /** The decision rule: a verdict confirms, as valid with confidence 0.8 and
      the item's category and severity, exactly when the lowercased evidence
      mentions `reentrancy` or `call`; otherwise it asks for more evidence,
      invalid with confidence 0.3 and no corrected fields. The verdict keeps
      the item's id (default "vuln-1") and title. */
  lemma VerdictRule(it: Json)
    requires VerifyItem(it).Ok?
    ensures it.Obj? && EvidenceOf(it.fields).Ok?
    ensures var v := VerifyItem(it).value; var ev := EvidenceOf(it.fields).value;
      && v.id == Get(it.fields, "id", Str("vuln-1"))
      && v.originalTitle == Get(it.fields, "title", Null)
      && (v.valid <==> Contains(ev, "reentrancy") || Contains(ev, "call"))
      && (v.valid ==>
            && v.decision == "confirm" && v.confidence == 0.8 && v.extraEvidenceNeeded == None
            && v.correctedCategory == Get(it.fields, "category", Null)
            && v.correctedSeverity == Get(it.fields, "severity", Null))
      && (!v.valid ==>
            && v.decision == "needs-more-evidence" && v.confidence == 0.3
            && v.correctedCategory == Null && v.correctedSeverity == Null && v.extraEvidenceNeeded.Some?)
  {
    var ev := EvidenceOf(it.fields).value;
    if Contains(ev, "external call") {
      ContainsPart(ev, "external call", 9, 13);
      assert "external call"[9..13] == "call";
    }
  }

  /** A confirmation prompt always gets the same single confirmation,
      whatever else it says. */
  lemma ConfirmationIsCanned(parse: Parser, p: string)
    requires !AsksFullAnalysis(p) && !AsksVerification(p) && AsksConfirmation(p)
    ensures ReplyTo(parse, p) == Ok(Stances([ConfirmItem]))
    ensures ConfirmItem.id == Str("vuln-reentrancy") && ConfirmItem.stance == "confirm"
  {
  }

  lemma {:induction false} VerifyStopsAt(items: seq<Json>, i: nat)
    requires i <= |items| && VerifyAll(items[..i]).Err?
    ensures VerifyAll(items) == VerifyAll(items[..i])
    decreases |items| - i
  {
    if i < |items| {
      assert items[..i + 1][..i] == items[..i];
      VerifyStopsAt(items, i + 1);
    } else {
      assert items[..i] == items;
    }
  }

  /** One more item extends the verdicts by its own. */
  lemma VerifyAllStep(items: seq<Json>, i: nat)
    requires i < |items|
    ensures VerifyAll(items[..i + 1]) ==
      match VerifyAll(items[..i])
      case Err(e) => Err(e)
      case Ok(out) =>
        match VerifyItem(items[i])
        case Err(e) => Err(e)
        case Ok(v) => Ok(out + [v])
  {
    assert items[..i + 1][..i] == items[..i];
  }

  class MockLLM {
    const name: string

    constructor(name: string)
      ensures this.name == name
    {
      this.name := name;
    }

    /** `MockLLM.call`, answering with records rather than JSON text. */
    method Call(parse: Parser, prompt: string) returns (r: Result<Reply>)
      ensures r == ReplyTo(parse, prompt)
    {
      if Contains(prompt, "FULL CONTRACT CODE") || Contains(prompt, "FULL CONTRACT")
        || Contains(prompt, "You are a smart contract security auditor")
      {
        var findings := Audit(prompt);
        return Ok(Findings(findings));
      }
      if Contains(prompt, "Counterparty report") || Contains(prompt, "verifying another model") {
        var out := VerifyCounterparty(parse, prompt);
        if out.Err? {
          return Err(out.error);
        }
        return Ok(Verifications(out.value));
      }
      if Contains(prompt, "Prior verification item") || Contains(prompt, "Verification item:") {
        return Ok(Stances([ConfirmItem]));
      }
      r := Ok(Nothing);
    }

    /** The full-analysis branch: one finding per pattern found. */
    method Audit(prompt: string) returns (findings: seq<AuditFinding>)
      ensures findings == FullAnalysis(prompt)
    {
      findings := [];
      if Contains(prompt, ".call{") || Contains(prompt, "call{") || Contains(prompt, ".call(") {
        findings := findings + [ReentrancyFinding];
      }
      if Contains(prompt, "tx.origin") {
        findings := findings + [TxOriginFinding];
      }
    }

    /** The counterparty branch: cut the report out of the prompt, then one
        verdict per item. */
    method VerifyCounterparty(parse: Parser, prompt: string) returns (r: Result<seq<Verification>>)
      ensures r == VerifyReport(parse, prompt)
    {
      var payload := ExtractPayload(parse, prompt);
      var items := PayloadItems(payload);
      if items.Err? {
        return Err(items.error);
      }
      r := VerifyItems(items.value);
    }

    /** The `try` block that cuts the report out of the prompt. */
    method ExtractPayload(parse: Parser, prompt: string) returns (payload: Json)
      ensures payload == Payload(parse, prompt)
    {
      payload := Arr([]);
      if Find(prompt, PayloadMarker) != -1 {
        var raw := AfterMarker(prompt);
        var start := Find(raw, "[");
        var end := RFind(raw, "]");
        if start != -1 && end != -1 {
          var decoded := parse(PySlice(raw, start, end + 1));
          if decoded.Some? {
            payload := decoded.value;
          }
        }
      }
    }

    /** The loop over the report's items. */
    method VerifyItems(items: seq<Json>) returns (r: Result<seq<Verification>>)
      ensures r == VerifyAll(items)
    {
      var out: seq<Verification> := [];
      var i := 0;
      while i < |items|
        invariant 0 <= i <= |items|
        invariant VerifyAll(items[..i]) == Ok(out)
      {
        var v := VerifyOne(items[i]);
        VerifyAllStep(items, i);
        if v.Err? {
          VerifyStopsAt(items, i + 1);
          return Err(v.error);
        }
        out := out + [v.value];
        i := i + 1;
      }
      assert items[..i] == items;
      return Ok(out);
    }

    /** The loop body on one item. */
    method VerifyOne(it: Json) returns (r: Result<Verification>)
      ensures r == VerifyItem(it)
    {
      if !it.Obj? {
        return Err(AttributeError);
      }
      var ev := Get(it.fields, "evidence", Null);
      var evidence := "";
      if Truthy(ev) {
        if !ev.Str? {
          return Err(AttributeError);
        }
        evidence := LowerStr(ev.s);
      }
      assert EvidenceOf(it.fields) == Ok(evidence);
      if SupportsReentrancy(evidence) {
        r := Ok(Verification(Get(it.fields, "id", Str("vuln-1")), Get(it.fields, "title", Null), true, 0.8,
          "confirm", "Snippet shows external call pattern matching reentrancy risk",
          Get(it.fields, "category", Null), Get(it.fields, "severity", Null), None));
      } else {
        r := Ok(Verification(Get(it.fields, "id", Str("vuln-1")), Get(it.fields, "title", Null), false, 0.3,
          "needs-more-evidence", "No clear evidence in provided snippets", Null, Null, Some(FetchMore)));
      }
    }
  }
}
