/**
  The mock model of mocks.py. It picks its answer by markers in the
  lowercased prompt: a canned finding, a canned cross-verification, or a
  confirm-or-dispute answer decided by keywords in the contract snippets
  that follow the prompt's snippet marker.
*/
module Mocks {
  import opened JsonValue
  import opened Text
  import opened Replies

  predicate AsksFullAnalysis(lower: string) {
    Contains(lower, "full contract code") || Contains(lower, "you are a smart contract security auditor")
  }

  predicate AsksCrossCheck(lower: string) {
    Contains(lower, "counterparty report") || Contains(lower, "counterparty_report")
  }

  predicate AsksStance(lower: string) {
    Contains(lower, "verification_item")
  }

  const CrossCheckItem := Verification(
    Str("vuln-reentrancy"),
    Str("Reentrancy via low-level call"),
    true,
    0.9,
    "confirm",
    "Snippets show external call before state update",
    Str("SWC-107"),
    Str("high"),
    None)

  /** The verification item in the prompt: the decode of the text from the
      first `{` to the last `}` (a Python slice, so a missing brace gives
      odd bounds rather than an error); `{}` when the decode fails. */
  function VerificationItem(parse: Parser, prompt: string): Json {
    var start := Find(prompt, "{");
    var end := RFind(prompt, "}") + 1;
    match parse(PySlice(prompt, start, end))
    case Some(item) => item
    case None => Obj(map[])
  }

  const SnippetMarker := "Relevant contract snippets:"

  /** The lowercased text after the first snippet marker, where any later
      marker is replaced by a line break; empty without a marker. The marker
      is matched with letter case as written. */
  function EvidenceText(prompt: string): string {
    if Contains(prompt, SnippetMarker) then LowerStr(Join("\n", SplitOn(prompt, SnippetMarker)[1..]))
    else ""
  }

  const StanceKeywords: seq<string> := ["call{", ".call{", "delegatecall", "reentrancy", "transfer("]

  /** `any(kw in evidence_text for kw in keywords)` */
  predicate MentionsKeyword(evidence: string) {
    exists i :: 0 <= i < |StanceKeywords| && Contains(evidence, StanceKeywords[i])
  }

  /** The confirm-or-dispute answer; `.get` on an item that decoded to
      something other than an object raises. */
  function StanceFor(parse: Parser, prompt: string): Result<StanceItem> {
    var item := VerificationItem(parse, prompt);
    var confirm := MentionsKeyword(EvidenceText(prompt));
    if !item.Obj? then Err(AttributeError)
    else
      Ok(StanceItem(
        Get(item.fields, "id", Str("vuln-1")),
        if confirm then "confirm" else "dispute",
        if confirm then 0.9 else 0.4,
        if confirm then "Snippets show external call or reentrancy pattern" else "No clear evidence in snippets",
        if confirm then None else Some(FetchMore)))
  }

  /** `MockLLM.call`, answering with records rather than JSON text. */
  function Call(parse: Parser, prompt: string): Result<Reply> {
    var lower := LowerStr(prompt);
    if AsksFullAnalysis(lower) then Ok(Findings([ReentrancyFinding]))
    else if AsksCrossCheck(lower) then Ok(Verifications([CrossCheckItem]))
    else if AsksStance(lower) then
      match StanceFor(parse, prompt)
      case Err(e) => Err(e)
      case Ok(s) => Ok(Stances([s]))
    else Ok(Nothing)
  }

  /** The branches are tried on the lowercased prompt in the order full
      analysis, cross-verification, confirm-or-dispute; any other prompt
      gets the empty list. Only the confirm-or-dispute branch can raise. */
  lemma BranchOrder(parse: Parser, prompt: string)
    ensures var lower := LowerStr(prompt);
      && (Call(parse, prompt).Err? ==> !AsksFullAnalysis(lower) && !AsksCrossCheck(lower) && AsksStance(lower))
      && (Call(parse, prompt).Ok? ==>
            var r := Call(parse, prompt).value;
            && (r.Findings? <==> AsksFullAnalysis(lower))
            && (r.Verifications? <==> !AsksFullAnalysis(lower) && AsksCrossCheck(lower))
            && (r.Stances? <==> !AsksFullAnalysis(lower) && !AsksCrossCheck(lower) && AsksStance(lower))
            && (r.Nothing? <==> !AsksFullAnalysis(lower) && !AsksCrossCheck(lower) && !AsksStance(lower)))
  {
  }

  /** Full analysis always reports the one reentrancy finding (SWC-107,
      high, confidence 0.85), whatever the contract. */
  lemma FullAnalysisIsCanned(parse: Parser, prompt: string)
    requires AsksFullAnalysis(LowerStr(prompt))
    ensures Call(parse, prompt) == Ok(Findings([ReentrancyFinding]))
    ensures ReentrancyFinding.category == "SWC-107" && ReentrancyFinding.severity == "high"
    ensures ReentrancyFinding.confidence == 0.85
  {
  }

  /** Cross-verification always confirms the one reentrancy finding. */
  lemma CrossCheckIsCanned(parse: Parser, prompt: string)
    requires !AsksFullAnalysis(LowerStr(prompt)) && AsksCrossCheck(LowerStr(prompt))
    ensures Call(parse, prompt) == Ok(Verifications([CrossCheckItem]))
    ensures CrossCheckItem.decision == "confirm" && CrossCheckItem.id == Str("vuln-reentrancy")
  {
  }

  /** The stance rule: one answer, confirming exactly when the snippets
      mention a keyword; a confirmation has confidence 0.9 and asks for
      nothing more, a dispute has confidence 0.4 and asks for more. Its id is
      the item's "id", "vuln-1" when absent. */
  lemma StanceRule(parse: Parser, prompt: string)
    requires StanceFor(parse, prompt).Ok?
    ensures var s := StanceFor(parse, prompt).value; var item := VerificationItem(parse, prompt);
      && item.Obj?
      && s.id == Get(item.fields, "id", Str("vuln-1"))
      && (s.stance == "confirm" <==> MentionsKeyword(EvidenceText(prompt)))
      && (s.stance == "dispute" <==> !MentionsKeyword(EvidenceText(prompt)))
      && (s.stance == "confirm" <==> s.confidence == 0.9 && s.whatIsMissing == None)
      && (s.stance == "dispute" <==> s.confidence == 0.4 && s.whatIsMissing.Some?)
  {
  }

  /** A prompt whose braces do not decode answers for "vuln-1". */
  lemma UndecodableItemIsVuln1(parse: Parser, prompt: string)
    requires parse(PySlice(prompt, Find(prompt, "{"), RFind(prompt, "}") + 1)).None?
    ensures StanceFor(parse, prompt).Ok? && StanceFor(parse, prompt).value.id == Str("vuln-1")
  {
  }

  /** Without the snippet marker (letter case as written) the answer is a
      dispute. */
  lemma NoSnippetsDisputes(parse: Parser, prompt: string)
    requires !Contains(prompt, SnippetMarker) && StanceFor(parse, prompt).Ok?
    ensures StanceFor(parse, prompt).value.stance == "dispute"
  {
    NoKeywordInEmpty();
  }

  lemma NoKeywordInEmpty()
    ensures !MentionsKeyword("")
  {
    forall i | 0 <= i < |StanceKeywords|
      ensures !Contains("", StanceKeywords[i])
    {
      assert !OccursAt("", StanceKeywords[i], 0);
    }
  }

  /** With a single snippet marker, the evidence is the lowercased text after
      it. */
  lemma EvidenceAfterSingleMarker(prompt: string)
    requires Contains(prompt, SnippetMarker)
    requires !Contains(prompt[Find(prompt, SnippetMarker) + |SnippetMarker|..], SnippetMarker)
    ensures EvidenceText(prompt) == LowerStr(prompt[Find(prompt, SnippetMarker) + |SnippetMarker|..])
  {
    var rest := prompt[Find(prompt, SnippetMarker) + |SnippetMarker|..];
    assert SplitOn(rest, SnippetMarker) == [rest];
    assert SplitOn(prompt, SnippetMarker)[1..] == [rest];
  }

  /** The lowercased snippet marker: it starts with `r`, ends with `:`, holds
      no `{`, `(` or `y`, and its only `l` is its third character. */
  lemma MarkerLetters()
    ensures var d := LowerStr(SnippetMarker);
      && |d| == 27 && d[0] == 'r' && d[26] == ':'
      && forall t :: 0 <= t < |d| ==> d[t] != '{' && d[t] != '(' && d[t] != 'y' && (d[t] == 'l' ==> t == 2)
  {
    MarkerLowered();
  }

  lemma MarkerLowered()
    ensures LowerStr(SnippetMarker) == "relevant contract snippets:"
  {
  }

  /** No stance keyword holds a line break or a colon, and each is non-empty. */
  lemma KeywordLetters(k: nat)
    requires k < |StanceKeywords|
    ensures var kw := StanceKeywords[k];
      && |kw| > 0
      && (forall t :: 0 <= t < |kw| ==> kw[t] != '\n' && kw[t] != ':')
      && (kw[|kw| - 1] == '{' || kw[|kw| - 1] == '(' || kw[|kw| - 1] == 'y' || (|kw| == 12 && kw[11] == 'l' && kw[9] == 'a'))
  {
  }

  /** A keyword found in `x`, a line break and `y` is found in `x` or in `y`. */
  lemma KeywordAcrossNewline(x: string, y: string, k: nat)
    requires k < |StanceKeywords| && Contains(x + "\n" + y, StanceKeywords[k])
    ensures Contains(x, StanceKeywords[k]) || Contains(y, StanceKeywords[k])
  {
    KeywordLetters(k);
    NoneAcrossNewline(x, y, StanceKeywords[k]);
  }

  lemma NoneAcrossNewline(x: string, y: string, kw: string)
    requires forall t :: 0 <= t < |kw| ==> kw[t] != '\n'
    requires Contains(x + "\n" + y, kw)
    ensures Contains(x, kw) || Contains(y, kw)
  {
    var s := x + "\n" + y;
    var j := Find(s, kw);
    if j + |kw| <= |x| {
      assert s[j..j + |kw|] == x[j..j + |kw|];
      ContainsAt(x, kw, j);
    } else if j > |x| {
      var o := j - |x| - 1;
      forall t | 0 <= t < |kw|
        ensures y[o + t] == kw[t]
      {
        OccurrenceChar(s, kw, j, j + t);
      }
      assert y[o..o + |kw|] == kw;
      ContainsAt(y, kw, o);
    } else {
      OccurrenceChar(s, kw, j, |x|);
      MiddleChar(x, "\n", y, 0);
      assert false;
    }
  }

  /** A keyword found in `x`, the lowercased marker and `y` is found in `x` or
      in `y`: no keyword can run into or out of the marker. */
  lemma KeywordAcrossMarker(x: string, y: string, k: nat)
    requires k < |StanceKeywords| && Contains(x + LowerStr(SnippetMarker) + y, StanceKeywords[k])
    ensures Contains(x, StanceKeywords[k]) || Contains(y, StanceKeywords[k])
  {
    KeywordLetters(k);
    NoneAcrossMarker(x, y, StanceKeywords[k]);
  }

  /** The marker ends in `:`, which a keyword never holds, so a keyword cannot
      run out of it; a keyword that ends inside it ends on a character the
      marker lacks, or is `delegatecall`, whose `all` would have to be the
      marker's `rel`. */
  lemma NoneAcrossMarker(x: string, y: string, kw: string)
    requires |kw| > 0 && forall t :: 0 <= t < |kw| ==> kw[t] != ':'
    requires kw[|kw| - 1] == '{' || kw[|kw| - 1] == '(' || kw[|kw| - 1] == 'y' || (|kw| == 12 && kw[11] == 'l' && kw[9] == 'a')
    requires Contains(x + LowerStr(SnippetMarker) + y, kw)
    ensures Contains(x, kw) || Contains(y, kw)
  {
    var d := LowerStr(SnippetMarker);
    var s := x + d + y;
    var a := |x|;
    var j := Find(s, kw);
    MarkerLetters();
    if j + |kw| <= a {
      assert s[j..j + |kw|] == x[j..j + |kw|];
      ContainsAt(x, kw, j);
    } else if j >= a + |d| {
      assert s[j..j + |kw|] == y[j - a - |d|..j - a - |d| + |kw|];
      ContainsAt(y, kw, j - a - |d|);
    } else if j + |kw| >= a + |d| {
      OccurrenceChar(s, kw, j, a + |d| - 1);
      MiddleChar(x, d, y, |d| - 1);
      assert false;
    } else {
      OccurrenceChar(s, kw, j, j + |kw| - 1);
      MiddleChar(x, d, y, j + |kw| - 1 - a);
      if kw[|kw| - 1] == 'l' {
        OccurrenceChar(s, kw, j, a);
        MiddleChar(x, d, y, 0);
      }
      assert false;
    }
  }

  /** A keyword occurs in the lowercased join of `parts` (by a line break or by
      the marker) exactly when it occurs in one lowercased part. */
  lemma {:induction false} KeywordInJoin(sep: string, parts: seq<string>, k: nat)
    requires sep == "\n" || sep == SnippetMarker
    requires k < |StanceKeywords|
    ensures Contains(LowerStr(Join(sep, parts)), StanceKeywords[k]) <==>
      exists i :: 0 <= i < |parts| && Contains(LowerStr(parts[i]), StanceKeywords[k])
  {
    var kw := StanceKeywords[k];
    if parts == [] {
      KeywordLetters(k);
      assert !OccursAt(LowerStr(""), kw, 0);
    } else if |parts| >= 2 {
      var rest := parts[1..];
      KeywordInJoin(sep, rest, k);
      KeywordInJoinStep(sep, parts, k);
      assert forall i :: 1 <= i < |parts| ==> parts[i] == rest[i - 1];
    }
  }

  /** One step of `KeywordInJoin`: the first part, or the join of the rest. */
  lemma KeywordInJoinStep(sep: string, parts: seq<string>, k: nat)
    requires sep == "\n" || sep == SnippetMarker
    requires k < |StanceKeywords| && |parts| >= 2
    ensures Contains(LowerStr(Join(sep, parts)), StanceKeywords[k]) <==>
      Contains(LowerStr(parts[0]), StanceKeywords[k]) || Contains(LowerStr(Join(sep, parts[1..])), StanceKeywords[k])
  {
    var kw := StanceKeywords[k];
    var x := LowerStr(parts[0]);
    var y := LowerStr(Join(sep, parts[1..]));
    var d := LowerStr(sep);
    LowerConcat(parts[0] + sep, Join(sep, parts[1..]));
    LowerConcat(parts[0], sep);
    assert LowerStr(Join(sep, parts)) == x + d + y;
    if Contains(x, kw) {
      ContainsConcat(x, d, kw);
      ContainsConcat(x + d, y, kw);
    } else if Contains(y, kw) {
      ContainsConcat(x + d, y, kw);
    } else if Contains(x + d + y, kw) {
      if sep == "\n" {
        assert d == "\n";
        KeywordAcrossNewline(x, y, k);
      } else {
        KeywordAcrossMarker(x, y, k);
      }
    }
  }

  /** The snippet rule for any prompt holding the marker: the evidence holds a
      keyword exactly when the lowercased text after the first marker does.
      Later markers become line breaks in the evidence, and no keyword can
      straddle either of them. */
  lemma EvidenceMentionsKeyword(prompt: string)
    requires Contains(prompt, SnippetMarker)
    ensures MentionsKeyword(EvidenceText(prompt)) <==>
      MentionsKeyword(LowerStr(prompt[Find(prompt, SnippetMarker) + |SnippetMarker|..]))
  {
    var rest := prompt[Find(prompt, SnippetMarker) + |SnippetMarker|..];
    var parts := SplitOn(rest, SnippetMarker);
    assert SplitOn(prompt, SnippetMarker)[1..] == parts;
    forall k | 0 <= k < |StanceKeywords|
      ensures Contains(EvidenceText(prompt), StanceKeywords[k]) <==> Contains(LowerStr(rest), StanceKeywords[k])
    {
      KeywordInJoin("\n", parts, k);
      KeywordInJoin(SnippetMarker, parts, k);
    }
  }
}
