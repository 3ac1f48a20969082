/**
  The final report (final_report.py): the phase-3 verifications of both
  models flattened into one list of findings, with the fields renamed, and
  the contract id.

  The report file is given as its text, `None` when the file does not exist;
  `json.load` is the `parse` parameter, and writing the result back to disk
  is not modelled.
*/
module FinalReporting {
  import opened JsonValue
  import opened Text

  /** One element of `final_findings`; a field absent from the entry is `null`. */
  datatype FinalFinding = FinalFinding(
    id: Json,
    title: Json,
    category: Json,
    severity: Json,
    confidence: Json,
    decision: Json,
    reason: Json)

  /** The report written to disk. */
  datatype FinalReport = FinalReport(contractId: Json, finalFindings: seq<FinalFinding>)

  /** The two sides, in the order they are gathered. */
  const Sides: seq<string> := ["llm1_on_llm2", "llm2_on_llm1"]

  /** The renaming of one verification entry. */
  function Rename(entry: map<string, Json>): FinalFinding {
    FinalFinding(
      Get(entry, "id", Null),
      Get(entry, "original_title", Null),
      Get(entry, "corrected_category", Null),
      Get(entry, "corrected_severity", Null),
      Get(entry, "confidence", Null),
      Get(entry, "decision", Null),
      Get(entry, "reason", Null))
  }

  predicate Objects(es: seq<Json>) {
    forall i :: 0 <= i < |es| ==> es[i].Obj?
  }

  /** The entries renamed one by one, in order. */
  function Renamed(es: seq<Json>): (r: seq<FinalFinding>)
    requires Objects(es)
    ensures |r| == |es|
    ensures forall i {:trigger r[i]} :: 0 <= i < |es| ==> r[i] == Rename(es[i].fields)
  {
    seq(|es|, i requires 0 <= i < |es| => Rename(es[i].fields))
  }

  /** The items a `for` loop meets in a side's value, when every one of them
      answers `.get`: a list gives its items, a string its characters; a
      non-empty dict gives its keys, which are strings, so the first of them
      already fails; a number, a bool or `null` cannot be iterated. */
  function SideItems(v: Json): Result<seq<Json>> {
    match v
    case Arr(xs) => Ok(xs)
    case Str(s) => Ok(seq(|s|, i requires 0 <= i < |s| => Str([s[i]])))
    case Obj(m) => if m == map[] then Ok([]) else Err(AttributeError)
    case _ => Err(TypeError)
  }

  /** The findings gathered from one side of `phase3_verifications`. */
  function SideFindings(pv: Json, side: string): Result<seq<FinalFinding>> {
    if !pv.Obj? then Err(AttributeError)
    else
      match SideItems(Get(pv.fields, side, Arr([])))
      case Err(e) => Err(e)
      case Ok(es) => if Objects(es) then Ok(Renamed(es)) else Err(AttributeError)
  }

  /** The findings gathered from the given sides, one side after the other. */
  function SidesFindings(pv: Json, sides: seq<string>): Result<seq<FinalFinding>> {
    if sides == [] then Ok([])
    else
      match SidesFindings(pv, sides[..|sides| - 1])
      case Err(e) => Err(e)
      case Ok(acc) =>
        match SideFindings(pv, sides[|sides| - 1])
        case Err(e) => Err(e)
        case Ok(fs) => Ok(acc + fs)
  }

  /** `"phase3_verifications" in data`, for any decoded value. */
  function HasPhase3(data: Json): Result<bool> {
    match data
    case Obj(m) => Ok("phase3_verifications" in m)
    case Arr(xs) => Ok(Str("phase3_verifications") in xs)
    case Str(s) => Ok(Contains(s, "phase3_verifications"))
    case _ => Err(TypeError)
  }

  /** `final_findings` for the decoded report. */
  function FindingsOf(data: Json): Result<seq<FinalFinding>> {
    match HasPhase3(data)
    case Err(e) => Err(e)
    case Ok(present) =>
      if !present then Ok([])
      // `data["phase3_verifications"]` on a list or a string
      else if !data.Obj? then Err(TypeError)
      else SidesFindings(data.fields["phase3_verifications"], Sides)
  }

  /** `generate_final_report`: `None` when the report file is missing,
      ValueError when it is not JSON. */
  function FinalReportOf(parse: Parser, report: Option<string>): Result<Option<FinalReport>> {
    if report.None? then Ok(None)
    else
      match parse(report.value)
      case None => Err(ValueError)
      case Some(data) =>
        match FindingsOf(data)
        case Err(e) => Err(e)
        case Ok(fs) =>
          if !data.Obj? then Err(AttributeError)
          else Ok(Some(FinalReport(Get(data.fields, "contract_id", Null), fs)))
  }

  /** Without a report file nothing is produced. */
  lemma MissingReportGivesNothing(parse: Parser)
    ensures FinalReportOf(parse, None) == Ok(None)
  {
  }

  /** The findings are all entries of the first side, renamed, then all entries of the
      second, with nothing dropped or merged; a side that is absent counts as empty.
      Entry by entry, `Renamed` and `RenamedConcat` give each finding's fields. */
  lemma FindingsConcatenateSides(data: Json)
    requires data.Obj? && "phase3_verifications" in data.fields
    requires var pv := data.fields["phase3_verifications"];
      pv.Obj? && forall s :: s in Sides && s in pv.fields ==> pv.fields[s].Arr? && Objects(pv.fields[s].items)
    ensures var pv := data.fields["phase3_verifications"];
      var es1 := Get(pv.fields, Sides[0], Arr([])).items;
      var es2 := Get(pv.fields, Sides[1], Arr([])).items;
      Objects(es1) && Objects(es2) && FindingsOf(data) == Ok(Renamed(es1) + Renamed(es2))
  {
    BothSides(data.fields["phase3_verifications"]);
  }

  /** The two sides, each renamed, one after the other. */
  lemma BothSides(pv: Json)
    requires pv.Obj? && forall s :: s in Sides && s in pv.fields ==> pv.fields[s].Arr? && Objects(pv.fields[s].items)
    ensures var es1 := Get(pv.fields, Sides[0], Arr([])).items;
      var es2 := Get(pv.fields, Sides[1], Arr([])).items;
      Objects(es1) && Objects(es2) && SidesFindings(pv, Sides) == Ok(Renamed(es1) + Renamed(es2))
  {
    var es1 := Get(pv.fields, Sides[0], Arr([])).items;
    var es2 := Get(pv.fields, Sides[1], Arr([])).items;
    assert Sides[0] in Sides && Sides[1] in Sides;
    assert SideFindings(pv, Sides[0]) == Ok(Renamed(es1));
    assert SideFindings(pv, Sides[1]) == Ok(Renamed(es2));
    var one := Sides[..1];
    assert one[..0] == [] && one[0] == Sides[0];
    assert SidesFindings(pv, one[..0]) == Ok([]);
    assert [] + Renamed(es1) == Renamed(es1);
    assert SidesFindings(pv, one) == Ok(Renamed(es1));
    assert Sides[..|Sides| - 1] == one;
  }

  /** Two renamed runs, one after the other, entry by entry. */
  lemma RenamedConcat(es1: seq<Json>, es2: seq<Json>)
    requires Objects(es1) && Objects(es2)
    ensures var r := Renamed(es1) + Renamed(es2);
      && |r| == |es1| + |es2|
      && (forall i :: 0 <= i < |es1| ==> r[i] == Rename(es1[i].fields))
      && (forall i :: 0 <= i < |es2| ==> r[|es1| + i] == Rename(es2[i].fields))
  {
    var r1, r2 := Renamed(es1), Renamed(es2);
    forall i | 0 <= i < |es1|
      ensures (r1 + r2)[i] == Rename(es1[i].fields)
    {
      assert (r1 + r2)[i] == r1[i];
    }
    forall i | 0 <= i < |es2|
      ensures (r1 + r2)[|es1| + i] == Rename(es2[i].fields)
    {
      assert (r1 + r2)[|r1| + i] == r2[i];
    }
  }

  /** Each finding copies `id`, `confidence`, `decision` and `reason`, and
      takes `title`, `category` and `severity` from `original_title`,
      `corrected_category` and `corrected_severity`; absent fields are `null`. */
  lemma RenameFields(entry: map<string, Json>, key: string)
    requires key in {"id", "confidence", "decision", "reason", "original_title", "corrected_category", "corrected_severity"}
    ensures var f := Rename(entry); var v := if key in entry then entry[key] else Null;
      match key
      case "id" => f.id == v
      case "confidence" => f.confidence == v
      case "decision" => f.decision == v
      case "reason" => f.reason == v
      case "original_title" => f.title == v
      case "corrected_category" => f.category == v
      case _ => f.severity == v
  {
  }

  /** A report without `phase3_verifications` has no findings but keeps
      its contract id (`null` when absent). */
  lemma NoVerificationsNoFindings(parse: Parser, text: string, m: map<string, Json>)
    requires parse(text) == Some(Obj(m)) && "phase3_verifications" !in m
    ensures FinalReportOf(parse, Some(text)) == Ok(Some(FinalReport(Get(m, "contract_id", Null), [])))
  {
  }

  /** Whenever a report is produced, its contract id is the input's. */
  lemma ContractIdCopied(parse: Parser, text: string)
    requires FinalReportOf(parse, Some(text)).Ok? && FinalReportOf(parse, Some(text)).value.Some?
    ensures parse(text).Some? && parse(text).value.Obj?
    ensures FinalReportOf(parse, Some(text)).value.value.contractId == Get(parse(text).value.fields, "contract_id", Null)
  {
  }

  /** The imperative version: the nested loop over the sides and their
      entries, appending one renamed finding per entry. */
  method GenerateFinalReport(parse: Parser, report: Option<string>) returns (r: Result<Option<FinalReport>>)
    ensures r == FinalReportOf(parse, report)
  {
    if report.None? {
      return Ok(None);
    }
    var parsed := parse(report.value);
    if parsed.None? {
      return Err(ValueError);
    }
    var data := parsed.value;
    var present := HasPhase3(data);
    if present.Err? {
      return Err(present.error);
    }
    var findings: seq<FinalFinding> := [];
    if present.value {
      if !data.Obj? {
        return Err(TypeError);
      }
      var pv := data.fields["phase3_verifications"];
      var s := 0;
      while s < |Sides|
        invariant 0 <= s <= |Sides|
        invariant SidesFindings(pv, Sides[..s]) == Ok(findings)
      {
        assert Sides[..s + 1][..s] == Sides[..s];
        if !pv.Obj? {
          SidesStopAt(pv, s + 1);
          return Err(AttributeError);
        }
        var items := SideItems(Get(pv.fields, Sides[s], Arr([])));
        if items.Err? {
          SidesStopAt(pv, s + 1);
          return Err(items.error);
        }
        var es := items.value;
        var base := findings;
        var j := 0;
        while j < |es|
          invariant 0 <= j <= |es|
          invariant Objects(es[..j]) && findings == base + Renamed(es[..j])
        {
          var entry := es[j];
          if !entry.Obj? {
            assert !Objects(es);
            SidesStopAt(pv, s + 1);
            return Err(AttributeError);
          }
          assert es[..j + 1] == es[..j] + [entry];
          findings := findings + [Rename(entry.fields)];
          j := j + 1;
        }
        assert es[..j] == es;
        s := s + 1;
      }
      assert Sides[..s] == Sides;
    }
    if !data.Obj? {
      return Err(AttributeError);
    }
    r := Ok(Some(FinalReport(Get(data.fields, "contract_id", Null), findings)));
  }

  lemma {:induction false} SidesStopAt(pv: Json, i: nat)
    requires i <= |Sides| && SidesFindings(pv, Sides[..i]).Err?
    ensures SidesFindings(pv, Sides) == SidesFindings(pv, Sides[..i])
    decreases |Sides| - i
  {
    if i < |Sides| {
      assert Sides[..i + 1][..i] == Sides[..i];
      SidesStopAt(pv, i + 1);
    } else {
      assert Sides[..i] == Sides;
    }
  }
}
