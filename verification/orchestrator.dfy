/**
  The orchestrator's bookkeeping (orchestrator.py): indexing a contract
  before the analysis starts, and `build_final_report`, which merges the
  phase-1 findings by id, takes the first phase-3 decision per id, sorts the
  decisions into confirmed and disputed, and assembles the final report.

  Every Python exception the report building can raise on odd input is kept
  as an `Err` result, raised at the same point of the computation.
*/
module Orchestration {
  import opened JsonValue
  import opened Text
  import opened Chunking
  import opened RagStore

  /** A phase-1 finding or phase-3 entry: a decoded JSON object. */
  type Finding = map<string, Json>

  /** `phase1_findings`: the kept finding for each id. */
  type Merged = map<Json, Finding>

  /** `d.get(key, default)` where `d` may be any decoded value: only a dict
      has `.get`. */
  function DictGet(d: Json, key: string, default: Json): (r: Result<Json>)
    ensures r.Ok? <==> d.Obj?
    ensures d.Obj? ==> r.value == Get(d.fields, key, default)
  {
    if d.Obj? then Ok(Get(d.fields, key, default)) else Err(AttributeError)
  }

  /** The items a `for` loop meets in `a + b`: two lists concatenate, two
      strings concatenate into their characters; any other pairing either
      cannot be added or gives something that cannot be iterated. */
  function PlusItems(a: Json, b: Json): (r: Result<seq<Json>>)
    ensures r.Ok? <==> (a.Arr? && b.Arr?) || (a.Str? && b.Str?)
    ensures a.Arr? && b.Arr? ==> r == Ok(a.items + b.items)
    ensures a.Str? && b.Str? ==> r.Ok? && |r.value| == |a.s| + |b.s|
    ensures a.Str? && b.Str? ==> forall i :: 0 <= i < |a.s| ==> r.value[i] == Str([a.s[i]])
    ensures a.Str? && b.Str? ==> forall i :: 0 <= i < |b.s| ==> r.value[|a.s| + i] == Str([b.s[i]])
  {
    if a.Arr? && b.Arr? then Ok(a.items + b.items)
    else if a.Str? && b.Str? then
      var t := a.s + b.s;
      Ok(seq(|t|, i requires 0 <= i < |t| => Str([t[i]])))
    else Err(TypeError)
  }

  /** `results.get(phase, {}).get(left, []) + results.get(phase, {}).get(right, [])`,
      evaluated left to right. */
  function PhaseItems(results: map<string, Json>, phase: string, left: string, right: string): Result<seq<Json>> {
    var d := Get(results, phase, Obj(map[]));
    match DictGet(d, left, Arr([]))
    case Err(e) => Err(e)
    case Ok(a) =>
      match DictGet(d, right, Arr([]))
      case Err(e) => Err(e)
      case Ok(b) => PlusItems(a, b)
  }

  /** `f["confidence"] > g["confidence"]`: KeyError when either has no
      confidence, TypeError when the two cannot be compared. */
  function ConfGreater(f: Finding, g: Finding): (r: Result<bool>)
    ensures r.Ok? ==> "confidence" in f && "confidence" in g
  {
    if "confidence" !in f || "confidence" !in g then Err(KeyError)
    else Greater(f["confidence"], g["confidence"])
  }

  /** A finding that enters the merge: an object with an "id" key. */
  predicate HasId(f: Json) {
    f.Obj? && "id" in f.fields
  }

  /** One pass of the phase-1 loop body on `finding`. */
  function MergeStep(m: Merged, f: Json): Result<Merged> {
    if !Truthy(f) then Ok(m)
    else
      match f
      case Obj(fields) =>
        if "id" !in fields then Ok(m)
        else
          var id := fields["id"];
          if !Hashable(id) then Err(TypeError)
          else if id !in m then Ok(m[id := fields])
          else
            (match ConfGreater(fields, m[id])
             case Err(e) => Err(e)
             case Ok(gt) => Ok(if gt then m[id := fields] else m))
      // `"id" in xs` compares with each item; `xs["id"]` then fails.
      case Arr(xs) => if Str("id") in xs then Err(TypeError) else Ok(m)
      // `"id" in s` is a substring test; `s["id"]` then fails.
      case Str(s) => if Contains(s, "id") then Err(TypeError) else Ok(m)
      // a number or a bool cannot be searched with `in`
      case _ => Err(TypeError)
  }

  /** The phase-1 loop over `fs`, from an empty map. */
  function Merge(fs: seq<Json>): Result<Merged> {
    if fs == [] then Ok(map[])
    else
      match Merge(fs[..|fs| - 1])
      case Err(e) => Err(e)
      case Ok(m) => MergeStep(m, fs[|fs| - 1])
  }

  /** Once the loop has raised, the rest of the findings change nothing. */
  lemma {:induction false} MergeStopsAt(fs: seq<Json>, i: nat)
    requires i <= |fs| && Merge(fs[..i]).Err?
    ensures Merge(fs) == Merge(fs[..i])
    decreases |fs| - i
  {
    if i < |fs| {
      assert fs[..i + 1][..i] == fs[..i];
      MergeStopsAt(fs, i + 1);
    } else {
      assert fs[..i] == fs;
    }
  }

  /** `k` is the finding kept for `id` among `fs`: it has that id, its
      confidence is strictly above that of every earlier finding with the id
      (so on a tie the earlier one stays), and no later finding with the id
      is above it. */
  ghost predicate Best(fs: seq<Json>, id: Json, k: nat) {
    && k < |fs| && HasId(fs[k]) && fs[k].fields["id"] == id
    && (forall j :: 0 <= j < k && HasId(fs[j]) && fs[j].fields["id"] == id ==>
          ConfGreater(fs[k].fields, fs[j].fields) == Ok(true))
    && (forall j :: k < j < |fs| && HasId(fs[j]) && fs[j].fields["id"] == id ==>
          ConfGreater(fs[j].fields, fs[k].fields) == Ok(false))
  }

  /** The merged map holds exactly the ids of the objects with an "id" key,
      each with its best finding. */
  ghost predicate MergedFrom(fs: seq<Json>, m: Merged) {
    && (forall id :: id in m <==> exists j :: 0 <= j < |fs| && HasId(fs[j]) && fs[j].fields["id"] == id)
    && (forall id :: id in m ==> exists k: nat :: Best(fs, id, k) && m[id] == fs[k].fields)
  }

  /** The merge keeps, for each id, the highest-confidence finding, the
      first one on ties; falsy items and items without an "id" key never
      enter it. */
  lemma {:induction false} MergeKeepsBest(fs: seq<Json>)
    requires Merge(fs).Ok?
    ensures MergedFrom(fs, Merge(fs).value)
  {
    if fs != [] {
      var p := fs[..|fs| - 1];
      MergeKeepsBest(p);
      MergeStepKeepsBest(fs, Merge(p).value);
    }
  }

  lemma MergeStepKeepsBest(fs: seq<Json>, m0: Merged)
    requires fs != [] && MergedFrom(fs[..|fs| - 1], m0)
    requires MergeStep(m0, fs[|fs| - 1]).Ok?
    ensures MergedFrom(fs, MergeStep(m0, fs[|fs| - 1]).value)
  {
    var m := MergeStep(m0, fs[|fs| - 1]).value;
    MergeStepDomain(fs, m0);
    forall id | id in m
      ensures exists k: nat :: Best(fs, id, k) && m[id] == fs[k].fields
    {
      MergeStepWitness(fs, m0, id);
    }
  }

  /** One more finding adds its id, if it has one, and nothing else. */
  lemma MergeStepDomain(fs: seq<Json>, m0: Merged)
    requires fs != [] && MergedFrom(fs[..|fs| - 1], m0)
    requires MergeStep(m0, fs[|fs| - 1]).Ok?
    ensures var m := MergeStep(m0, fs[|fs| - 1]).value;
      forall id :: id in m <==> exists j :: 0 <= j < |fs| && HasId(fs[j]) && fs[j].fields["id"] == id
  {
    var n := |fs| - 1;
    assert forall j :: 0 <= j < n ==> fs[..n][j] == fs[j];
  }

  lemma MergeStepWitness(fs: seq<Json>, m0: Merged, id: Json)
    requires fs != [] && MergedFrom(fs[..|fs| - 1], m0)
    requires MergeStep(m0, fs[|fs| - 1]).Ok?
    requires id in MergeStep(m0, fs[|fs| - 1]).value
    ensures exists k: nat :: Best(fs, id, k) && MergeStep(m0, fs[|fs| - 1]).value[id] == fs[k].fields
  {
    var n := |fs| - 1;
    var p := fs[..n];
    var f := fs[n];
    MergeStepAt(m0, f, id);
    if HasId(f) && f.fields["id"] == id && id !in m0 {
      BestNew(fs, id);
    } else {
      var k: nat :| Best(p, id, k) && m0[id] == p[k].fields;
      assert p[k] == fs[k];
      if HasId(f) && f.fields["id"] == id && ConfGreater(f.fields, m0[id]) == Ok(true) {
        BestReplaced(fs, id, k);
      } else {
        BestKept(fs, id, k);
      }
    }
  }

  /** Where one step puts a finding for `id`: the new finding when it has
      that id and the id is new or the finding is above the stored one;
      otherwise the stored finding. */
  lemma MergeStepAt(m0: Merged, f: Json, id: Json)
    requires MergeStep(m0, f).Ok? && id in MergeStep(m0, f).value
    ensures var m := MergeStep(m0, f).value;
      if HasId(f) && f.fields["id"] == id && id !in m0 then m[id] == f.fields
      else
        && id in m0
        && (HasId(f) && f.fields["id"] == id ==> ConfGreater(f.fields, m0[id]).Ok?)
        && m[id] == (if HasId(f) && f.fields["id"] == id && ConfGreater(f.fields, m0[id]) == Ok(true) then f.fields else m0[id])
  {
  }

  /** The first finding with an id is the kept one so far. */
  lemma BestNew(fs: seq<Json>, id: Json)
    requires fs != [] && HasId(fs[|fs| - 1]) && fs[|fs| - 1].fields["id"] == id
    requires forall j :: 0 <= j < |fs| - 1 ==> !(HasId(fs[j]) && fs[j].fields["id"] == id)
    ensures Best(fs, id, |fs| - 1)
  {
  }

  /** A later finding that is not above the kept one leaves it kept. */
  lemma BestKept(fs: seq<Json>, id: Json, k: nat)
    requires fs != [] && Best(fs[..|fs| - 1], id, k)
    requires HasId(fs[|fs| - 1]) && fs[|fs| - 1].fields["id"] == id ==>
      ConfGreater(fs[|fs| - 1].fields, fs[k].fields) == Ok(false)
    ensures Best(fs, id, k)
  {
    assert forall j :: 0 <= j < |fs| - 1 ==> fs[..|fs| - 1][j] == fs[j];
  }

  /** A later finding above the kept one is above every earlier finding with
      that id. */
  lemma BestReplaced(fs: seq<Json>, id: Json, k: nat)
    requires fs != [] && Best(fs[..|fs| - 1], id, k)
    requires HasId(fs[|fs| - 1]) && fs[|fs| - 1].fields["id"] == id
    requires ConfGreater(fs[|fs| - 1].fields, fs[k].fields) == Ok(true)
    ensures Best(fs, id, |fs| - 1)
  {
    var n := |fs| - 1;
    var f := fs[n];
    assert forall j :: 0 <= j < n ==> fs[..n][j] == fs[j];
    forall j | 0 <= j < n && HasId(fs[j]) && fs[j].fields["id"] == id
      ensures ConfGreater(f.fields, fs[j].fields) == Ok(true)
    {
      if j < k {
        GreaterTransitive(fs[j].fields["confidence"], fs[k].fields["confidence"], f.fields["confidence"]);
      } else if k < j {
        GreaterAfterNotGreater(fs[j].fields["confidence"], fs[k].fields["confidence"], f.fields["confidence"]);
      }
    }
  }

  /** One line of `confirmed_vulnerabilities` or `disputed_vulnerabilities`.
      `evidence_rationale` is kept as its two ingredients, the entry's
      reason and the finding's rationale. */
  datatype Vulnerability = Vulnerability(
    status: string,
    typeOfError: Json,
    confidence: Json,
    codeSnippet: Json,
    finalReason: Json,
    initialRationale: Json,
    recommendation: Json)

  /** The details of an entry: its stance, confidence and reason, and the
      title, evidence, rationale and recommendation of the phase-1 finding. */
  function Details(original: Finding, entry: Finding, stance: string): (v: Vulnerability)
    ensures v.status == stance && v.confidence == Get(entry, "confidence", Null)
    ensures v.finalReason == Get(entry, "reason", Null)
    ensures v.typeOfError == (if "title" in original then original["title"] else Str("N/A"))
    ensures v.codeSnippet == Get(original, "evidence", Null) && v.initialRationale == Get(original, "rationale", Null)
    ensures v.recommendation == Get(original, "recommendation", Null)
  {
    Vulnerability(
      stance,
      Get(original, "title", Str("N/A")),
      Get(entry, "confidence", Null),
      Get(original, "evidence", Null),
      Get(entry, "reason", Null),
      Get(original, "rationale", Null),
      Get(original, "recommendation", Null))
  }

  /** The state of the phase-3 loop. */
  datatype Progress = Progress(processed: set<Json>, confirmed: seq<Vulnerability>, disputed: seq<Vulnerability>)

  /** `phase1_findings.get(entry_id, {})` */
  function Original(p1: Merged, id: Json): Finding {
    if id in p1 then p1[id] else map[]
  }

  /** One pass of the phase-3 loop body on `entry`. */
  function ProcessStep(p1: Merged, st: Progress, e: Json): Result<Progress> {
    if !e.Obj? then Err(AttributeError)
    else
      var id := Get(e.fields, "id", Null);
      if !Truthy(id) then Ok(st)
      else if !Hashable(id) then Err(TypeError)
      else if id in st.processed then Ok(st)
      else
        var sv := Get(e.fields, "stance", Str("unknown"));
        if !sv.Str? then Err(AttributeError)
        else
          var stance := LowerStr(sv.s);
          var v := Details(Original(p1, id), e.fields, stance);
          var seen := st.processed + {id};
          if stance == "confirm" then Ok(Progress(seen, st.confirmed + [v], st.disputed))
          else if stance == "dispute" then Ok(Progress(seen, st.confirmed, st.disputed + [v]))
          else Ok(Progress(seen, st.confirmed, st.disputed))
  }

  /** The phase-3 loop over `es`, from an empty state. */
  function Process(p1: Merged, es: seq<Json>): Result<Progress> {
    if es == [] then Ok(Progress({}, [], []))
    else
      match Process(p1, es[..|es| - 1])
      case Err(e) => Err(e)
      case Ok(st) => ProcessStep(p1, st, es[|es| - 1])
  }

  lemma {:induction false} ProcessStopsAt(p1: Merged, es: seq<Json>, i: nat)
    requires i <= |es| && Process(p1, es[..i]).Err?
    ensures Process(p1, es) == Process(p1, es[..i])
    decreases |es| - i
  {
    if i < |es| {
      assert es[..i + 1][..i] == es[..i];
      ProcessStopsAt(p1, es, i + 1);
    } else {
      assert es[..i] == es;
    }
  }

  predicate AllObjects(es: seq<Json>) {
    forall j :: 0 <= j < |es| ==> es[j].Obj?
  }

  function EntryId(e: Json): Json
    requires e.Obj?
  {
    Get(e.fields, "id", Null)
  }

  /** The entry at `j` has a truthy id that no earlier entry has. */
  predicate FirstSeen(es: seq<Json>, j: nat)
    requires AllObjects(es) && j < |es|
  {
    Truthy(EntryId(es[j])) && forall i :: 0 <= i < j ==> EntryId(es[i]) != EntryId(es[j])
  }

  /** Whether an entry is the first with its id does not depend on the entries after it. */
  lemma FirstSeenPrefix(es: seq<Json>, n: nat, j: nat)
    requires AllObjects(es) && j < n <= |es|
    ensures AllObjects(es[..n]) && (FirstSeen(es[..n], j) <==> FirstSeen(es, j))
  {
    assert forall i :: 0 <= i <= j ==> es[..n][i] == es[i];
  }

  /** The positions of the entries that are the first with their truthy id, ascending. */
  function KeptPositions(es: seq<Json>): (r: seq<nat>)
    requires AllObjects(es)
    ensures forall t :: 0 <= t < |r| ==> r[t] < |es|
    ensures forall a, b :: 0 <= a < b < |r| ==> r[a] < r[b]
    ensures forall j :: 0 <= j < |es| ==> (j in r <==> FirstSeen(es, j))
  {
    if es == [] then []
    else
      var n := |es| - 1;
      var r := KeptPositions(es[..n]) + (if FirstSeen(es, n) then [n] else []);
      forall j | 0 <= j < n
        ensures j in r <==> FirstSeen(es, j)
      {
        FirstSeenPrefix(es, n, j);
      }
      r
  }

  /** The entries the loop processes: the first with each truthy id, in order. */
  function Kept(es: seq<Json>): (r: seq<Json>)
    requires AllObjects(es)
    ensures |r| <= |es| && AllObjects(r)
  {
    if es == [] then []
    else Kept(es[..|es| - 1]) + (if FirstSeen(es, |es| - 1) then [es[|es| - 1]] else [])
  }

  /** The kept entries are exactly the entries at `KeptPositions(es)`: every entry that is
      the first with its truthy id, and no other, in input order. */
  lemma {:induction false} KeptInOrder(es: seq<Json>)
    requires AllObjects(es)
    ensures |Kept(es)| == |KeptPositions(es)|
    ensures forall t :: 0 <= t < |Kept(es)| ==> Kept(es)[t] == es[KeptPositions(es)[t]]
  {
    if es != [] {
      var n := |es| - 1;
      var p := es[..n];
      KeptInOrder(p);
      var k, kp := Kept(p), KeptPositions(p);
      var keep := FirstSeen(es, n);
      assert Kept(es) == k + (if keep then [es[n]] else []);
      assert KeptPositions(es) == kp + (if keep then [n] else []);
      forall t | 0 <= t < |k|
        ensures Kept(es)[t] == es[KeptPositions(es)[t]]
      {
        assert Kept(es)[t] == k[t] && KeptPositions(es)[t] == kp[t];
        assert p[kp[t]] == es[kp[t]];
      }
    }
  }

  /** An entry whose stance can be lowercased. */
  predicate HasStance(e: Json) {
    e.Obj? && Get(e.fields, "stance", Str("unknown")).Str?
  }

  function StanceOf(e: Json): string
    requires HasStance(e)
  {
    LowerStr(Get(e.fields, "stance", Str("unknown")).s)
  }

  /** The details of the kept entries whose stance is `s`, in order. */
  function WithStance(p1: Merged, kept: seq<Json>, s: string): seq<Vulnerability>
    requires forall e :: e in kept ==> HasStance(e)
  {
    if kept == [] then []
    else
      var e := kept[|kept| - 1];
      WithStance(p1, kept[..|kept| - 1], s)
        + (if StanceOf(e) == s then [Details(Original(p1, EntryId(e)), e.fields, s)] else [])
  }

  /** The listed details are those of the kept entries with stance `s`, each
      built from the entry and the phase-1 finding with the same id. */
  lemma {:induction false} WithStanceMembers(p1: Merged, kept: seq<Json>, s: string)
    requires forall e :: e in kept ==> HasStance(e)
    ensures forall v :: v in WithStance(p1, kept, s) ==> v.status == s
    ensures forall v :: v in WithStance(p1, kept, s) <==>
      exists e :: e in kept && StanceOf(e) == s && v == Details(Original(p1, EntryId(e)), e.fields, s)
  {
    if kept != [] {
      var e := kept[|kept| - 1];
      var init := kept[..|kept| - 1];
      assert kept == init + [e];
      WithStanceMembers(p1, init, s);
    }
  }

  lemma WithStanceSnoc(p1: Merged, kept: seq<Json>, e: Json, s: string)
    requires forall x :: x in kept ==> HasStance(x)
    requires HasStance(e)
    ensures forall x :: x in kept + [e] ==> HasStance(x)
    ensures WithStance(p1, kept + [e], s) == WithStance(p1, kept, s)
      + (if StanceOf(e) == s then [Details(Original(p1, EntryId(e)), e.fields, s)] else [])
  {
    assert (kept + [e])[..|kept|] == kept;
  }

  /** The loop raises for nothing but a non-object entry, a truthy id that
      is unhashable, or a stance that is not a string on a kept entry. */
  ghost predicate Clean(es: seq<Json>) {
    && AllObjects(es)
    && (forall j :: 0 <= j < |es| && Truthy(EntryId(es[j])) ==> Hashable(EntryId(es[j])))
    && (forall j :: 0 <= j < |es| && FirstSeen(es, j) ==> HasStance(es[j]))
  }

  /** The phase-3 loop succeeds exactly on clean entries. Then it has seen
      every truthy id, processed the first entry per id in order, and
      confirmed (disputed) exactly the kept entries whose lowercased stance
      is "confirm" ("dispute"), in order; other stances are dropped. */
  lemma {:induction false} ProcessMatchesKept(p1: Merged, es: seq<Json>)
    ensures Process(p1, es).Ok? <==> Clean(es)
    ensures Process(p1, es).Ok? ==>
      && (forall e :: e in Kept(es) ==> HasStance(e))
      && (forall x :: x in Process(p1, es).value.processed <==>
            exists j :: 0 <= j < |es| && Truthy(EntryId(es[j])) && EntryId(es[j]) == x)
      && Process(p1, es).value.confirmed == WithStance(p1, Kept(es), "confirm")
      && Process(p1, es).value.disputed == WithStance(p1, Kept(es), "dispute")
  {
    if es != [] {
      var p := es[..|es| - 1];
      ProcessMatchesKept(p1, p);
      CleanPrefix(es);
      if Process(p1, p).Ok? {
        var st0 := Process(p1, p).value;
        if Clean(es) {
          ProcessStepMatches(p1, es, st0);
        } else {
          UncleanStepFails(p1, es, st0);
        }
      }
    }
  }

  /** A clean sequence has clean prefixes. */
  lemma CleanPrefix(es: seq<Json>)
    requires es != []
    ensures Clean(es) ==> Clean(es[..|es| - 1])
  {
    var n := |es| - 1;
    var p := es[..n];
    assert forall j :: 0 <= j < n ==> p[j] == es[j];
    if Clean(es) {
      forall j | 0 <= j < n && FirstSeen(p, j)
        ensures HasStance(p[j])
      {
        assert FirstSeen(es, j);
      }
    }
  }

  /** A step after a clean prefix fails when it makes the sequence unclean. */
  lemma UncleanStepFails(p1: Merged, es: seq<Json>, st0: Progress)
    requires es != [] && !Clean(es)
    requires var p := es[..|es| - 1];
      && Clean(p)
      && (forall x :: x in st0.processed <==> exists j :: 0 <= j < |p| && Truthy(EntryId(p[j])) && EntryId(p[j]) == x)
    ensures ProcessStep(p1, st0, es[|es| - 1]).Err?
  {
    var n := |es| - 1;
    var p := es[..n];
    var e := es[n];
    assert forall j :: 0 <= j < n ==> p[j] == es[j];
    if AllObjects(es) {
      if Truthy(EntryId(e)) && Hashable(EntryId(e)) && EntryId(e) !in st0.processed {
        assert FirstSeen(es, n);
      }
    }
  }

  lemma ProcessStepMatches(p1: Merged, es: seq<Json>, st0: Progress)
    requires es != [] && Clean(es)
    requires var p := es[..|es| - 1];
      && Clean(p)
      && (forall e :: e in Kept(p) ==> HasStance(e))
      && (forall x :: x in st0.processed <==> exists j :: 0 <= j < |p| && Truthy(EntryId(p[j])) && EntryId(p[j]) == x)
      && st0.confirmed == WithStance(p1, Kept(p), "confirm")
      && st0.disputed == WithStance(p1, Kept(p), "dispute")
    ensures ProcessStep(p1, st0, es[|es| - 1]).Ok?
    ensures var st := ProcessStep(p1, st0, es[|es| - 1]).value;
      && (forall e :: e in Kept(es) ==> HasStance(e))
      && (forall x :: x in st.processed <==> exists j :: 0 <= j < |es| && Truthy(EntryId(es[j])) && EntryId(es[j]) == x)
      && st.confirmed == WithStance(p1, Kept(es), "confirm")
      && st.disputed == WithStance(p1, Kept(es), "dispute")
  {
    var n := |es| - 1;
    var p := es[..n];
    var e := es[n];
    var id := EntryId(e);
    var kp := Kept(p);
    assert forall j :: 0 <= j < n ==> p[j] == es[j];
    ProcessedStep(es, st0.processed, if Truthy(id) then st0.processed + {id} else st0.processed);
    if FirstSeen(es, n) {
      assert Kept(es) == kp + [e];
      WithStanceSnoc(p1, kp, e, "confirm");
      WithStanceSnoc(p1, kp, e, "dispute");
    } else {
      assert Kept(es) == kp;
    }
  }

  /** The ids seen so far, one entry later: a first-seen id is new, any
      other truthy id was seen already. */
  lemma ProcessedStep(es: seq<Json>, seen: set<Json>, seen': set<Json>)
    requires es != [] && AllObjects(es)
    requires forall x :: x in seen <==>
      exists j :: 0 <= j < |es| - 1 && Truthy(EntryId(es[j])) && EntryId(es[j]) == x
    requires seen' == if Truthy(EntryId(es[|es| - 1])) then seen + {EntryId(es[|es| - 1])} else seen
    ensures FirstSeen(es, |es| - 1) <==> Truthy(EntryId(es[|es| - 1])) && EntryId(es[|es| - 1]) !in seen
    ensures forall x :: x in seen' <==> exists j :: 0 <= j < |es| && Truthy(EntryId(es[j])) && EntryId(es[j]) == x
  {
  }

  /** The summary: a status line when nothing was confirmed or disputed,
      otherwise the two lists and no status. */
  datatype Summary =
    | Status(message: string)
    | Lists(confirmedVulnerabilities: seq<Vulnerability>, disputedVulnerabilities: seq<Vulnerability>)

  function Summarize(confirmed: seq<Vulnerability>, disputed: seq<Vulnerability>): (s: Summary)
    ensures s.Status? <==> confirmed == [] && disputed == []
    ensures s.Status? ==> s.message == "No vulnerable section found"
    ensures s.Lists? ==> s.confirmedVulnerabilities == confirmed && s.disputedVulnerabilities == disputed
  {
    if confirmed == [] && disputed == [] then Status("No vulnerable section found")
    else Lists(confirmed, disputed)
  }

  /** The final report: the summary and, under `detailed_llm_analysis`,
      the three phases' inputs (`null` when absent). */
  datatype FinalReport = FinalReport(summary: Summary, phase1: Json, phase2: Json, phase3: Json)

  /** `build_final_report(results)`. */
  function FinalReportOf(results: map<string, Json>): Result<FinalReport> {
    match PhaseItems(results, "phase1", "llm1", "llm2")
    case Err(e) => Err(e)
    case Ok(fs) =>
      match Merge(fs)
      case Err(e) => Err(e)
      case Ok(p1) =>
        match PhaseItems(results, "phase3", "llm1_on_llm2", "llm2_on_llm1")
        case Err(e) => Err(e)
        case Ok(es) =>
          match Process(p1, es)
          case Err(e) => Err(e)
          case Ok(st) =>
            Ok(FinalReport(
              Summarize(st.confirmed, st.disputed),
              Get(results, "phase1", Null),
              Get(results, "phase2", Null),
              Get(results, "phase3", Null)))
  }

  /** What a report that was built holds: the confirmed and disputed lists
      are the kept phase-3 entries with those stances, detailed against the
      merged phase-1 findings, and the three phases are passed through. */
  lemma FinalReportContents(results: map<string, Json>)
    requires FinalReportOf(results).Ok?
    ensures PhaseItems(results, "phase1", "llm1", "llm2").Ok?
    ensures Merge(PhaseItems(results, "phase1", "llm1", "llm2").value).Ok?
    ensures PhaseItems(results, "phase3", "llm1_on_llm2", "llm2_on_llm1").Ok?
    ensures var rep := FinalReportOf(results).value;
      var p1 := Merge(PhaseItems(results, "phase1", "llm1", "llm2").value).value;
      var es := PhaseItems(results, "phase3", "llm1_on_llm2", "llm2_on_llm1").value;
      && Clean(es)
      && (forall e :: e in Kept(es) ==> HasStance(e))
      && rep.summary == Summarize(WithStance(p1, Kept(es), "confirm"), WithStance(p1, Kept(es), "dispute"))
      && rep.phase1 == Get(results, "phase1", Null)
      && rep.phase2 == Get(results, "phase2", Null)
      && rep.phase3 == Get(results, "phase3", Null)
  {
    var fs := PhaseItems(results, "phase1", "llm1", "llm2").value;
    var p1 := Merge(fs).value;
    var es := PhaseItems(results, "phase3", "llm1_on_llm2", "llm2_on_llm1").value;
    ProcessMatchesKept(p1, es);
  }

  /** No id is processed twice: the kept entries have distinct, truthy ids. */
  lemma {:induction false} KeptDistinct(es: seq<Json>)
    requires AllObjects(es)
    ensures forall e :: e in Kept(es) ==> Truthy(EntryId(e))
    ensures forall a, b :: 0 <= a < b < |Kept(es)| ==> EntryId(Kept(es)[a]) != EntryId(Kept(es)[b])
    ensures forall e :: e in Kept(es) ==> e in es
  {
    if es != [] {
      var n := |es| - 1;
      var p := es[..n];
      KeptDistinct(p);
      assert forall j :: 0 <= j < n ==> p[j] == es[j];
      var kp := Kept(p);
      if FirstSeen(es, n) {
        var k := kp + [es[n]];
        assert Kept(es) == k;
        forall a | 0 <= a < |kp|
          ensures EntryId(kp[a]) != EntryId(es[n])
        {
          assert kp[a] in p;
        }
      }
    }
  }

  class Orchestrator {
    const rag: Retriever

    constructor(retriever: Retriever)
      ensures rag == retriever
    {
      rag := retriever;
    }

    /** The start of `run_phased`: an absent id becomes
        "default_contract_id", and the contract is indexed under it unless
        the registry already holds that id (an existing record is kept, even
        for different code). Returns the id used. */
    method EnsureIndexed(contractCode: string, contractId: Option<string>) returns (id: string)
      modifies rag.registry
      ensures id == if contractId.Some? then contractId.value else "default_contract_id"
      ensures id in old(rag.registry.store) ==> rag.registry.store == old(rag.registry.store)
      ensures id !in old(rag.registry.store) ==>
        rag.registry.store == old(rag.registry.store)[id := ContractRecord(id, contractCode, SplitByFunction(contractCode))]
    {
      id := if contractId.Some? then contractId.value else "default_contract_id";
      if id !in rag.registry.store {
        var _ := rag.IndexContract(id, contractCode);
      }
    }

    /** The phase-1 loop: merges the findings by id. */
    method MergeFindings(findings: seq<Json>) returns (r: Result<Merged>)
      ensures r == Merge(findings)
    {
      var p1: Merged := map[];
      var i := 0;
      while i < |findings|
        invariant 0 <= i <= |findings|
        invariant Merge(findings[..i]) == Ok(p1)
      {
        var f := findings[i];
        assert findings[..i + 1][..i] == findings[..i];
        var hasId := false;
        if Truthy(f) {
          if f.Obj? {
            hasId := "id" in f.fields;
          } else if f.Arr? {
            hasId := Str("id") in f.items;
          } else if f.Str? {
            hasId := Contains(f.s, "id");
          } else {
            MergeStopsAt(findings, i + 1);
            return Err(TypeError);
          }
        }
        if hasId {
          if !f.Obj? {
            MergeStopsAt(findings, i + 1);
            return Err(TypeError);
          }
          var id := f.fields["id"];
          if !Hashable(id) {
            MergeStopsAt(findings, i + 1);
            return Err(TypeError);
          }
          if id !in p1 {
            p1 := p1[id := f.fields];
          } else {
            var gt := ConfGreater(f.fields, p1[id]);
            if gt.Err? {
              MergeStopsAt(findings, i + 1);
              return Err(gt.error);
            }
            if gt.value {
              p1 := p1[id := f.fields];
            }
          }
        }
        i := i + 1;
      }
      assert findings[..i] == findings;
      r := Ok(p1);
    }

    /** The phase-3 loop: the first entry per truthy id, sorted by stance. */
    method ProcessEntries(p1: Merged, entries: seq<Json>) returns (r: Result<Progress>)
      ensures r == Process(p1, entries)
    {
      var processed: set<Json> := {};
      var confirmed: seq<Vulnerability> := [];
      var disputed: seq<Vulnerability> := [];
      var i := 0;
      while i < |entries|
        invariant 0 <= i <= |entries|
        invariant Process(p1, entries[..i]) == Ok(Progress(processed, confirmed, disputed))
      {
        var e := entries[i];
        assert entries[..i + 1][..i] == entries[..i];
        if !e.Obj? {
          ProcessStopsAt(p1, entries, i + 1);
          return Err(AttributeError);
        }
        var id := Get(e.fields, "id", Null);
        if Truthy(id) {
          if !Hashable(id) {
            ProcessStopsAt(p1, entries, i + 1);
            return Err(TypeError);
          }
          if id !in processed {
            processed := processed + {id};
            var sv := Get(e.fields, "stance", Str("unknown"));
            if !sv.Str? {
              ProcessStopsAt(p1, entries, i + 1);
              return Err(AttributeError);
            }
            var stance := LowerStr(sv.s);
            var details := Details(Original(p1, id), e.fields, stance);
            if stance == "confirm" {
              confirmed := confirmed + [details];
            } else if stance == "dispute" {
              disputed := disputed + [details];
            }
          }
        }
        i := i + 1;
      }
      assert entries[..i] == entries;
      r := Ok(Progress(processed, confirmed, disputed));
    }

    /** `build_final_report(results)`. Nothing is changed. */
    method BuildFinalReport(results: map<string, Json>) returns (r: Result<FinalReport>)
      ensures r == FinalReportOf(results)
    {
      var findings := PhaseItems(results, "phase1", "llm1", "llm2");
      if findings.Err? {
        return Err(findings.error);
      }
      var merged := MergeFindings(findings.value);
      if merged.Err? {
        return Err(merged.error);
      }
      var entries := PhaseItems(results, "phase3", "llm1_on_llm2", "llm2_on_llm1");
      if entries.Err? {
        return Err(entries.error);
      }
      var progress := ProcessEntries(merged.value, entries.value);
      if progress.Err? {
        return Err(progress.error);
      }
      var st := progress.value;
      var summary := Summarize(st.confirmed, st.disputed);
      r := Ok(FinalReport(summary, Get(results, "phase1", Null), Get(results, "phase2", Null), Get(results, "phase3", Null)));
    }
  }
}
