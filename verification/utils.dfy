/**
  Reading a JSON list out of a model's raw reply (utils.py). The reply is
  decoded strictly first; when that fails, the text from the first `[` to
  the last `]` is decoded instead. No path raises: every failure yields `[]`.
*/
module Utils {
  import opened JsonValue
  import opened Text

  /** `coerce_json_list(raw)`, with `parse` standing for `json.loads`. The
      result is a value, never an exception. A result that is not a list can
      only come from decoding a slice of `raw` after the strict decode failed. */
  function CoerceJsonList(parse: Parser, raw: string): (r: Json)
    ensures r.Arr? || (parse(raw).None? && exists i, j :: 0 <= i < j <= |raw| && parse(raw[i..j]) == Some(r))
  {
    match parse(raw)
    case Some(data) => if data.Arr? then data else Arr([])
    case None =>
      var s := Find(raw, "[");
      var e := RFind(raw, "]");
      if s != -1 && e != -1 && e > s then
        match parse(raw[s..e + 1])
        case Some(data) => data
        case None => Arr([])
      else Arr([])
  }

  /** A reply that decodes to a list is returned as that very list, so a
      serialised list coerces back to itself. */
  lemma CoerceKeepsList(parse: Parser, raw: string, xs: seq<Json>)
    requires parse(raw) == Some(Arr(xs))
    ensures CoerceJsonList(parse, raw) == Arr(xs)
  {
  }

  /** A reply that decodes to anything but a list gives `[]`; no bracket
      recovery is tried. */
  lemma CoerceRejectsNonList(parse: Parser, raw: string)
    requires parse(raw).Some? && !parse(raw).value.Arr?
    ensures CoerceJsonList(parse, raw) == Arr([])
  {
    var s := Find(raw, "[");
    var e := RFind(raw, "]");
    if s != -1 && e != -1 {
      assert raw[s..s + 1] == "[" && raw[e..e + 1] == "]";
      assert raw[s] == '[' && raw[e] == ']';
    }
  }

  /** When the strict decode fails and `i` is the first `[` and `j` the last
      `]`, with `i < j`, the result is the decode of `raw[i..j]` inclusive, or
      `[]` when that fails too. */
  lemma CoerceRecoversBrackets(parse: Parser, raw: string, i: nat, j: nat)
    requires parse(raw).None?
    requires i < j < |raw| && raw[i] == '[' && raw[j] == ']'
    requires forall t :: 0 <= t < i ==> raw[t] != '['
    requires forall t :: j < t < |raw| ==> raw[t] != ']'
    ensures CoerceJsonList(parse, raw) == match parse(raw[i..j + 1]) { case Some(d) => d case None => Arr([]) }
  {
    assert OccursAt(raw, "[", i) by {
      assert raw[i..i + 1] == [raw[i]];
    }
    assert OccursAt(raw, "]", j) by {
      assert raw[j..j + 1] == [raw[j]];
    }
    FirstOccurrence(raw, '[', i);
    LastOccurrence(raw, ']', j);
  }

  /** When the strict decode fails and there is no `[` before a `]` (either
      bracket missing, or the last `]` not after the first `[`), the result
      is `[]`. */
  lemma CoerceGivesUpWithoutBrackets(parse: Parser, raw: string)
    requires parse(raw).None?
    requires forall i, j :: 0 <= i < j < |raw| && raw[i] == '[' ==> raw[j] != ']'
    ensures CoerceJsonList(parse, raw) == Arr([])
  {
    var s := Find(raw, "[");
    var e := RFind(raw, "]");
    if s != -1 && e != -1 {
      assert raw[s..s + 1] == "[" && raw[e..e + 1] == "]";
      assert raw[s] == '[' && raw[e] == ']';
    }
  }

  /** With a decoder that only ever reads text starting with `[` as a list
      (as `json.loads` does), the result is always a list. */
  lemma CoerceAlwaysList(parse: Parser, raw: string)
    requires forall t :: t != [] && t[0] == '[' && parse(t).Some? ==> parse(t).value.Arr?
    ensures CoerceJsonList(parse, raw).Arr?
  {
    var s := Find(raw, "[");
    var e := RFind(raw, "]");
    if parse(raw).None? && s != -1 && e != -1 && e > s {
      assert raw[s..s + 1] == "[";
      assert raw[s..e + 1][0] == raw[s];
    }
  }

  /** `s.find(c)` for a one-character `c` that first occurs at `i`. */
  lemma FirstOccurrence(s: string, c: char, i: nat)
    requires i < |s| && s[i] == c && OccursAt(s, [c], i)
    requires forall t :: 0 <= t < i ==> s[t] != c
    ensures Find(s, [c]) == i
  {
  }

  /** `s.rfind(c)` for a one-character `c` that last occurs at `j`. */
  lemma LastOccurrence(s: string, c: char, j: nat)
    requires j < |s| && s[j] == c && OccursAt(s, [c], j)
    requires forall t :: j < t < |s| ==> s[t] != c
    ensures RFind(s, [c]) == j
  {
    var r := RFind(s, [c]);
    assert r != -1 && j <= r;
    assert s[r..r + 1] == [c];
    assert s[r] == c;
  }
}
