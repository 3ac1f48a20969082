/**
  The Python `str` operations the analyzer code uses, restricted to ASCII:
  `lower`, whitespace (`isspace`, regex `\s`), regex word characters (`\w`),
  `find`, `rfind`, `in`, `count`, `strip`, `split`, `join` and slicing with
  Python's index clamping.
*/
module Text {

  /** `str.isspace` on ASCII: tab, line feed, vertical tab, form feed,
      carriage return, the four information separators and space. */
  predicate IsSpace(c: char) {
    var n := c as int;
    n == 32 || 9 <= n <= 13 || 28 <= n <= 31
  }

  /** Regex `\w` on ASCII. */
  predicate IsWordChar(c: char) {
    'a' <= c <= 'z' || 'A' <= c <= 'Z' || '0' <= c <= '9' || c == '_'
  }

  function Lower(c: char): char {
    if 'A' <= c <= 'Z' then (c as int + 32) as char else c
  }

  /** `str.lower()` */
  function LowerStr(s: string): string {
    seq(|s|, i requires 0 <= i < |s| => Lower(s[i]))
  }

  predicate OccursAt(s: string, sub: string, i: int) {
    0 <= i && i + |sub| <= |s| && s[i..i + |sub|] == sub
  }

  /** The first occurrence of `sub` at or after `i`, or -1. */
  function FindFrom(s: string, sub: string, i: nat): (r: int)
    requires i <= |s|
    ensures r == -1 || (i <= r && OccursAt(s, sub, r))
    ensures r == -1 ==> forall j :: i <= j <= |s| ==> !OccursAt(s, sub, j)
    ensures r != -1 ==> forall j :: i <= j < r ==> !OccursAt(s, sub, j)
    decreases |s| - i
  {
    if OccursAt(s, sub, i) then i
    else if i == |s| then -1
    else FindFrom(s, sub, i + 1)
  }

  /** `s.find(sub)` */
  function Find(s: string, sub: string): int {
    FindFrom(s, sub, 0)
  }

  /** `sub in s` */
  predicate Contains(s: string, sub: string) {
    Find(s, sub) != -1
  }

  lemma ContainsAt(s: string, sub: string, i: int)
    requires OccursAt(s, sub, i)
    ensures Contains(s, sub)
  {
  }

  /** A string that contains `sub` contains every piece of it. */
  lemma ContainsPart(s: string, sub: string, i: nat, j: nat)
    requires Contains(s, sub) && i <= j <= |sub|
    ensures Contains(s, sub[i..j])
  {
    var r := Find(s, sub);
    assert s[r..r + |sub|] == sub;
    assert s[r + i..r + j] == sub[i..j] by {
      forall t | 0 <= t < j - i
        ensures s[r + i..r + j][t] == sub[i..j][t]
      {
        assert s[r + i + t] == s[r..r + |sub|][i + t];
      }
    }
    ContainsAt(s, sub[i..j], r + i);
  }

  /** The last occurrence of `sub` at or before `i`, or -1. */
  function RFindFrom(s: string, sub: string, i: int): (r: int)
    requires i <= |s|
    ensures r == -1 || (r <= i && OccursAt(s, sub, r))
    ensures r == -1 ==> forall j :: 0 <= j <= i ==> !OccursAt(s, sub, j)
    ensures r != -1 ==> forall j :: r < j <= i ==> !OccursAt(s, sub, j)
    decreases i + 1
  {
    if i < 0 then -1
    else if OccursAt(s, sub, i) then i
    else RFindFrom(s, sub, i - 1)
  }

  /** `s.rfind(sub)` */
  function RFind(s: string, sub: string): (r: int)
    ensures r == -1 || OccursAt(s, sub, r)
    ensures r == -1 ==> forall j :: 0 <= j <= |s| ==> !OccursAt(s, sub, j)
    ensures r != -1 ==> forall j :: r < j <= |s| ==> !OccursAt(s, sub, j)
  {
    RFindFrom(s, sub, |s| - |sub|)
  }

  /** Non-overlapping occurrences of a non-empty `sub` at or after `i`,
      scanning left to right as `str.count` does. */
  function CountFrom(s: string, sub: string, i: nat): (r: nat)
    requires |sub| > 0 && i <= |s|
    ensures r > 0 <==> exists j :: i <= j && OccursAt(s, sub, j)
    ensures r * |sub| <= |s| - i
    decreases |s| - i
  {
    if i + |sub| > |s| then 0
    else if s[i..i + |sub|] == sub then
      var rest := CountFrom(s, sub, i + |sub|);
      assert OccursAt(s, sub, i);
      assert (1 + rest) * |sub| == |sub| + rest * |sub|;
      1 + rest
    else
      NoOccurrenceHere(s, sub, i);
      CountFrom(s, sub, i + 1)
  }

  /** Without an occurrence at `i`, there is one at or after `i` exactly when there is one
      after `i`. */
  lemma NoOccurrenceHere(s: string, sub: string, i: nat)
    requires i + |sub| <= |s| && s[i..i + |sub|] != sub
    ensures (exists j :: i <= j && OccursAt(s, sub, j)) <==> (exists j :: i + 1 <= j && OccursAt(s, sub, j))
  {
    if exists j :: i <= j && OccursAt(s, sub, j) {
      var j :| i <= j && OccursAt(s, sub, j);
      assert j != i;
    }
  }

  /** `s.count(sub)`: the empty string occurs between every two characters. */
  function Count(s: string, sub: string): (r: nat)
    ensures sub != "" ==> (r > 0 <==> Contains(s, sub))
    ensures sub != "" ==> r * |sub| <= |s|
    ensures sub == "" ==> r == |s| + 1
  {
    if sub == "" then |s| + 1 else CountFrom(s, sub, 0)
  }

  /** The end of the run of whitespace that starts at `i`. */
  function SkipSpace(s: string, i: nat): (r: nat)
    requires i <= |s|
    ensures i <= r <= |s|
    ensures forall t :: i <= t < r ==> IsSpace(s[t])
    ensures r < |s| ==> !IsSpace(s[r])
    decreases |s| - i
  {
    if i < |s| && IsSpace(s[i]) then SkipSpace(s, i + 1) else i
  }

  /** The end of the run of non-whitespace that starts at `i`. */
  function SkipNonSpace(s: string, i: nat): (r: nat)
    requires i <= |s|
    ensures i <= r <= |s|
    ensures forall t :: i <= t < r ==> !IsSpace(s[t])
    ensures r < |s| ==> IsSpace(s[r])
    decreases |s| - i
  {
    if i < |s| && !IsSpace(s[i]) then SkipNonSpace(s, i + 1) else i
  }

  /** The end of the run of word characters that starts at `i`. */
  function SkipWord(s: string, i: nat): (r: nat)
    requires i <= |s|
    ensures i <= r <= |s|
    ensures forall t :: i <= t < r ==> IsWordChar(s[t])
    ensures r < |s| ==> !IsWordChar(s[r])
    decreases |s| - i
  {
    if i < |s| && IsWordChar(s[i]) then SkipWord(s, i + 1) else i
  }

  /** The start of the whitespace run that ends at `j`. */
  function SkipSpaceBack(s: string, j: nat): (r: nat)
    requires j <= |s|
    ensures r <= j
    ensures forall t :: r <= t < j ==> IsSpace(s[t])
    ensures r > 0 ==> !IsSpace(s[r - 1])
  {
    if j > 0 && IsSpace(s[j - 1]) then SkipSpaceBack(s, j - 1) else j
  }

  /** Where `s.strip()` starts and ends in `s`. */
  function StripStart(s: string): nat {
    SkipSpace(s, 0)
  }

  function StripEnd(s: string): (r: nat)
    ensures StripStart(s) <= r <= |s|
  {
    var e := SkipSpaceBack(s, |s|);
    if e < StripStart(s) then StripStart(s) else e
  }

  /** `s.strip()`: the text between the leading and the trailing whitespace. */
  function Strip(s: string): (r: string)
    ensures r == "" <==> forall t :: 0 <= t < |s| ==> IsSpace(s[t])
    ensures r != "" ==> !IsSpace(r[0]) && !IsSpace(r[|r| - 1])
    ensures forall t :: 0 <= t < StripStart(s) ==> IsSpace(s[t])
    ensures forall t :: StripEnd(s) <= t < |s| ==> IsSpace(s[t])
    ensures r == s[StripStart(s)..StripEnd(s)]
  {
    s[StripStart(s)..StripEnd(s)]
  }

  /** `s.strip()` is a contiguous part of `s`, and everything of `s` outside that part is
      whitespace: only whitespace is removed, and only at either end. */
  lemma StripRemovesOnlySpace(s: string)
    ensures exists a, b ::
      && 0 <= a <= b <= |s| && Strip(s) == s[a..b]
      && (forall t :: 0 <= t < |s| && (t < a || b <= t) ==> IsSpace(s[t]))
  {
    var a, b := StripStart(s), StripEnd(s);
    assert Strip(s) == s[a..b];
    assert forall t :: 0 <= t < |s| && (t < a || b <= t) ==> IsSpace(s[t]);
  }

  /** `s.split()`: the maximal runs of non-whitespace, in order. */
  function Words(s: string): (r: seq<string>)
    ensures forall w :: w in r ==> w != ""
    decreases |s|
  {
    var i := SkipSpace(s, 0);
    if i == |s| then []
    else
      var j := SkipNonSpace(s, i);
      [s[i..j]] + Words(s[j..])
  }

  /** `s[i..j]` is a maximal run of non-whitespace: a word of `s.split()`. */
  predicate IsRun(s: string, i: int, j: int) {
    && 0 <= i < j <= |s|
    && (i == 0 || IsSpace(s[i - 1]))
    && (j == |s| || IsSpace(s[j]))
    && forall k :: i <= k < j ==> !IsSpace(s[k])
  }

  /** The words of `s.split()` are exactly the texts of the maximal
      non-whitespace runs of `s`. */
  lemma WordsAreRuns(s: string)
    ensures forall w :: w in Words(s) <==> exists i, j :: IsRun(s, i, j) && s[i..j] == w
  {
    forall w | w in Words(s)
      ensures exists i, j :: IsRun(s, i, j) && s[i..j] == w
    {
      WordIsRun(s, w);
    }
    forall i, j | IsRun(s, i, j)
      ensures s[i..j] in Words(s)
    {
      RunIsWord(s, i, j);
    }
  }

  /** A run of the text after a whitespace character is a run of the text. */
  lemma RunShift(s: string, j: nat, a: int, b: int)
    requires j < |s| && IsSpace(s[j]) && IsRun(s[j..], a, b)
    ensures IsRun(s, j + a, j + b) && s[j + a..j + b] == s[j..][a..b]
  {
    assert a > 0;
    assert s[j + a - 1] == s[j..][a - 1];
    if b < |s[j..]| {
      assert s[j + b] == s[j..][b];
    }
    forall k | j + a <= k < j + b
      ensures !IsSpace(s[k])
    {
      assert s[k] == s[j..][k - j];
    }
  }

  lemma {:induction false} WordIsRun(s: string, w: string)
    requires w in Words(s)
    ensures exists i, j :: IsRun(s, i, j) && s[i..j] == w
    decreases |s|
  {
    var i := SkipSpace(s, 0);
    var j := SkipNonSpace(s, i);
    WordsMember(s, w);
    if w == s[i..j] {
      assert IsRun(s, i, j);
    } else {
      WordIsRun(s[j..], w);
      var a, b :| IsRun(s[j..], a, b) && s[j..][a..b] == w;
      RunShift(s, j, a, b);
    }
  }

  /** Every non-space character of `s` lies inside a maximal run, so no part of the text is
      lost by splitting it into words. */
  lemma {:induction false} RunsCover(s: string, t: int)
    requires 0 <= t < |s| && !IsSpace(s[t])
    ensures exists i, j :: IsRun(s, i, j) && i <= t < j
  {
    if t == 0 || IsSpace(s[t - 1]) {
      var j := SkipNonSpace(s, t);
      assert IsRun(s, t, j);
    } else {
      RunsCover(s, t - 1);
      var i, j :| IsRun(s, i, j) && i <= t - 1 < j;
      assert IsRun(s, i, j) && i <= t < j;
    }
  }

  lemma {:induction false} RunIsWord(s: string, i0: int, j0: int)
    requires IsRun(s, i0, j0)
    ensures s[i0..j0] in Words(s)
    decreases |s|, 1
  {
    RunAfterLeadingSpace(s, i0, j0);
    if i0 == SkipSpace(s, 0) {
      FirstRun(s, i0, j0);
      WordsUnfold(s);
      assert Words(s)[0] == s[i0..j0];
    } else {
      LaterRunIsWord(s, i0, j0);
    }
  }

  /** A run after the first word is a word of the text that follows the first word. */
  lemma {:induction false} LaterRunIsWord(s: string, i0: int, j0: int)
    requires IsRun(s, i0, j0) && i0 != SkipSpace(s, 0)
    ensures s[i0..j0] in Words(s)
    decreases |s|, 0
  {
    var j := SkipNonSpace(s, SkipSpace(s, 0));
    LaterRun(s, i0, j0, j);
    var tail := s[j..];
    RunIsWord(tail, i0 - j, j0 - j);
    WordsTail(s, j, tail[i0 - j..j0 - j]);
  }

  /** Every word after the first word is a word of the whole text. */
  lemma WordsTail(s: string, j: nat, w: string)
    requires SkipSpace(s, 0) < |s| && j == SkipNonSpace(s, SkipSpace(s, 0)) && w in Words(s[j..])
    ensures w in Words(s)
  {
    var rest := Words(s[j..]);
    var k :| 0 <= k < |rest| && rest[k] == w;
    WordsUnfold(s);
    var ws := [s[SkipSpace(s, 0)..j]] + rest;
    assert ws[k + 1] == w;
    assert Words(s) == ws;
  }

  /** The run that starts where the leading whitespace ends is the first word. */
  lemma FirstRun(s: string, i0: int, j0: int)
    requires IsRun(s, i0, j0) && i0 == SkipSpace(s, 0)
    ensures j0 == SkipNonSpace(s, i0)
  {
  }

  lemma RunAfterLeadingSpace(s: string, i0: int, j0: int)
    requires IsRun(s, i0, j0)
    ensures SkipSpace(s, 0) <= i0
  {
    var i := SkipSpace(s, 0);
    assert !IsSpace(s[i0]);
  }

  /** The first word and the words of the rest. */
  lemma WordsUnfold(s: string)
    requires SkipSpace(s, 0) < |s|
    ensures var i := SkipSpace(s, 0); var j := SkipNonSpace(s, i);
      i < j && Words(s) == [s[i..j]] + Words(s[j..])
  {
  }

  /** The words of `s` are its first word and the words after it. */
  lemma WordsMember(s: string, w: string)
    requires SkipSpace(s, 0) < |s|
    ensures var i := SkipSpace(s, 0); var j := SkipNonSpace(s, i);
      i < j && (w in Words(s) <==> w == s[i..j] || w in Words(s[j..]))
  {
    WordsUnfold(s);
  }

  /** Any other run lies after the first word, as a run of the rest. */
  lemma LaterRun(s: string, i0: int, j0: int, j: int)
    requires IsRun(s, i0, j0) && i0 != SkipSpace(s, 0) && j == SkipNonSpace(s, SkipSpace(s, 0))
    ensures SkipSpace(s, 0) < j < i0 < j0 <= |s|
    ensures IsRun(s[j..], i0 - j, j0 - j) && s[j..][i0 - j..j0 - j] == s[i0..j0]
  {
    RunAfterLeadingSpace(s, i0, j0);
    assert j < i0;
    RunInSuffix(s, j, i0, j0);
  }

  /** A run stays a run in any suffix that starts at or before it. */
  lemma RunInSuffix(s: string, j: nat, i0: int, j0: int)
    requires IsRun(s, i0, j0) && j <= i0
    ensures IsRun(s[j..], i0 - j, j0 - j) && s[j..][i0 - j..j0 - j] == s[i0..j0]
  {
    if j < i0 {
      assert s[j..][i0 - j - 1] == s[i0 - 1];
    }
    if j0 < |s| {
      assert s[j..][j0 - j] == s[j0];
    }
    forall k | i0 - j <= k < j0 - j
      ensures !IsSpace(s[j..][k])
    {
      assert s[j..][k] == s[j + k];
    }
  }

  /** A Python index for a slice bound, clamped into `0..n`. */
  function Clamp(i: int, n: nat): (r: nat)
    ensures r <= n
    ensures 0 <= i <= n ==> r == i
  {
    if i < 0 then (if i + n < 0 then 0 else i + n)
    else if i > n then n
    else i
  }

  /** `s[start:end]` with Python's handling of negative and oversized bounds. */
  function PySlice<T>(s: seq<T>, start: int, end: int): seq<T> {
    var a := Clamp(start, |s|);
    var b := Clamp(end, |s|);
    if a < b then s[a..b] else []
  }

  /** `s[:k]` */
  function PyPrefix<T>(s: seq<T>, k: int): (r: seq<T>)
    ensures r <= s
    ensures 0 <= k ==> |r| == if k < |s| then k else |s|
  {
    PySlice(s, 0, k)
  }

  /** `s.split(sep)` for a non-empty separator: the pieces between the
      non-overlapping occurrences of `sep`, found left to right. */
  function SplitOn(s: string, sep: string): (r: seq<string>)
    requires sep != ""
    ensures |r| >= 1
    ensures Contains(s, sep) ==> |r| >= 2
    ensures Join(sep, r) == s
    ensures forall p :: p in r ==> !Contains(p, sep)
    decreases |s|
  {
    var i := Find(s, sep);
    if i == -1 then [s]
    else
      var rest := SplitOn(s[i + |sep|..], sep);
      SplitStep(s, sep, i, rest);
      [s[..i]] + rest
  }

  /** The piece before the first separator, put in front of the split of the text after it,
      joins back to the whole text and holds no separator. */
  lemma SplitStep(s: string, sep: string, i: int, rest: seq<string>)
    requires sep != "" && i == Find(s, sep) && i != -1
    requires rest != [] && Join(sep, rest) == s[i + |sep|..]
    requires forall p :: p in rest ==> !Contains(p, sep)
    ensures Join(sep, [s[..i]] + rest) == s
    ensures forall p :: p in [s[..i]] + rest ==> !Contains(p, sep)
  {
    FirstPieceClean(s, sep, i);
    JoinCons(sep, s[..i], rest);
    SplitAround(s, sep, i);
  }

  /** An occurrence of `sep` at `i` cuts `s` into the text before it, `sep` and the rest. */
  lemma SplitAround(s: string, sep: string, i: int)
    requires 0 <= i && OccursAt(s, sep, i)
    ensures s == s[..i] + sep + s[i + |sep|..]
  {
    assert s[i..i + |sep|] == sep;
    assert s == s[..i] + s[i..i + |sep|] + s[i + |sep|..];
  }

  /** The text before the first occurrence of `sep` does not contain it. */
  lemma FirstPieceClean(s: string, sep: string, i: int)
    requires sep != "" && i == Find(s, sep) && i != -1
    ensures !Contains(s[..i], sep)
  {
    if Contains(s[..i], sep) {
      var j := Find(s[..i], sep);
      forall t | 0 <= t < |sep|
        ensures s[j + t] == sep[t]
      {
        OccurrenceChar(s[..i], sep, j, j + t);
      }
      assert s[j..j + |sep|] == sep;
      assert OccursAt(s, sep, j) && j < i;
      assert false;
    }
  }

  lemma JoinCons(sep: string, first: string, rest: seq<string>)
    requires rest != []
    ensures Join(sep, [first] + rest) == first + sep + Join(sep, rest)
    ensures forall p :: p in [first] + rest <==> p == first || p in rest
  {
    assert ([first] + rest)[1..] == rest;
  }

  /** `sep.join(parts)` */
  function Join(sep: string, parts: seq<string>): string {
    if parts == [] then ""
    else if |parts| == 1 then parts[0]
    else parts[0] + sep + Join(sep, parts[1..])
  }

  lemma LowerConcat(a: string, b: string)
    ensures LowerStr(a + b) == LowerStr(a) + LowerStr(b)
  {
  }

  /** An occurrence in either operand is an occurrence in the concatenation. */
  lemma ContainsConcat(x: string, y: string, sub: string)
    requires Contains(x, sub) || Contains(y, sub)
    ensures Contains(x + y, sub)
  {
    if Contains(x, sub) {
      var r := Find(x, sub);
      assert (x + y)[r..r + |sub|] == x[r..r + |sub|];
      ContainsAt(x + y, sub, r);
    } else {
      var r := Find(y, sub);
      assert (x + y)[|x| + r..|x| + r + |sub|] == y[r..r + |sub|];
      ContainsAt(x + y, sub, |x| + r);
    }
  }

  /** Each character of an occurrence is the text's character there. */
  lemma OccurrenceChar(s: string, sub: string, j: int, p: int)
    requires OccursAt(s, sub, j) && j <= p < j + |sub|
    ensures sub[p - j] == s[p]
  {
    assert sub[p - j] == s[j..j + |sub|][p - j];
  }

  lemma MiddleChar(x: string, d: string, y: string, p: int)
    requires 0 <= p < |d|
    ensures (x + d + y)[|x| + p] == d[p]
  {
  }
}
