/**
  How the chunk store cuts contract text into chunks (`Retriever._split_by_function`):
  the text is split just before every match of the case-insensitive regex
  `\bfunction\s+\w+\s*\(`, each piece is stripped, blank pieces are dropped,
  and when nothing is left the whole text is the single chunk.

  The regex is read on ASCII text: `\w` is `[A-Za-z0-9_]`, `\s` is ASCII
  whitespace, and letter case is ASCII case.
*/
module Chunking {
  import opened JsonValue
  import opened Text

  /** The matcher: the regex body `function\s+\w+\s*\(` tried at `p`, with
      greedy runs; on success, the position just after the parenthesis. */
  function HeadEnd(s: string, p: nat): Option<nat>
    requires p <= |s|
  {
    if KeywordAt(s, p) then
      var j := SkipSpace(s, p + 8);
      var k := SkipWord(s, j);
      var l := SkipSpace(s, k);
      if j > p + 8 && k > j && l < |s| && s[l] == '(' then Some(l + 1) else None
    else None
  }

  /** "function", in any ASCII letter case, at `p`. */
  predicate KeywordAt(s: string, p: nat) {
    && p + 8 <= |s|
    && Lower(s[p]) == 'f' && Lower(s[p + 1]) == 'u' && Lower(s[p + 2]) == 'n' && Lower(s[p + 3]) == 'c'
    && Lower(s[p + 4]) == 't' && Lower(s[p + 5]) == 'i' && Lower(s[p + 6]) == 'o' && Lower(s[p + 7]) == 'n'
  }

  /** The regex's own reading of its body: some way of cutting `s[p..]` into
      "function" in any case, one or more whitespace characters (up to `j`),
      one or more word characters (up to `k`), whitespace (up to `l`) and "(". */
  ghost predicate HeadShape(s: string, p: nat, j: nat, k: nat, l: nat) {
    && p + 8 < j < k <= l < |s|
    && KeywordAt(s, p)
    && (forall t :: p + 8 <= t < j ==> IsSpace(s[t]))
    && (forall t :: j <= t < k ==> IsWordChar(s[t]))
    && (forall t :: k <= t < l ==> IsSpace(s[t]))
    && s[l] == '('
  }

  /** The split point: `\b` followed by the lookahead. The character at a match
      is a letter, so the word boundary means "at the start of the text or
      after a non-word character". */
  predicate BoundaryAt(s: string, p: nat)
    requires p <= |s|
  {
    (p == 0 || !IsWordChar(s[p - 1])) && HeadEnd(s, p).Some?
  }

  /** A chunk that opens with a function head. */
  ghost predicate StartsWithFunctionHead(c: string) {
    exists j: nat, k: nat, l: nat :: HeadShape(c, 0, j, k, l)
  }

  lemma LowerIsLetterOnlyForLetters(c: char)
    requires 'a' <= Lower(c) <= 'z'
    ensures IsWordChar(c) && !IsSpace(c)
  {
  }

  /** The greedy matcher accepts exactly the texts the regex accepts, whatever
      way the regex would cut them. */
  lemma HeadEndIsRegex(s: string, p: nat)
    requires p <= |s|
    ensures HeadEnd(s, p).Some? <==> exists j: nat, k: nat, l: nat :: HeadShape(s, p, j, k, l)
    ensures HeadEnd(s, p).Some? ==>
      HeadShape(s, p, SkipSpace(s, p + 8), SkipWord(s, SkipSpace(s, p + 8)), HeadEnd(s, p).value - 1)
  {
    if HeadEnd(s, p).Some? {
      var j := SkipSpace(s, p + 8);
      var k := SkipWord(s, j);
      var l := SkipSpace(s, k);
      assert HeadShape(s, p, j, k, l);
    }
    if j: nat, k: nat, l: nat :| HeadShape(s, p, j, k, l) {
      assert !IsSpace(s[j]) by {
        assert IsWordChar(s[j]);
      }
      assert SkipSpace(s, p + 8) == j;
      assert !IsWordChar(s[k]) by {
        if k < l {
          assert IsSpace(s[k]);
        }
      }
      assert SkipWord(s, j) == k;
      assert SkipSpace(s, k) == l;
    }
  }

  /** A position whose character is not a letter cannot start a match. */
  lemma NoBoundaryAtNonLetter(s: string, q: nat)
    requires q < |s| && !IsWordChar(s[q])
    ensures !BoundaryAt(s, q)
  {
    if BoundaryAt(s, q) {
      LowerIsLetterOnlyForLetters(s[q]);
    }
  }

  /** The eight characters of a matched "function" are word characters. */
  lemma KeywordIsWord(s: string, p: nat, t: nat)
    requires KeywordAt(s, p)
    requires p <= t < p + 8
    ensures IsWordChar(s[t])
  {
    LowerIsLetterOnlyForLetters(s[t]);
  }

  /** The word a head matched cannot itself start a match: a match there would
      need a second word after it, where the head has its parenthesis. */
  lemma NoBoundaryAtHeadWord(s: string, p: nat)
    requires p <= |s| && HeadEnd(s, p).Some?
    ensures !BoundaryAt(s, SkipSpace(s, p + 8))
  {
    var j := SkipSpace(s, p + 8);
    var k := SkipWord(s, j);
    var l := SkipSpace(s, k);
    if BoundaryAt(s, j) {
      forall t | j <= t < j + 8
        ensures IsWordChar(s[t])
      {
        KeywordIsWord(s, j, t);
      }
    }
  }

  /** No split point lies strictly inside the text a function head matched:
      a head at `p` is never cut by a later match. */
  lemma NoBoundaryInsideHead(s: string, p: nat, q: nat)
    requires p <= |s| && HeadEnd(s, p).Some?
    requires p < q < HeadEnd(s, p).value
    ensures !BoundaryAt(s, q)
  {
    var j := SkipSpace(s, p + 8);
    var k := SkipWord(s, j);
    var l := SkipSpace(s, k);
    if q < p + 8 {
      KeywordIsWord(s, p, q - 1);
    } else if q < j || k <= q <= l {
      NoBoundaryAtNonLetter(s, q);
    } else if q == j {
      NoBoundaryAtHeadWord(s, p);
    } else {
      assert IsWordChar(s[q - 1]);
    }
  }

  /** The members of `ps` in `from..n`, in increasing order. */
  function MembersFrom(ps: set<nat>, from: nat, n: nat): (r: seq<nat>)
    requires from <= n
    ensures forall i :: 0 <= i < |r| ==> from <= r[i] < n && r[i] in ps
    ensures forall i, j :: 0 <= i < j < |r| ==> r[i] < r[j]
    ensures forall p :: from <= p < n && p in ps ==> p in r
    decreases n - from
  {
    if from == n then []
    else if from in ps then [from] + MembersFrom(ps, from + 1, n)
    else MembersFrom(ps, from + 1, n)
  }

  /** The positions below `n` where the split pattern matches. */
  function MatchesBelow(s: string, n: nat): set<nat>
    requires n <= |s|
  {
    if n == 0 then {}
    else MatchesBelow(s, n - 1) + (if BoundaryAt(s, n - 1) then {n - 1} else {})
  }

  lemma {:induction false} MatchesBelowAreMatches(s: string, n: nat, p: nat)
    requires n <= |s|
    ensures p in MatchesBelow(s, n) <==> p < n && BoundaryAt(s, p)
  {
    if n > 0 {
      MatchesBelowAreMatches(s, n - 1, p);
    }
  }

  /** The start `0`, the members of `ps` below `n` in increasing order, and
      `n`: the cut points of a split at the positions in `ps`. */
  function CutsOf(ps: set<nat>, n: nat): (c: seq<nat>)
    ensures |c| >= 2 && c[0] == 0 && c[|c| - 1] == n
    ensures forall i, j :: 0 <= i <= j < |c| ==> c[i] <= c[j]
    ensures forall i :: 0 < i < |c| - 1 ==> c[i] in ps
    ensures forall i :: 1 <= i < |c| - 1 ==> c[i] < c[i + 1]
  {
    var m := MembersFrom(ps, 0, n);
    var c := [0] + m + [n];
    assert forall i :: 0 < i < |c| - 1 ==> c[i] == m[i - 1];
    c
  }

  /** No member of `ps` lies strictly between two consecutive cut points. */
  lemma GapHasNoMember(ps: set<nat>, n: nat, i: nat, p: nat)
    requires i + 1 < |CutsOf(ps, n)| && CutsOf(ps, n)[i] < p < CutsOf(ps, n)[i + 1]
    ensures p !in ps
  {
    var m := MembersFrom(ps, 0, n);
    assert CutsOf(ps, n) == [0] + m + [n];
    if p in ps {
      assert false;
    }
  }

  /** The cut points of `re.split`: the start, every match, the end. */
  function Cuts(s: string): (c: seq<nat>)
    ensures |c| >= 2 && c[0] == 0 && c[|c| - 1] == |s|
    ensures forall i, j :: 0 <= i <= j < |c| ==> c[i] <= c[j]
    ensures forall i :: 1 <= i < |c| - 1 ==> c[i] < c[i + 1]
  {
    CutsOf(MatchesBelow(s, |s|), |s|)
  }

  /** Every cut between the start and the end is a match. */
  lemma CutIsMatch(s: string, i: nat)
    requires 0 < i < |Cuts(s)| - 1
    ensures Cuts(s)[i] < |s| && BoundaryAt(s, Cuts(s)[i])
  {
    assert Cuts(s)[i] in MatchesBelow(s, |s|);
    MatchesBelowAreMatches(s, |s|, Cuts(s)[i]);
  }

  /** Between two consecutive cuts there is no match. */
  lemma NoMatchBetweenCuts(s: string, i: nat, q: nat)
    requires i + 1 < |Cuts(s)| && Cuts(s)[i] < q < Cuts(s)[i + 1]
    ensures !BoundaryAt(s, q)
  {
    GapHasNoMember(MatchesBelow(s, |s|), |s|, i, q);
    MatchesBelowAreMatches(s, |s|, q);
  }

  /** Cut points for `s`: from the start to the end, never decreasing. */
  predicate ValidCuts(s: string, c: seq<nat>) {
    && |c| >= 2 && c[0] == 0 && c[|c| - 1] == |s|
    && forall a, b :: 0 <= a <= b < |c| ==> c[a] <= c[b]
  }

  /** The text between consecutive cut points. */
  function PiecesOf(s: string, c: seq<nat>): (r: seq<string>)
    requires ValidCuts(s, c)
    ensures |r| == |c| - 1
  {
    seq(|c| - 1, i requires 0 <= i < |c| - 1 => s[c[i]..c[i + 1]])
  }

  /** `re.split(pattern, code)`: the text between consecutive cuts. A match at
      the very start yields an empty first piece, as in Python. */
  function Pieces(s: string): (r: seq<string>)
    ensures |r| == |Cuts(s)| - 1
    ensures forall i :: 0 <= i < |r| ==> r[i] == s[Cuts(s)[i]..Cuts(s)[i + 1]]
  {
    PiecesOf(s, Cuts(s))
  }

  function Concat(parts: seq<string>): string {
    if parts == [] then "" else parts[0] + Concat(parts[1..])
  }

  lemma {:induction false} ConcatPieces(s: string, c: seq<nat>, i: nat)
    requires ValidCuts(s, c) && i < |c|
    ensures Concat(PiecesOf(s, c)[i..]) == s[c[i]..]
    decreases |c| - i
  {
    var ps := PiecesOf(s, c);
    if i == |c| - 1 {
      assert ps[i..] == [];
    } else {
      assert ps[i..][1..] == ps[i + 1..];
      ConcatPieces(s, c, i + 1);
      assert s[c[i]..] == s[c[i]..c[i + 1]] + s[c[i + 1]..];
    }
  }

  /** The split loses nothing: the pieces, unstripped and in order, are the text. */
  lemma PiecesConcat(s: string)
    ensures Concat(Pieces(s)) == s
  {
    ConcatPieces(s, Cuts(s), 0);
    assert Pieces(s)[0..] == Pieces(s);
  }

  /** The list comprehension `[p.strip() for p in parts if p.strip()]`. */
  function KeepNonBlank(parts: seq<string>): (r: seq<string>)
    ensures |r| <= |parts|
    ensures forall i :: 0 <= i < |r| ==> r[i] != "" && !IsSpace(r[i][0]) && !IsSpace(r[i][|r[i]| - 1])
  {
    if parts == [] then []
    else (if Strip(parts[0]) != "" then [Strip(parts[0])] else []) + KeepNonBlank(parts[1..])
  }

  /** `Retriever._split_by_function` */
  function SplitByFunction(code: string): seq<string> {
    var out := KeepNonBlank(Pieces(code));
    if out == [] then [code] else out
  }

  predicate AllSpace(s: string) {
    forall t :: 0 <= t < |s| ==> IsSpace(s[t])
  }

  /** Spans that lie within `lo..hi`, in order and without overlap. */
  predicate OrderedWithin(sp: seq<(nat, nat)>, lo: nat, hi: nat) {
    && (forall a :: 0 <= a < |sp| ==> lo <= sp[a].0 <= sp[a].1 <= hi)
    && (forall a, b :: 0 <= a < b < |sp| ==> sp[a].1 <= sp[b].0)
  }

  /** Each span of `sp` holds, in `s`, the chunk at the same place in `ks`. */
  predicate Holds(s: string, sp: seq<(nat, nat)>, ks: seq<string>) {
    && |sp| == |ks|
    && forall a :: 0 <= a < |sp| ==> sp[a].0 <= sp[a].1 <= |s| && ks[a] == s[sp[a].0..sp[a].1]
  }

  lemma OrderedCons(x: (nat, nat), sp: seq<(nat, nat)>, lo: nat, mid: nat, hi: nat)
    requires lo <= x.0 <= x.1 <= mid <= hi && OrderedWithin(sp, mid, hi)
    ensures OrderedWithin([x] + sp, lo, hi)
  {
    var r := [x] + sp;
    assert forall a :: 0 < a < |r| ==> r[a] == sp[a - 1];
    forall a, b | 0 <= a < b < |r|
      ensures r[a].1 <= r[b].0
    {
      assert r[b] == sp[b - 1];
      if a > 0 {
        assert r[a] == sp[a - 1];
      }
    }
  }

  lemma OrderedWiden(sp: seq<(nat, nat)>, lo: nat, mid: nat, hi: nat)
    requires lo <= mid && OrderedWithin(sp, mid, hi)
    ensures OrderedWithin(sp, lo, hi)
  {
  }

  lemma HoldsCons(s: string, x: (nat, nat), k: string, sp: seq<(nat, nat)>, ks: seq<string>)
    requires x.0 <= x.1 <= |s| && k == s[x.0..x.1] && Holds(s, sp, ks)
    ensures Holds(s, [x] + sp, [k] + ks)
  {
    assert forall a :: 0 < a < |[x] + sp| ==> ([x] + sp)[a] == sp[a - 1] && ([k] + ks)[a] == ks[a - 1];
  }

  /** The span of a kept piece: where its stripped text lies in `s`. */
  function PieceSpan(s: string, lo: nat, hi: nat): (nat, nat)
    requires lo <= hi <= |s|
  {
    (lo + StripStart(s[lo..hi]), lo + StripEnd(s[lo..hi]))
  }

  /** Where each kept chunk of the pieces from cut `i` on lies in the text. */
  function SpansOf(s: string, c: seq<nat>, i: nat): seq<(nat, nat)>
    requires ValidCuts(s, c) && i < |c|
    decreases |c| - i
  {
    if i == |c| - 1 then []
    else if Strip(s[c[i]..c[i + 1]]) != "" then [PieceSpan(s, c[i], c[i + 1])] + SpansOf(s, c, i + 1)
    else SpansOf(s, c, i + 1)
  }

  /** Where the chunks of `_split_by_function` lie in the text. */
  function Spans(s: string): seq<(nat, nat)> {
    SpansOf(s, Cuts(s), 0)
  }

  predicate Covered(spans: seq<(nat, nat)>, t: nat) {
    exists i :: 0 <= i < |spans| && spans[i].0 <= t < spans[i].1
  }

  /** Stripping a slice of `s` leaves the slice at its span. */
  lemma StripSlice(s: string, lo: nat, hi: nat)
    requires lo <= hi <= |s|
    ensures lo <= PieceSpan(s, lo, hi).0 <= PieceSpan(s, lo, hi).1 <= hi
    ensures Strip(s[lo..hi]) == s[PieceSpan(s, lo, hi).0..PieceSpan(s, lo, hi).1]
  {
    var piece := s[lo..hi];
    var a, b := StripStart(piece), StripEnd(piece);
    assert Strip(piece) == piece[a..b];
    forall t | 0 <= t < b - a
      ensures piece[a..b][t] == s[lo + a..lo + b][t]
    {
      assert piece[a..b][t] == piece[a + t] == s[lo + a + t];
    }
    assert piece[a..b] == s[lo + a..lo + b];
  }

  /** One step of the comprehension over the pieces from cut `i` on. */
  lemma KeepStep(s: string, c: seq<nat>, i: nat)
    requires ValidCuts(s, c) && i < |c| - 1
    ensures var piece := s[c[i]..c[i + 1]];
      KeepNonBlank(PiecesOf(s, c)[i..])
      == (if Strip(piece) != "" then [Strip(piece)] else []) + KeepNonBlank(PiecesOf(s, c)[i + 1..])
  {
    var ps := PiecesOf(s, c);
    assert ps[i..][1..] == ps[i + 1..];
    assert ps[i..][0] == s[c[i]..c[i + 1]];
  }

  /** The spans from cut `i` on lie after that cut, in order and without
      overlap. */
  lemma {:induction false} SpansOfOrdered(s: string, c: seq<nat>, i: nat)
    requires ValidCuts(s, c) && i < |c|
    ensures OrderedWithin(SpansOf(s, c, i), c[i], |s|)
    decreases |c| - i
  {
    if i < |c| - 1 {
      SpansOfOrdered(s, c, i + 1);
      assert c[i] <= c[i + 1];
      if Strip(s[c[i]..c[i + 1]]) != "" {
        StripSlice(s, c[i], c[i + 1]);
        OrderedCons(PieceSpan(s, c[i], c[i + 1]), SpansOf(s, c, i + 1), c[i], c[i + 1], |s|);
      } else {
        OrderedWiden(SpansOf(s, c, i + 1), c[i], c[i + 1], |s|);
      }
    }
  }

  /** The spans from cut `i` on hold, one for one, the chunks kept from the
      pieces from `i` on. */
  lemma {:induction false} SpansOfHoldChunks(s: string, c: seq<nat>, i: nat)
    requires ValidCuts(s, c) && i < |c|
    ensures Holds(s, SpansOf(s, c, i), KeepNonBlank(PiecesOf(s, c)[i..]))
    decreases |c| - i
  {
    if i == |c| - 1 {
      assert PiecesOf(s, c)[i..] == [];
    } else {
      var piece := s[c[i]..c[i + 1]];
      var rest := SpansOf(s, c, i + 1);
      var ks := KeepNonBlank(PiecesOf(s, c)[i + 1..]);
      SpansOfHoldChunks(s, c, i + 1);
      KeepStep(s, c, i);
      if Strip(piece) != "" {
        StripSlice(s, c[i], c[i + 1]);
        HoldsCons(s, PieceSpan(s, c[i], c[i + 1]), Strip(piece), rest, ks);
        assert SpansOf(s, c, i) == [PieceSpan(s, c[i], c[i + 1])] + rest;
      } else {
        assert SpansOf(s, c, i) == rest;
      }
    }
  }

  lemma CoveredCons(x: (nat, nat), sp: seq<(nat, nat)>, t: nat)
    requires Covered(sp, t)
    ensures Covered([x] + sp, t)
  {
    var a :| 0 <= a < |sp| && sp[a].0 <= t < sp[a].1;
    assert ([x] + sp)[a + 1] == sp[a];
  }

  /** A character of `p` outside its stripped part is whitespace. */
  lemma OutsideStrip(p: string, u: nat)
    requires u < |p| && (Strip(p) == "" || u < StripStart(p) || StripEnd(p) <= u)
    ensures IsSpace(p[u])
  {
  }

  /** Outside the spans from cut `i` on, the text after that cut is whitespace. */
  lemma {:induction false} SpansOfCoverNonSpace(s: string, c: seq<nat>, i: nat, t: nat)
    requires ValidCuts(s, c) && i < |c|
    requires c[i] <= t < |s| && !Covered(SpansOf(s, c, i), t)
    ensures IsSpace(s[t])
    decreases |c| - i
  {
    var piece := s[c[i]..c[i + 1]];
    var rest := SpansOf(s, c, i + 1);
    if Strip(piece) != "" {
      var x := PieceSpan(s, c[i], c[i + 1]);
      assert ([x] + rest)[0] == x;
      if Covered(rest, t) {
        CoveredCons(x, rest, t);
      }
    }
    if t < c[i + 1] {
      OutsideStrip(piece, t - c[i]);
    } else {
      SpansOfCoverNonSpace(s, c, i + 1, t);
    }
  }

  /** The chunks keep source order and lose only whitespace: the spans of the
      text that hold the chunks are in increasing order and do not overlap,
      and every character outside them is whitespace. */
  lemma ChunksTileText(code: string)
    requires !AllSpace(code)
    ensures Holds(code, Spans(code), SplitByFunction(code))
    ensures OrderedWithin(Spans(code), 0, |code|)
    ensures forall t :: 0 <= t < |code| && !Covered(Spans(code), t) ==> IsSpace(code[t])
  {
    var c := Cuts(code);
    SpansOfHoldChunks(code, c, 0);
    SpansOfOrdered(code, c, 0);
    forall t | 0 <= t < |code| && !Covered(Spans(code), t)
      ensures IsSpace(code[t])
    {
      SpansOfCoverNonSpace(code, c, 0, t);
    }
    assert Pieces(code)[0..] == Pieces(code);
    NonBlankTextKeepsAPiece(code);
  }

  /** Blank text (all whitespace, or empty) is kept whole, unstripped. */
  lemma BlankTextIsOneChunk(code: string)
    requires AllSpace(code)
    ensures SplitByFunction(code) == [code]
  {
    SpansOfHoldChunks(code, Cuts(code), 0);
    assert Pieces(code)[0..] == Pieces(code);
  }

  /** Text with a non-blank character keeps at least one stripped piece. */
  lemma NonBlankTextKeepsAPiece(code: string)
    requires !AllSpace(code)
    ensures KeepNonBlank(Pieces(code)) != []
  {
    var c := Cuts(code);
    SpansOfHoldChunks(code, c, 0);
    assert Pieces(code)[0..] == Pieces(code);
    var t :| 0 <= t < |code| && !IsSpace(code[t]);
    if KeepNonBlank(Pieces(code)) == [] {
      SpansOfCoverNonSpace(code, c, 0, t);
    }
  }

  /** `_split_by_function` never returns an empty list; it falls back to the
      unstripped text exactly when the text is blank, and otherwise returns
      non-empty stripped chunks. */
  lemma SplitByFunctionShape(code: string)
    ensures SplitByFunction(code) != []
    ensures AllSpace(code) ==> SplitByFunction(code) == [code]
    ensures !AllSpace(code) ==> forall c :: c in SplitByFunction(code) ==>
      c != "" && !IsSpace(c[0]) && !IsSpace(c[|c| - 1])
  {
    if AllSpace(code) {
      BlankTextIsOneChunk(code);
    } else {
      NonBlankTextKeepsAPiece(code);
    }
  }

  /** A slice that starts with a complete function head, stripped, still
      starts with that head. */
  lemma HeadPieceStrips(s: string, m: nat, n: nat)
    requires m <= n <= |s| && HeadEnd(s, m).Some? && HeadEnd(s, m).value <= n
    ensures Strip(s[m..n]) != "" && StartsWithFunctionHead(Strip(s[m..n]))
  {
    HeadEndIsRegex(s, m);
    var j := SkipSpace(s, m + 8);
    var k := SkipWord(s, j);
    var l := HeadEnd(s, m).value - 1;
    var piece := s[m..n];
    LowerIsLetterOnlyForLetters(s[m]);
    assert !IsSpace(piece[0]);
    assert StripStart(piece) == 0;
    assert !IsSpace(piece[l - m]);
    var chunk := Strip(piece);
    assert |chunk| > l - m;
    assert forall t :: 0 <= t <= l - m ==> chunk[t] == s[m + t];
    HeadShapeShifts(s, m, j, k, l, chunk);
  }

  /** A function head read at `p` is read at 0 in a text that starts with the
      same characters. */
  lemma HeadShapeShifts(s: string, p: nat, j: nat, k: nat, l: nat, c: string)
    requires HeadShape(s, p, j, k, l) && l - p < |c|
    requires forall t :: 0 <= t <= l - p ==> c[t] == s[p + t]
    ensures HeadShape(c, 0, j - p, k - p, l - p)
  {
    assert forall t :: 0 <= t < 8 ==> c[t] == s[p + t];
    assert c[l - p] == s[l];
    forall t | 8 <= t < j - p
      ensures IsSpace(c[t])
    {
      assert c[t] == s[p + t];
    }
    forall t | j - p <= t < k - p
      ensures IsWordChar(c[t])
    {
      assert c[t] == s[p + t];
    }
    forall t | k - p <= t < l - p
      ensures IsSpace(c[t])
    {
      assert c[t] == s[p + t];
    }
  }

  /** The head matched at a cut ends before the next cut. */
  lemma HeadWithinPiece(s: string, i: nat)
    requires 0 < i < |Cuts(s)| - 1
    ensures Cuts(s)[i] < |s| && HeadEnd(s, Cuts(s)[i]).Some?
    ensures HeadEnd(s, Cuts(s)[i]).value <= Cuts(s)[i + 1]
  {
    var c := Cuts(s);
    CutIsMatch(s, i);
    if HeadEnd(s, c[i]).value > c[i + 1] {
      NoBoundaryInsideHead(s, c[i], c[i + 1]);
      CutIsMatch(s, i + 1);
      assert false;
    }
  }

  /** A piece that starts at a match opens with the function head the regex
      matched there, and stripping it keeps that head. */
  lemma PieceAfterCutStartsWithHead(s: string, i: nat)
    requires 0 < i < |Cuts(s)| - 1
    ensures var piece := s[Cuts(s)[i]..Cuts(s)[i + 1]];
      Strip(piece) != "" && StartsWithFunctionHead(Strip(piece))
  {
    HeadWithinPiece(s, i);
    HeadPieceStrips(s, Cuts(s)[i], Cuts(s)[i + 1]);
  }

  lemma {:induction false} KeepNonBlankHeads(s: string, i: nat)
    requires 0 < i < |Cuts(s)|
    ensures forall x :: x in KeepNonBlank(Pieces(s)[i..]) ==> StartsWithFunctionHead(x)
    decreases |Cuts(s)| - i
  {
    var ps := Pieces(s);
    if i < |Cuts(s)| - 1 {
      KeepNonBlankHeads(s, i + 1);
      PieceAfterCutStartsWithHead(s, i);
      assert ps[i..][1..] == ps[i + 1..];
    } else {
      assert ps[i..] == [];
    }
  }

  /** Every chunk after the first opens with `function`, in any case, then
      whitespace, a word, optional whitespace and `(`. */
  lemma LaterChunksStartWithFunctionHead(code: string)
    ensures forall a :: 1 <= a < |SplitByFunction(code)| ==> StartsWithFunctionHead(SplitByFunction(code)[a])
  {
    var ps := Pieces(code);
    var r := SplitByFunction(code);
    if |r| > 1 {
      KeepNonBlankHeads(code, 1);
      assert ps == [ps[0]] + ps[1..];
      assert r == (if Strip(ps[0]) != "" then [Strip(ps[0])] else []) + KeepNonBlank(ps[1..]);
      forall a | 1 <= a < |r|
        ensures StartsWithFunctionHead(r[a])
      {
        if Strip(ps[0]) != "" {
          assert r[a] in KeepNonBlank(ps[1..]);
        } else {
          assert r[a] in KeepNonBlank(ps[1..]);
        }
      }
    }
  }
}
