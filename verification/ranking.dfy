/**
  How `Retriever.retrieve` ranks the chunks of a contract against a query:
  the score of a chunk, the stable sort by descending score, and the choice
  of the chunks returned.
*/
module Ranking {
  import opened Text

  /** The keywords whose presence in a raw chunk is worth two points each. */
  const Keywords: seq<string> := ["call{", ".call{", "delegatecall", "selfdestruct", "tx.origin", "owner",
                                  "onlyOwner", "reentrancy", "require", "revert", "transfer("]

  /** Two points for each keyword of `kws` that occurs in the chunk (letter
      case matters; presence counts, not the number of occurrences). */
  function KeywordScore(ch: string, kws: seq<string>): (r: nat)
    ensures r <= 2 * |kws|
  {
    if kws == [] then 0
    else (if Contains(ch, kws[0]) then 2 else 0) + KeywordScore(ch, kws[1..])
  }

  /** The keyword points are positive exactly when some keyword occurs. */
  lemma {:induction false} KeywordScorePositive(ch: string, kws: seq<string>)
    ensures KeywordScore(ch, kws) > 0 <==> exists i :: 0 <= i < |kws| && Contains(ch, kws[i])
  {
    if kws != [] {
      KeywordScorePositive(ch, kws[1..]);
      assert forall i :: 1 <= i < |kws| ==> kws[i] == kws[1..][i - 1];
    }
  }

  /** The keywords of `kws` that occur in the chunk. */
  function KeywordsIn(ch: string, kws: seq<string>): set<string> {
    set kw | kw in kws && Contains(ch, kw)
  }

  /** For a list of distinct keywords, the keyword score is two points per
      distinct keyword present in the chunk. */
  lemma {:induction false} KeywordScoreCountsKeywords(ch: string, kws: seq<string>)
    requires forall i, j :: 0 <= i < j < |kws| ==> kws[i] != kws[j]
    ensures KeywordScore(ch, kws) == 2 * |KeywordsIn(ch, kws)|
  {
    if kws != [] {
      var tail := kws[1..];
      KeywordScoreCountsKeywords(ch, tail);
      assert kws[0] !in tail by {
        forall j | 0 <= j < |tail|
          ensures tail[j] != kws[0]
        {
          assert tail[j] == kws[j + 1];
        }
      }
      assert forall kw :: kw in kws <==> kw == kws[0] || kw in tail by {
        assert kws == [kws[0]] + tail;
      }
      if Contains(ch, kws[0]) {
        assert KeywordsIn(ch, kws) == {kws[0]} + KeywordsIn(ch, tail);
      } else {
        assert KeywordsIn(ch, kws) == KeywordsIn(ch, tail);
      }
    }
  }

  /** The keywords `retrieve` looks for are distinct, so a chunk scores two
      points per distinct keyword it holds. */
  lemma KeywordPoints(ch: string)
    ensures KeywordScore(ch, Keywords) == 2 * |KeywordsIn(ch, Keywords)|
  {
    KeywordScoreCountsKeywords(ch, Keywords);
  }

  /** `set(q.split())` for the lowercased query: its distinct whitespace tokens, that is,
      exactly the maximal runs of non-space characters of the lowercased query. */
  function QueryTokens(query: string): (toks: set<string>)
    ensures forall t :: t in toks <==> t in Words(LowerStr(query))
    ensures forall t :: t in toks <==>
      exists i, j :: IsRun(LowerStr(query), i, j) && LowerStr(query)[i..j] == t
    ensures forall t :: t in toks ==> t != ""
  {
    var q := LowerStr(query);
    WordsAreRuns(q);
    set w | w in Words(q)
  }

  /** The sum, over the tokens of `toks`, of their non-overlapping counts in
      `lc`. The order in which the tokens are taken does not matter (see
      `SumCountsRemove`). */
  ghost function SumCounts(lc: string, toks: set<string>): nat
    decreases toks
  {
    if toks == {} then 0
    else
      var t :| t in toks;
      Count(lc, t) + SumCounts(lc, toks - {t})
  }

  /** Taking any token first gives the same sum: a loop over a Python set may
      meet the tokens in any order. */
  lemma {:induction false} SumCountsRemove(lc: string, toks: set<string>, t: string)
    requires t in toks
    ensures SumCounts(lc, toks) == Count(lc, t) + SumCounts(lc, toks - {t})
    decreases toks
  {
    var u :| u in toks && SumCounts(lc, toks) == Count(lc, u) + SumCounts(lc, toks - {u});
    if u != t {
      SumCountsRemove(lc, toks - {u}, t);
      SumCountsRemove(lc, toks - {t}, u);
      assert toks - {u} - {t} == toks - {t} - {u};
    }
  }

  /** The token sum is positive exactly when some (non-empty) token occurs. */
  lemma {:induction false} SumCountsPositive(lc: string, toks: set<string>)
    requires forall t :: t in toks ==> t != ""
    ensures SumCounts(lc, toks) > 0 <==> exists t :: t in toks && Contains(lc, t)
    decreases toks
  {
    if toks != {} {
      var t :| t in toks;
      SumCountsRemove(lc, toks, t);
      SumCountsPositive(lc, toks - {t});
      assert Count(lc, t) > 0 <==> Contains(lc, t);
    }
  }

  /** The score of a chunk for a query. */
  ghost function Score(ch: string, query: string): nat {
    KeywordScore(ch, Keywords) + SumCounts(LowerStr(ch), QueryTokens(query))
  }

  /** A chunk scores above zero exactly when it holds one of the keywords
      (letter case as written) or one of the query tokens (in lower case). */
  lemma ScorePositive(ch: string, query: string)
    ensures Score(ch, query) > 0 <==>
      (exists i :: 0 <= i < |Keywords| && Contains(ch, Keywords[i]))
      || (exists t :: t in QueryTokens(query) && Contains(LowerStr(ch), t))
  {
    KeywordScorePositive(ch, Keywords);
    SumCountsPositive(LowerStr(ch), QueryTokens(query));
  }

  /** A scored chunk: its score and its position in the record's chunk list. */
  datatype Scored = Scored(score: int, index: nat)

  /** The order `list.sort(key=score, reverse=True)` leaves a list with
      increasing positions in: higher scores first, ties by position. */
  predicate Before(a: Scored, b: Scored) {
    a.score > b.score || (a.score == b.score && a.index < b.index)
  }

  predicate SortedBefore(l: seq<Scored>) {
    forall i, j :: 0 <= i < j < |l| ==> Before(l[i], l[j])
  }

  predicate IncreasingIndices(l: seq<Scored>) {
    forall i, j :: 0 <= i < j < |l| ==> l[i].index < l[j].index
  }

  /** Inserts `x` before the first element that does not outscore it. */
  function InsertDesc(x: Scored, l: seq<Scored>): (r: seq<Scored>)
    ensures multiset(r) == multiset(l) + multiset{x}
  {
    if l == [] || l[0].score <= x.score then [x] + l
    else
      assert l == [l[0]] + l[1..];
      [l[0]] + InsertDesc(x, l[1..])
  }

  /** A stable sort by descending score (insertion sort). */
  function SortDesc(s: seq<Scored>): (r: seq<Scored>)
    ensures multiset(r) == multiset(s)
  {
    if s == [] then []
    else
      assert s == [s[0]] + s[1..];
      InsertDesc(s[0], SortDesc(s[1..]))
  }

  lemma {:induction false} InsertDescSorted(x: Scored, l: seq<Scored>)
    requires SortedBefore(l)
    requires forall e :: e in l ==> x.index < e.index
    ensures SortedBefore(InsertDesc(x, l))
  {
    if l != [] && l[0].score > x.score {
      InsertDescSorted(x, l[1..]);
      var r := InsertDesc(x, l[1..]);
      forall e | e in r
        ensures Before(l[0], e)
      {
        assert e in multiset(r);
        if e != x {
          assert e in l[1..];
        }
      }
    }
  }

  /** The sort puts a list with distinct increasing positions in `Before`
      order, and only rearranges it. */
  lemma {:induction false} SortDescSorted(s: seq<Scored>)
    requires IncreasingIndices(s)
    ensures SortedBefore(SortDesc(s))
    ensures multiset(SortDesc(s)) == multiset(s)
  {
    if s != [] {
      SortDescSorted(s[1..]);
      forall e | e in SortDesc(s[1..])
        ensures s[0].index < e.index
      {
        assert e in multiset(SortDesc(s[1..]));
        assert e in s[1..];
      }
      InsertDescSorted(s[0], SortDesc(s[1..]));
    }
  }

  /** The scores of the chunks, in chunk order. */
  ghost function ChunkScores(chunks: seq<string>, query: string): (r: seq<nat>)
    ensures |r| == |chunks|
  {
    seq(|chunks|, i requires 0 <= i < |chunks| => Score(chunks[i], query))
  }

  /** `scored` before the sort: each score with its chunk's position. */
  function Entries(scores: seq<nat>): (r: seq<Scored>)
    ensures |r| == |scores|
    ensures forall i :: 0 <= i < |r| ==> r[i] == Scored(scores[i], i)
  {
    seq(|scores|, i requires 0 <= i < |scores| => Scored(scores[i], i))
  }

  /** `[... for s, c in l if s > 0]`: the entries with a positive score, in order. */
  function KeepPositive(l: seq<Scored>): (r: seq<Scored>)
    ensures |r| <= |l|
    ensures forall e :: e in r <==> e in l && e.score > 0
  {
    if l == [] then []
    else (if l[0].score > 0 then [l[0]] else []) + KeepPositive(l[1..])
  }

  lemma KeepPositiveNone(l: seq<Scored>)
    requires forall i :: 0 <= i < |l| ==> l[i].score <= 0
    ensures KeepPositive(l) == []
  {
  }

  lemma {:induction false} KeepPositiveSorted(l: seq<Scored>)
    requires SortedBefore(l)
    ensures SortedBefore(KeepPositive(l))
  {
    if l != [] {
      KeepPositiveSorted(l[1..]);
      var rest := KeepPositive(l[1..]);
      forall e | e in rest
        ensures Before(l[0], e)
      {
        var j :| 0 <= j < |l[1..]| && l[1..][j] == e;
        assert l[j + 1] == e;
      }
    }
  }

  /** The ranked list: every chunk exactly once, best score first, ties in
      chunk order. */
  lemma RankedIsSorted(scores: seq<nat>)
    ensures var ranked := SortDesc(Entries(scores));
      && SortedBefore(ranked)
      && |ranked| == |scores|
      && forall e :: e in ranked <==> e.index < |scores| && e.score == scores[e.index]
  {
    var sc := Entries(scores);
    SortDescSorted(sc);
    var ranked := SortDesc(sc);
    assert |ranked| == |multiset(ranked)| == |multiset(sc)| == |sc|;
    forall e
      ensures e in ranked <==> e.index < |scores| && e.score == scores[e.index]
    {
      calc {
        e in ranked;
        e in multiset(ranked);
        e in multiset(sc);
        e in sc;
      }
      if e.index < |scores| && e.score == scores[e.index] {
        assert sc[e.index] == e;
      }
    }
  }

  /** The entries picked before the fallback: `scored[:k]` after the sort,
      kept when their score is positive. */
  function TopEntries(scores: seq<nat>, k: int): (r: seq<Scored>)
    ensures forall e :: e in r ==> e.index < |scores| && e.score == scores[e.index] && e.score > 0
  {
    RankedIsSorted(scores);
    KeepPositive(PyPrefix(SortDesc(Entries(scores)), k))
  }

  /** `top or chunks[:k]`, for chunks with the given scores. */
  function Pick(chunks: seq<string>, scores: seq<nat>, k: int): seq<string>
    requires |scores| == |chunks|
  {
    var top := TopEntries(scores, k);
    if top != [] then seq(|top|, i requires 0 <= i < |top| => chunks[top[i].index])
    else PyPrefix(chunks, k)
  }

  /** What `retrieve` returns for a record's chunks. */
  ghost function RetrieveSpec(chunks: seq<string>, query: string, k: int): seq<string> {
    Pick(chunks, ChunkScores(chunks, query), k)
  }

  /** The picked entries are in `Before` order: scores never increase, and
      equal scores keep chunk order, so no chunk is picked twice. */
  lemma TopEntriesSorted(scores: seq<nat>, k: int)
    ensures SortedBefore(TopEntries(scores, k))
  {
    RankedIsSorted(scores);
    var ranked := SortDesc(Entries(scores));
    var p := PyPrefix(ranked, k);
    assert SortedBefore(p) by {
      forall i, j | 0 <= i < j < |p|
        ensures Before(p[i], p[j])
      {
        assert p[i] == ranked[i] && p[j] == ranked[j];
      }
    }
    KeepPositiveSorted(p);
  }

  /** For `k >= 0`, at most `k` chunks are returned. */
  lemma PickBounded(chunks: seq<string>, scores: seq<nat>, k: int)
    requires |scores| == |chunks| && 0 <= k
    ensures |Pick(chunks, scores, k)| <= k
  {
    RankedIsSorted(scores);
  }

  /** Every chunk returned is one of the record's chunks. */
  lemma PickFromChunks(chunks: seq<string>, scores: seq<nat>, k: int)
    requires |scores| == |chunks|
    ensures forall x :: x in Pick(chunks, scores, k) ==> x in chunks
  {
    var r := Pick(chunks, scores, k);
    var top := TopEntries(scores, k);
    if top != [] {
      forall x | x in r
        ensures x in chunks
      {
        var i :| 0 <= i < |r| && r[i] == x;
        assert top[i] in top;
      }
    }
  }

  /** The picked chunks come out best score first, ties in chunk order, and
      every one of them scores above zero. */
  lemma PickOrdered(chunks: seq<string>, scores: seq<nat>, k: int)
    requires |scores| == |chunks| && TopEntries(scores, k) != []
    ensures var top := TopEntries(scores, k); var r := Pick(chunks, scores, k);
      && |r| == |top|
      && (forall i :: 0 <= i < |r| ==> r[i] == chunks[top[i].index] && scores[top[i].index] > 0)
      && (forall i, j :: 0 <= i < j < |r| ==> scores[top[i].index] >= scores[top[j].index])
      && (forall i, j :: 0 <= i < j < |r| && scores[top[i].index] == scores[top[j].index] ==>
            top[i].index < top[j].index)
  {
    TopEntriesSorted(scores, k);
    var top := TopEntries(scores, k);
    assert forall i :: 0 <= i < |top| ==> top[i] in top;
  }

  /** The top-k property: a picked chunk scores at least as much as any chunk
      that was not picked. */
  lemma PickTopK(scores: seq<nat>, k: int, j: nat)
    requires j < |scores| && Scored(scores[j], j) !in TopEntries(scores, k)
    ensures forall e :: e in TopEntries(scores, k) ==> e.score >= scores[j]
  {
    RankedIsSorted(scores);
    var ranked := SortDesc(Entries(scores));
    var p := PyPrefix(ranked, k);
    var ej := Scored(scores[j], j);
    assert ej in ranked;
    forall e | e in TopEntries(scores, k)
      ensures e.score >= ej.score
    {
      assert e in p;
      if ej !in p {
        var a :| 0 <= a < |p| && p[a] == e;
        var b :| 0 <= b < |ranked| && ranked[b] == ej;
        assert ranked[a] == e;
      }
    }
  }

  lemma {:induction false} KeepPositiveAll(l: seq<Scored>)
    requires forall i :: 0 <= i < |l| ==> l[i].score > 0
    ensures KeepPositive(l) == l
  {
    if l != [] {
      KeepPositiveAll(l[1..]);
      assert l == [l[0]] + l[1..];
    }
  }

  /** The other half of the top-k property: a chunk with a positive score is
      left out only when `k` entries were picked. So when fewer than `k` are
      picked, every chunk that scores above zero is among them. */
  lemma PickComplete(scores: seq<nat>, k: int, j: nat)
    requires 0 <= k && j < |scores| && scores[j] > 0
    requires Scored(scores[j], j) !in TopEntries(scores, k)
    ensures |TopEntries(scores, k)| == k
  {
    RankedIsSorted(scores);
    var ranked := SortDesc(Entries(scores));
    var p := PyPrefix(ranked, k);
    var ej := Scored(scores[j], j);
    var b :| 0 <= b < |ranked| && ranked[b] == ej;
    assert |p| <= b;
    forall a | 0 <= a < |p|
      ensures p[a].score > 0
    {
      assert p[a] == ranked[a];
      assert Before(ranked[a], ranked[b]);
    }
    KeepPositiveAll(p);
  }

  /** With `k >= 1`, the fallback to `chunks[:k]` happens exactly when no
      chunk scores above zero. */
  lemma PickFallback(chunks: seq<string>, scores: seq<nat>, k: int)
    requires |scores| == |chunks| && 1 <= k
    ensures TopEntries(scores, k) == [] <==> forall i :: 0 <= i < |scores| ==> scores[i] == 0
    ensures TopEntries(scores, k) == [] ==> Pick(chunks, scores, k) == PyPrefix(chunks, k)
  {
    if i :| 0 <= i < |scores| && scores[i] > 0 {
      if Scored(scores[i], i) !in TopEntries(scores, k) {
        PickComplete(scores, k, i);
      }
    } else {
      RankedIsSorted(scores);
      var p := PyPrefix(SortDesc(Entries(scores)), k);
      assert forall j :: 0 <= j < |p| ==> p[j] in SortDesc(Entries(scores));
      KeepPositiveNone(p);
    }
  }
}
