/**
  The chunk store: contract records kept by id, and the retriever that
  indexes a contract once and hands back the chunks that best match a query.
*/
module RagStore {
  import opened JsonValue
  import opened Text
  import opened Chunking
  import opened Ranking

  /** A contract as indexed: its id, its full text and its chunks. */
  datatype ContractRecord = ContractRecord(contractId: string, originalCode: string, chunks: seq<string>)

  /** `ContractRegistry.get` on a store: the record, or KeyError. */
  function Lookup(store: map<string, ContractRecord>, contractId: string): (r: Result<ContractRecord>)
    ensures r.Ok? <==> contractId in store
    ensures r.Ok? ==> r.value == store[contractId]
  {
    if contractId in store then Ok(store[contractId]) else Err(KeyError)
  }

  /** After `put(rec)`, `get` finds `rec` under its id and every other id
      finds what it found before. */
  lemma PutThenLookup(store: map<string, ContractRecord>, rec: ContractRecord, contractId: string)
    ensures Lookup(store[rec.contractId := rec], contractId)
      == if contractId == rec.contractId then Ok(rec) else Lookup(store, contractId)
  {
  }

  lemma PrefixStep<T>(s: seq<T>, i: nat)
    requires i < |s|
    ensures s[..i + 1] == s[..i] + [s[i]]
  {
  }

  /** The records, by contract id. */
  class ContractRegistry {
    var store: map<string, ContractRecord>

    constructor()
      ensures store == map[]
    {
      store := map[];
    }

    /** Stores `rec` under its id, replacing any earlier record with that id. */
    method Put(rec: ContractRecord)
      modifies this
      ensures store == old(store)[rec.contractId := rec]
    {
      store := store[rec.contractId := rec];
    }

    /** The record stored under `contractId`; KeyError when there is none. */
    method Get(contractId: string) returns (r: Result<ContractRecord>)
      ensures r == Lookup(store, contractId)
    {
      if contractId in store {
        r := Ok(store[contractId]);
      } else {
        r := Err(KeyError);
      }
    }
  }

  class Retriever {
    const registry: ContractRegistry

    constructor()
      ensures fresh(registry) && registry.store == map[]
    {
      registry := new ContractRegistry();
    }

    /** Cuts the contract into chunks and stores the record under the given
        id; returns that id. */
    method IndexContract(contractId: string, contractCode: string) returns (r: string)
      modifies registry
      ensures registry.store == old(registry.store)[contractId := ContractRecord(contractId, contractCode, SplitByFunction(contractCode))]
      ensures r == contractId
    {
      var chunks := SplitByFunction(contractCode);
      var rec := ContractRecord(contractId, contractCode, chunks);
      registry.Put(rec);
      r := contractId;
    }

    /** The keyword points of a chunk: two for each keyword it holds. */
    method KeywordHits(ch: string) returns (score: nat)
      ensures score == KeywordScore(ch, Keywords)
    {
      score := 0;
      var j := 0;
      while j < |Keywords|
        invariant 0 <= j <= |Keywords|
        invariant score + KeywordScore(ch, Keywords[j..]) == KeywordScore(ch, Keywords)
      {
        assert Keywords[j..][1..] == Keywords[j + 1..];
        if Contains(ch, Keywords[j]) {
          score := score + 2;
        }
        j := j + 1;
      }
    }

    /** The counts of the tokens in the lowercased chunk, added up in
        whatever order the set yields them. */
    method TokenHits(lc: string, toks: set<string>) returns (score: nat)
      ensures score == SumCounts(lc, toks)
    {
      score := 0;
      var rem := toks;
      while rem != {}
        invariant score + SumCounts(lc, rem) == SumCounts(lc, toks)
        decreases rem
      {
        var tok :| tok in rem;
        SumCountsRemove(lc, rem, tok);
        score := score + Count(lc, tok);
        rem := rem - {tok};
      }
    }

    /** The score of one chunk: the keyword points, then the counts of the
        query tokens in the lowercased chunk. */
    method ScoreChunk(ch: string, query: string) returns (score: nat)
      ensures score == Score(ch, query)
    {
      var kw := KeywordHits(ch);
      var toks := QueryTokens(query);
      var tokenScore := TokenHits(LowerStr(ch), toks);
      assert kw + tokenScore == Score(ch, query);
      score := kw + tokenScore;
    }

    /** The chunks of the contract that best match the query: at most `k`,
        best first; when none of the `k` best scores above zero, the first
        `k` chunks. KeyError when the contract was never indexed. Nothing is
        changed. */
    method Retrieve(contractId: string, query: string, k: int) returns (r: Result<seq<string>>)
      ensures contractId !in registry.store ==> r == Err(KeyError)
      ensures contractId in registry.store ==>
        r == Ok(RetrieveSpec(registry.store[contractId].chunks, query, k))
    {
      var got := registry.Get(contractId);
      if got.Err? {
        return Err(got.error);
      }
      var rec := got.value;
      var scores: seq<nat> := [];
      var i := 0;
      while i < |rec.chunks|
        invariant 0 <= i <= |rec.chunks|
        invariant scores == ChunkScores(rec.chunks, query)[..i]
      {
        var score := ScoreChunk(rec.chunks[i], query);
        PrefixStep(ChunkScores(rec.chunks, query), i);
        scores := scores + [score];
        i := i + 1;
      }
      assert scores == ChunkScores(rec.chunks, query);
      var scored := Entries(scores);
      var ranked := SortDesc(scored);
      var top := KeepPositive(PyPrefix(ranked, k));
      assert top == TopEntries(scores, k);
      if top != [] {
        r := Ok(seq(|top|, t requires 0 <= t < |top| => rec.chunks[top[t].index]));
      } else {
        r := Ok(PyPrefix(rec.chunks, k));
      }
    }
  }
}
