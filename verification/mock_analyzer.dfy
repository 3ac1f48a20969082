/**
  The stand-in analyzer of mock_analyzer.py: it keeps the contracts it was
  given under fresh ids (and indexes them when it has a retriever), lists
  two fixed functions for any contract, and flags only `withdraw`.

  `uuid.uuid4()` is the `freshId` parameter of `IngestContract`; the log
  line it prints is not modelled.
*/
module MockAnalysis {
  import opened JsonValue
  import opened Chunking
  import opened RagStore

  class MockAnalyzer {
    /** Contract id to contract code. */
    var contracts: map<string, string>
    /** `None` when the analyzer works without retrieval. */
    const retriever: Retriever?

    constructor(retriever: Retriever?)
      ensures contracts == map[] && this.retriever == retriever
    {
      contracts := map[];
      this.retriever := retriever;
    }

    /** `ingest_contract`: store the code under the new id, index it when
        there is a retriever, and return the id. */
    method IngestContract(code: string, freshId: string) returns (contractId: string)
      modifies this, if retriever == null then {} else {retriever.registry}
      ensures contractId == freshId
      ensures contracts == old(contracts)[freshId := code]
      ensures retriever != null ==>
        retriever.registry.store == old(retriever.registry.store)[freshId := ContractRecord(freshId, code, SplitByFunction(code))]
    {
      contractId := freshId;
      contracts := contracts[contractId := code];
      if retriever != null {
        var _ := retriever.IndexContract(contractId, code);
      }
    }
  }

  function Entry(name: string, code: string): Json {
    Obj(map["name" := Str(name), "code" := Str(code)])
  }

  /** `extract_functions`: the same two functions whatever the contract. */
  function ExtractFunctions(contractId: string): (r: seq<Json>)
    ensures |r| == 2
    ensures forall i :: 0 <= i < |r| ==> r[i].Obj? && "name" in r[i].fields && "code" in r[i].fields
    ensures r[0].fields["name"] == Str("deposit") && r[1].fields["name"] == Str("withdraw")
  {
    [Entry("deposit", "function deposit() public payable {}"),
     Entry("withdraw", "function withdraw(uint amount) public {}")]
  }

  /** What `analyze_function` returns: the function's name and its issues. */
  datatype Analysis = Analysis(functionName: Json, issues: seq<string>)

  /** `analyze_function`: `function["name"]` is a KeyError on a dict without
      it and a TypeError on anything that is not a dict; only a function
      named `withdraw` has an issue, the reentrancy risk. */
  function AnalyzeFunction(fn: Json): (r: Result<Analysis>)
    ensures r.Ok? <==> fn.Obj? && "name" in fn.fields
    ensures r.Err? ==> (r.error == KeyError <==> fn.Obj?) && (r.error == TypeError <==> !fn.Obj?)
    ensures r.Ok? ==> r.value.functionName == fn.fields["name"]
    ensures r.Ok? ==> (r.value.issues != [] <==> fn.fields["name"] == Str("withdraw"))
    ensures r.Ok? && r.value.issues != [] ==> r.value.issues == ["reentrancy risk"]
  {
    match fn
    case Obj(fields) =>
      if "name" !in fields then Err(KeyError)
      else
        var name := fields["name"];
        Ok(Analysis(name, if name == Str("withdraw") then ["reentrancy risk"] else []))
    case _ => Err(TypeError)
  }

  /** Analysing the extracted functions of any contract flags exactly the
      second one, `withdraw`, and nothing fails. */
  lemma OnlyWithdrawFlagged(contractId: string, i: int)
    requires 0 <= i < |ExtractFunctions(contractId)|
    ensures AnalyzeFunction(ExtractFunctions(contractId)[i]).Ok?
    ensures AnalyzeFunction(ExtractFunctions(contractId)[i]).value.issues != [] <==> i == 1
  {
    assert ExtractFunctions(contractId)[i] == if i == 0 then Entry("deposit", "function deposit() public payable {}")
      else Entry("withdraw", "function withdraw(uint amount) public {}");
  }

  /** The listed functions do not depend on the contract. */
  lemma ExtractFunctionsIgnoresContract(a: string, b: string)
    ensures ExtractFunctions(a) == ExtractFunctions(b)
  {
  }
}
