# Smart-contract audit pipeline: the deterministic core

The pipeline audits a Solidity contract with two language models. Each model
first reports findings. Each then verifies the other's findings. The
orchestrator merges everything into a final report. This project models in
Dafny the parts of the pipeline that do not depend on a model's answer:

- the chunk store (`rag_store.py`). Contract records are kept by id. A
  contract is cut into chunks just before every `function <name>(` head.
  `retrieve` scores the chunks against a query and returns the best `k`,
  falling back to the first `k`.
- `coerce_json_list` (`utils.py`). It reads a JSON list out of a model's
  reply, falling back to the text between the first `[` and the last `]`.
- `Orchestrator.build_final_report` (`orchestrator.py`) and the
  index-if-absent guard at the start of `run_phased`. The phase-1 findings
  are merged by id, keeping the highest confidence. The phase-3 entries are
  deduplicated by id and sorted into confirmed and disputed vulnerabilities.
- the flattening in `generate_final_report` (`final_report.py`). The two
  verification lists are renamed field by field into one list.
- the three stand-in analyzers: `MockLLM.call` in `analyzer.py` and in
  `mocks.py`, and `MockAnalyzer` in `mock_analyzer.py`. Each is a
  string-containment rule that picks the findings, verdicts or stances to
  emit.

Modelling choices that hold throughout:

- A decoded JSON value is the datatype `JsonValue.Json`. JSON decoding
  (`json.loads`, `json.load`) is a parameter `parse: string -> Option<Json>`,
  so every property holds for any decoder.
- A mock model replies with records (`Replies.Reply`), not with the JSON
  text it would serialise.
- A Python exception is an `Err` value naming its class: `KeyError`,
  `TypeError`, `AttributeError`, or `ValueError` for a decode failure.
- Each Python loop is a `method` with a `while` loop, proved equal to a
  specification function:
  - The loops over findings, phase-3 entries, verification items and report
    sides (`MergeFindings`, `ProcessEntries`, `VerifyItems`,
    `GenerateFinalReport`) have recursive specifications that take the input
    one element at a time from the end. Their invariant says the
    specification of the prefix seen so far equals the accumulated state.
  - The keyword loop (`KeywordHits`) runs over the keyword list. Its
    invariant says the points so far plus `KeywordScore` of the keywords
    not yet visited give the total.
  - The token loop (`TokenHits`) takes the tokens out of the set in any
    order. Its invariant says the sum so far plus `SumCounts` of the tokens
    left give the total. `SumCountsRemove` shows the order does not matter.
  - The chunk loop of `Retrieve` builds the per-chunk scores. Its invariant
    says they are a prefix of `ChunkScores`, a sequence defined chunk by
    chunk.
  The properties are proved as lemmas about the specification functions.
- The objects of the source are classes, with the fields they hold:
  - `RagStore.ContractRegistry`: `put` reassigns its store map.
  - `MockAnalysis.MockAnalyzer`: ingestion reassigns its contract map.
  - `RagStore.Retriever`: owns a registry and changes only through it.
  - `Orchestration.Orchestrator` and `Analyzer.MockLLM`: their fields are
    set in `__init__` and never updated. The orchestrator changes only the
    registry behind its retriever. The mock model changes nothing.
- `str.lower()` and the regex `\w` and `\s` classes are ASCII only.
  `str.count` is a non-overlapping count.

Modules, one per file: `JsonValue` (json.dfy), `Text` (text.dfy),
`Chunking` (chunking.dfy), `Ranking` (ranking.dfy), `RagStore`
(rag_store.dfy), `Utils` (utils.dfy), `Orchestration` (orchestrator.dfy),
`FinalReporting` (final_report.dfy), `Replies` (replies.dfy), `Analyzer`
(analyzer.dfy), `Mocks` (mocks.dfy) and `MockAnalysis` (mock_analyzer.dfy).

## Model

| member | source | states |
|---|---|---|
| JsonValue.GreaterTransitive | orchestrator.py:114 | Python `>` on confidences is transitive: numbers compare as reals and strings lexicographically. The merge relies on this when a later finding replaces the kept one. |
| JsonValue.GreaterAfterNotGreater | orchestrator.py:114 | If `a > b` is false and `c > b` is true, then `c > a` is true. So a finding above the kept one is above every earlier finding with that id. |
| Text.FindFrom | utils.py:12 | `str.find` from a position returns -1 exactly when there is no occurrence. Otherwise it returns the first occurrence at or after that position. |
| Text.RFind | utils.py:12 | `str.rfind` returns -1 exactly when there is no occurrence. Otherwise it returns an occurrence with no occurrence after it. |
| Text.CountFrom | rag_store.py:64 | The non-overlapping count is positive exactly when `sub` occurs, and `count * len(sub)` never exceeds the text length. |
| Text.Count | rag_store.py:64 | `str.count` of a non-empty `sub` is positive exactly when `sub` occurs. The empty string is counted `len(s) + 1` times. |
| Text.Strip | rag_store.py:40 | `str.strip()` is the text between `StripStart` and `StripEnd`, and everything before the one and from the other on is whitespace. It is empty exactly when the text is all whitespace, and a non-empty result starts and ends with non-whitespace. |
| Text.StripRemovesOnlySpace | rag_store.py:40 | `str.strip()` is one contiguous slice of the text, and every character outside that slice is whitespace: only whitespace is removed, and only at the two ends. |
| Text.WordsAreRuns | rag_store.py:63 | The words of `str.split()` are exactly the maximal runs of non-whitespace: each word is such a run, and each such run is a word. |
| Text.RunsCover | rag_store.py:63 | Every non-whitespace character lies inside a maximal run, so `str.split()` loses nothing but whitespace. |
| Text.SplitOn | mocks.py:51 | `str.split(sep)` gives at least one part, and at least two when `sep` occurs. Joining the parts with `sep` gives back the text, and no part contains `sep`. |
| Text.ContainsPart | analyzer.py:11 | A text that contains `sub` contains every slice of `sub`; for example, "FULL CONTRACT CODE" implies "FULL CONTRACT". |
| Chunking.HeadEndIsRegex | rag_store.py:39 | The greedy matcher accepts at a position exactly when `function\s+\w+\s*\(` (ignoring case) can match there. |
| Chunking.NoBoundaryInsideHead | rag_store.py:39 | No split point falls strictly inside a matched function head. |
| Chunking.CutsOf | rag_store.py:39 | The cut points start at 0 and end at the text length. They never decrease, and every inner cut is a split position. |
| Chunking.CutIsMatch | rag_store.py:39 | Every inner cut is a position where the lookahead `(?=\bfunction\s+\w+\s*\()` matches. |
| Chunking.NoMatchBetweenCuts | rag_store.py:39 | No match lies strictly between two consecutive cuts, so `re.split` cuts at every match. |
| Chunking.PiecesConcat | rag_store.py:39 | The unstripped pieces of `re.split`, joined in order, give back the original code. |
| Chunking.KeepNonBlank | rag_store.py:40 | The comprehension keeps at most as many chunks as there are pieces. Each chunk is non-empty and begins and ends with non-whitespace. |
| Chunking.SplitByFunctionShape | rag_store.py:37-44 | `_split_by_function` never returns an empty list. It returns `[code]`, unstripped, exactly when the code is blank; otherwise it returns stripped, non-empty chunks. |
| Chunking.BlankTextIsOneChunk | rag_store.py:42-43 | Blank code (empty or all whitespace) is returned whole as the only chunk. |
| Chunking.NonBlankTextKeepsAPiece | rag_store.py:40-44 | Code with a non-whitespace character keeps at least one stripped piece, so the fallback is not taken. |
| Chunking.ChunksTileText | rag_store.py:39-40 | Each chunk is the code between its span's bounds. The spans are in source order and do not overlap. Every character outside them is whitespace. |
| Chunking.LaterChunksStartWithFunctionHead | rag_store.py:39-40 | Every chunk after the first opens with `function` in any letter case, then whitespace, a word, optional whitespace and `(`. |
| Ranking.KeywordScore | rag_store.py:59-62 | The keyword points are at most two per keyword. |
| Ranking.KeywordScorePositive | rag_store.py:59-62 | The keyword points are positive exactly when the raw chunk contains some keyword, with letter case as written. |
| Ranking.KeywordScoreCountsKeywords | rag_store.py:59-62 | For distinct keywords, the points are two per distinct keyword present; occurrences beyond the first add nothing. |
| Ranking.KeywordPoints | rag_store.py:59-62 | The eleven keywords of `retrieve` are distinct, so a chunk scores two points per keyword it holds. |
| Ranking.QueryTokens | rag_store.py:55-63 | A string is a query token exactly when it is a word of the lowercased query, that is, exactly when it is a maximal run of non-whitespace of the lowercased query. Each distinct word is one token, and no token is empty. |
| Ranking.SumCountsRemove | rag_store.py:63-64 | The token sum does not depend on the order in which the set's tokens are visited. |
| Ranking.SumCountsPositive | rag_store.py:63-64 | The token sum is positive exactly when some query token occurs in the lowercased chunk. |
| Ranking.ScorePositive | rag_store.py:55-64 | A chunk's score is positive exactly when the chunk holds a keyword or the lowercased chunk holds a query token. |
| Ranking.SortDescSorted | rag_store.py:66 | For entries listed in increasing chunk position, the sort is a permutation of its input. Its output has scores that never increase, with ties in chunk position order, as a stable sort keeps them. |
| Ranking.RankedIsSorted | rag_store.py:65-66 | The ranked list holds every chunk exactly once, with its own score, best score first and ties in chunk order. |
| Ranking.KeepPositive | rag_store.py:67 | Only entries with a positive score are kept, and every such entry of the input is kept. |
| Ranking.KeepPositiveNone | rag_store.py:67 | When no score is positive, nothing is kept. |
| Ranking.TopEntries | rag_store.py:66-67 | Every picked entry is a chunk position with its own score, and that score is positive. |
| Ranking.TopEntriesSorted | rag_store.py:66-67 | The picked entries have non-increasing scores, ties in chunk order, and no chunk is picked twice. |
| Ranking.PickBounded | rag_store.py:67-68 | For `k >= 0`, at most `k` chunks are returned, on both the main path and the fallback. |
| Ranking.PickFromChunks | rag_store.py:67-68 | Every chunk returned is one of the record's chunks. |
| Ranking.PickOrdered | rag_store.py:66-67 | Without the fallback, the returned chunks all score above zero. They come best first, with equal scores in chunk order. |
| Ranking.PickTopK | rag_store.py:66-67 | A picked chunk scores at least as much as any chunk that was not picked. |
| Ranking.PickComplete | rag_store.py:66-67 | For `k >= 0`, a chunk with a positive score is left out only when `k` chunks were picked. So when fewer than `k` are picked, every chunk that scores above zero is returned. |
| Ranking.PickFallback | rag_store.py:67-68 | For `k >= 1`, the fallback happens exactly when no chunk scores above zero, and it then returns `chunks[:k]`. |
| RagStore.Lookup | rag_store.py:20-21 | `get` succeeds exactly for a stored id and returns that id's record; any other id is a KeyError. |
| RagStore.PutThenLookup | rag_store.py:17-21 | After `put(rec)`, `get` of `rec`'s id returns `rec`, replacing any earlier record, and every other id gets what it got before. |
| RagStore.ContractRegistry.constructor | rag_store.py:14-15 | A new registry is empty. |
| RagStore.ContractRegistry.Put | rag_store.py:17-18 | The store maps `rec`'s id to `rec`, and every other id is unchanged. |
| RagStore.ContractRegistry.Get | rag_store.py:20-21 | Returns what `Lookup` gives on the current store and changes nothing. |
| RagStore.Retriever.constructor | rag_store.py:29-32 | A new retriever owns a new, empty registry. |
| RagStore.Retriever.IndexContract | rag_store.py:46-50 | Stores a record with the given id, the original code and exactly the chunks of `_split_by_function`, leaves every other id unchanged, and returns the id. |
| RagStore.Retriever.KeywordHits | rag_store.py:58-62 | The keyword loop adds two points per keyword present, which is `KeywordScore`. |
| RagStore.Retriever.TokenHits | rag_store.py:63-64 | The token loop adds each distinct token's count in the lowercased chunk, which is `SumCounts`. |
| RagStore.Retriever.ScoreChunk | rag_store.py:58-64 | A chunk's score is its keyword points plus its token counts. |
| RagStore.Retriever.Retrieve | rag_store.py:52-68 | An id that was never indexed is a KeyError. Otherwise the result is `RetrieveSpec` of the record's chunks, whose properties are the `Ranking.Pick*` rows. The registry is not modified. |
| Utils.CoerceJsonList | utils.py:6-18 | Never raises: the result is a list, or, after the strict decode failed, the decode of a slice of the reply. |
| Utils.CoerceKeepsList | utils.py:9-10 | A reply that decodes to a list is returned as that very list, so a serialised list coerces back to itself. |
| Utils.CoerceRejectsNonList | utils.py:10 | A reply that decodes to a non-list gives `[]`, and bracket recovery is not tried. |
| Utils.CoerceRecoversBrackets | utils.py:12-17 | When the strict decode fails and the first `[` comes before the last `]`, the result is the decode of that inclusive slice, or `[]` when that fails too. |
| Utils.CoerceGivesUpWithoutBrackets | utils.py:12-18 | When the strict decode fails and no `[` comes before a `]`, the result is `[]`. |
| Utils.CoerceAlwaysList | utils.py:6-18 | With a decoder that reads text starting with `[` as a list, the result is always a list. |
| Orchestration.DictGet | orchestrator.py:112 | `.get` succeeds exactly on a dict and returns the key's value or the default. On anything else it is an AttributeError. |
| Orchestration.PlusItems | orchestrator.py:112-118 | `a + b` iterated: two lists give their items concatenated. Two strings give one single-character string per character, those of `a` first, then those of `b`. Any other pairing is a TypeError. |
| Orchestration.ConfGreater | orchestrator.py:114 | Comparing confidences fails unless both findings have one. |
| Orchestration.MergeKeepsBest | orchestrator.py:111-115 | After a successful merge, the keys are exactly the ids of the findings that are dicts with an `"id"` key. Falsy findings and findings without an id never enter. Each id holds one of its findings, and that finding's confidence is strictly above every earlier finding with the id and not below any later one. So on ties the first stays. |
| Orchestration.MergeStopsAt | orchestrator.py:111-115 | Once a step raises, the merge's result is that error. |
| Orchestration.Details | orchestrator.py:127-137 | An entry's details take the status, confidence and reason from the phase-3 entry. They take the title (default "N/A"), evidence, rationale and recommendation from the merged phase-1 finding with that id, or from `{}`. |
| Orchestration.KeptPositions | orchestrator.py:119-126 | The processed positions ascend, lie within the input, and hold exactly the entries whose truthy id appears there for the first time. |
| Orchestration.KeptInOrder | orchestrator.py:119-126 | The processed entries are the input's entries at those positions, in input order: every entry that is the first with its truthy id, and no other. |
| Orchestration.KeptDistinct | orchestrator.py:119-126 | The processed entries have truthy, pairwise distinct ids and come from the input, so no id is processed twice. |
| Orchestration.WithStanceMembers | orchestrator.py:128-142 | A stance's list holds exactly the details of the processed entries whose lowercased stance is that stance, and each has that status. |
| Orchestration.ProcessMatchesKept | orchestrator.py:118-142 | The phase-3 loop succeeds exactly on clean entries: all dicts, truthy ids hashable, and the stance of each processed entry a string. Then every truthy id is marked processed. The confirmed and disputed lists are the first entries per id whose lowercased stance is "confirm" or "dispute", in input order; any other stance goes in neither. |
| Orchestration.ProcessStopsAt | orchestrator.py:121-142 | Once a step raises, the loop's result is that error. |
| Orchestration.Summarize | orchestrator.py:145-152 | The summary is the status "No vulnerable section found" exactly when both lists are empty. Otherwise it holds both lists and no status. |
| Orchestration.FinalReportContents | orchestrator.py:106-162 | A built report holds a summary of the stance lists of the processed phase-3 entries (`llm1_on_llm2` then `llm2_on_llm1`), detailed against the merged phase-1 findings (`llm1` then `llm2`). It also holds the phase1, phase2 and phase3 inputs unchanged, `null` when absent. |
| Orchestration.Orchestrator.constructor | orchestrator.py:11-14 | The orchestrator uses the given retriever. |
| Orchestration.Orchestrator.EnsureIndexed | orchestrator.py:18-24 | A missing id becomes "default_contract_id". The contract is indexed under the id exactly when the registry does not already hold it; otherwise the registry is left as it was. |
| Orchestration.Orchestrator.MergeFindings | orchestrator.py:111-115 | The merge loop's result is `Merge` of the findings, whose properties are `MergeKeepsBest`. |
| Orchestration.Orchestrator.ProcessEntries | orchestrator.py:119-142 | The phase-3 loop's result is `Process` of the entries, whose properties are `ProcessMatchesKept` and `KeptDistinct`. |
| Orchestration.Orchestrator.BuildFinalReport | orchestrator.py:106-162 | Returns `FinalReportOf(results)`, described by `FinalReportContents`, and changes nothing. |
| FinalReporting.Renamed | final_report.py:20-29 | One finding per entry, in order, with no dedup or filtering: the finding at each position is the renaming of the entry at that position. |
| FinalReporting.RenamedConcat | final_report.py:18-29 | The findings of two lists, one after the other, are the first list renamed entry by entry, then the second. |
| FinalReporting.FindingsConcatenateSides | final_report.py:18-29 | The findings are all `llm1_on_llm2` entries renamed, then all `llm2_on_llm1` entries renamed, each in input order; a missing side counts as empty. |
| FinalReporting.RenameFields | final_report.py:21-29 | `title`, `category` and `severity` come from `original_title`, `corrected_category` and `corrected_severity`. `id`, `confidence`, `decision` and `reason` are copied. Absent fields become `null`. |
| FinalReporting.NoVerificationsNoFindings | final_report.py:15-34 | Without `phase3_verifications` the findings are empty and the contract id is still copied. |
| FinalReporting.ContractIdCopied | final_report.py:31-34 | Whenever a report is produced, its `contract_id` is the input's, or `null` when absent. |
| FinalReporting.MissingReportGivesNothing | final_report.py:8-10 | A missing report file yields nothing. |
| FinalReporting.SidesStopAt | final_report.py:19-29 | Once a side raises, the result is that error. |
| FinalReporting.GenerateFinalReport | final_report.py:8-34 | The nested loop over the sides and their entries returns `FinalReportOf`, including its error cases. |
| Analyzer.BranchPriority | analyzer.py:11-94 | Full-analysis markers win over counterparty markers, which win over verification-item markers, and any other prompt gets `[]`. Only the counterparty branch can raise. |
| Analyzer.FullAnalysisMarkers | analyzer.py:11 | The full-analysis branch is taken exactly when the prompt holds "FULL CONTRACT" or the auditor sentence. |
| Analyzer.FullAnalysisFindings | analyzer.py:12-40 | The reentrancy finding appears exactly when the prompt holds `call{` or `.call(`, and the tx.origin finding exactly when it holds `tx.origin`. Reentrancy comes first, and there are at most two findings. |
| Analyzer.PayloadNeedsMarkerAndBrackets | analyzer.py:43-54 | The counterparty report is empty unless the marker occurs and the stripped text after it holds a `[` and a `]`. |
| Analyzer.FirstMarker | analyzer.py:45-48 | The text searched for brackets is the stripped text after the first occurrence of the marker. |
| Analyzer.PayloadDecodesBrackets | analyzer.py:43-54 | With the marker present and `i`, `j` the first `[` and the last `]` of that text, the report is the decode of the text from `i` through `j`, or `[]` when that fails. When `j` comes before `i` the slice is empty, as in Python. |
| Analyzer.VerifyAllItems | analyzer.py:55-83 | The verifier emits exactly one verdict per payload item, in order. |
| Analyzer.VerdictRule | analyzer.py:58-82 | A verdict keeps the item's id (default "vuln-1") and its title. It is valid, "confirm" and 0.8 with the item's category and severity exactly when the lowercased evidence contains "reentrancy" or "call". Otherwise it is invalid, "needs-more-evidence" and 0.3, with null corrected fields and a request for more evidence. |
| Analyzer.ConfirmationIsCanned | analyzer.py:85-93 | A verification-item prompt always gets the single "vuln-reentrancy" confirmation with confidence 0.85. |
| Analyzer.VerifyStopsAt | analyzer.py:56-58 | Once an item raises, the verifier's result is that error. |
| Analyzer.MockLLM.constructor | analyzer.py:7-8 | The mock keeps its name. |
| Analyzer.MockLLM.Call | analyzer.py:10-94 | The reply is `ReplyTo`, whose properties are the `Analyzer` lemma rows. |
| Analyzer.MockLLM.Audit | analyzer.py:12-40 | The findings loop appends exactly `FullAnalysis`. |
| Analyzer.MockLLM.VerifyCounterparty | analyzer.py:43-83 | The counterparty branch returns `VerifyReport` of the prompt. |
| Analyzer.MockLLM.ExtractPayload | analyzer.py:43-54 | The `try` block's payload is `Payload` of the prompt. |
| Analyzer.MockLLM.VerifyItems | analyzer.py:55-83 | The loop over the items returns `VerifyAll`. |
| Analyzer.MockLLM.VerifyOne | analyzer.py:58-82 | The loop body on one item returns `VerifyItem`. |
| Mocks.BranchOrder | mocks.py:10-69 | On the lowercased prompt: full analysis, then counterparty, then `verification_item`, else `[]`. Only the last branch can raise. |
| Mocks.FullAnalysisIsCanned | mocks.py:13-25 | Full analysis always returns exactly one reentrancy finding (SWC-107, high, 0.85), whatever the contract. |
| Mocks.CrossCheckIsCanned | mocks.py:28-39 | Cross-verification always returns exactly one "confirm" verdict for "vuln-reentrancy". |
| Mocks.StanceRule | mocks.py:43-64 | The stance is "confirm" exactly when the evidence text holds a listed keyword, and "dispute" otherwise. Confidence 0.9 with nothing missing goes with "confirm"; 0.4 with a request for more goes with "dispute". The id is the item's "id", defaulting to "vuln-1". |
| Mocks.UndecodableItemIsVuln1 | mocks.py:43-60 | When the text between the first `{` and the last `}` does not decode, the answer is for "vuln-1". |
| Mocks.NoSnippetsDisputes | mocks.py:51-55 | Without the case-sensitive snippet marker the stance is "dispute". |
| Mocks.EvidenceAfterSingleMarker | mocks.py:51 | With a single snippet marker, the evidence text is the lowercased text after it. |
| Mocks.KeywordInJoin | mocks.py:51-54 | A stance keyword occurs in the lowercased parts joined by line breaks, or joined by the marker, exactly when it occurs in one lowercased part. No keyword can straddle either separator. |
| Mocks.EvidenceMentionsKeyword | mocks.py:51-54 | For any prompt holding the marker, the evidence holds a stance keyword exactly when the lowercased text after the first marker does. Later markers, which become line breaks, do not change the stance. |
| MockAnalysis.MockAnalyzer.constructor | mock_analyzer.py:4-6 | A new analyzer holds no contracts and keeps the given retriever, or none. |
| MockAnalysis.MockAnalyzer.IngestContract | mock_analyzer.py:8-17 | The code is stored under the fresh id and every other entry is unchanged. With a retriever, that contract is indexed under the same id; without one nothing else changes. The id is returned. |
| MockAnalysis.ExtractFunctions | mock_analyzer.py:19-24 | Exactly two entries: `deposit`, then `withdraw`. |
| MockAnalysis.ExtractFunctionsIgnoresContract | mock_analyzer.py:19-24 | The listed functions do not depend on the contract id. |
| MockAnalysis.AnalyzeFunction | mock_analyzer.py:26-31 | Returns the function's name, with issues `["reentrancy risk"]` exactly when the name is "withdraw" and `[]` otherwise. A dict without "name" is a KeyError; anything else that is not a dict is a TypeError. |
| MockAnalysis.OnlyWithdrawFlagged | mock_analyzer.py:19-31 | Analysing the extracted functions of any contract never fails, and flags exactly the second one, `withdraw`. |

## Left out

- The language-model clients (`llm1_api.py`, `llm2_api.py`) and the calls
  `run_phased` makes to them. They are foreign calls that only raise.
- The rest of `run_phased`: its prints, its `try`/`except` fallbacks and
  `save_json`. The model keeps only the index-if-absent guard.
- The web front end (`frontend.py`), the command line (`app.py`),
  `save_json` and `load_prompt`. These are I/O.
- The file reading and writing in `generate_final_report`. Whether the
  report file exists is an `Option`. The file's text is decoded by the
  `parse` parameter.
- JSON decoding and serialisation. Decoding is the `parse` parameter and
  replies are records. The key order of dicts is lost, because objects are
  maps.
- `Retriever._hash` (SHA-256) is unused in indexing. `chunk_size` and
  `chunk_overlap` are stored but never used.
- `uuid.uuid4()` becomes the `freshId` parameter of
  `MockAnalysis.MockAnalyzer.IngestContract`, and the ingest log line is
  left out.
- Non-ASCII letters: `str.lower()` and the regex `\w`/`\s` classes are ASCII
  only, and `IGNORECASE` folds ASCII letters only.
- Python's `1 == True` (and `hash(1) == hash(True)`): `Num(1)` and
  `Bool(true)` are different keys and different values here.
- JsonValue.Greater: a JSON number is an exact `real`, not an IEEE double.
  Two literals that round to the same double, such as `0.1` and
  `0.10000000000000000001`, are ordered here but equal in Python. `NaN` and
  `Infinity`, which `json.loads` accepts, have no counterpart.
- Orchestration.MergeKeepsBest: holds for the real-number confidences of
  the model only. With a `NaN` confidence Python's `>` is not a strict
  order. For example, with confidences 0.5, NaN and 0.7 for one id, Python
  keeps the 0.7 finding although `0.7 > NaN` is false.
- Orchestration.ConfGreater: rests on `JsonValue.Greater`, so it has the
  same limits for doubles, `NaN` and `Infinity`. Also, comparing two lists
  or two tuples lexicographically is not modelled. Python can order two list
  confidences; here that comparison is a TypeError.
- Orchestration.Details: `evidence_rationale` is an f-string of the entry's
  reason and the finding's rationale. The model keeps these as two fields,
  because string formatting of arbitrary values is out of scope.
- Ranking.SortDesc: `list.sort` (Timsort) is modelled by a functional,
  stable insertion sort. With a stable sort the result is the same list,
  but it is built in a new sequence rather than sorted in place.
- `MockLLM.name` in `analyzer.py` and `mocks.py` is stored but never read.
  The `mocks.py` model is a function without that field.
- Printing, in every file.
