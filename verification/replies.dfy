/**
  The records the mock models reply with, one datatype per JSON shape they
  emit, instead of the JSON text itself.
*/
module Replies {
  import opened JsonValue

  /** A phase-1 finding: a suspected vulnerability with its evidence. */
  datatype AuditFinding = AuditFinding(
    id: string,
    title: string,
    category: string,
    severity: string,
    confidence: real,
    evidence: string,
    rationale: string,
    affectedComponents: seq<string>,
    recommendation: string,
    relatedRefs: seq<string>)

  /** A verdict on another model's finding. */
  datatype Verification = Verification(
    id: Json,
    originalTitle: Json,
    valid: bool,
    confidence: real,
    decision: string,
    reason: string,
    correctedCategory: Json,
    correctedSeverity: Json,
    extraEvidenceNeeded: Option<string>)

  /** A confirm-or-dispute answer on one verification item. */
  datatype StanceItem = StanceItem(
    id: Json,
    stance: string,
    confidence: real,
    reason: string,
    whatIsMissing: Option<string>)

  /** The list a mock model replies with, by the kind of prompt it answered;
      `Nothing` is the empty list given to any other prompt. */
  datatype Reply =
    | Findings(findings: seq<AuditFinding>)
    | Verifications(verifications: seq<Verification>)
    | Stances(stances: seq<StanceItem>)
    | Nothing

  /** The reentrancy finding both mock models report. */
  const ReentrancyFinding := AuditFinding(
    "vuln-reentrancy",
    "Reentrancy via low-level call",
    "SWC-107",
    "high",
    0.85,
    "external call via .call{value:...} before state update (withdraw)",
    "State change after external call enables reentrancy",
    ["withdraw"],
    "Move state update before external call or use ReentrancyGuard",
    ["SWC-107"])

  /** The extra evidence asked for when the snippets settle nothing. */
  const FetchMore := "fetch related function or storage variable declarations"
}
