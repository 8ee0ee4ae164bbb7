/**
 * The snapshot a control reads: the parts of the assessment payload
 * (`data.Payload`) and of the Security Insights manifest that the modelled
 * controls look at, and the narrowing step every control performs first.
 * Go pointers that may be nil become `Option`s; URLs, e-mail addresses and
 * other manifest scalars are their string renderings.
 */
module Payload {
  import opened Wrappers
  import opened Text

  datatype ReleaseAsset = ReleaseAsset(name: string, downloadUrl: string)

  /** A release of the repository; its display name may be empty. */
  datatype ReleaseData = ReleaseData(id: int, name: string, tagName: string, url: string, assets: seq<ReleaseAsset>)

  /** A CI workflow file as the hosting platform returns it: encoded content and its declared encoding. */
  datatype WorkflowFile = WorkflowFile(name: string, encoding: string, content: string)

  // Security Insights manifest: every pointer section is an Option.

  datatype ProjectDocumentation = ProjectDocumentation(
    detailedGuide: Option<string>,
    signatureVerification: Option<string>)

  datatype Contact = Contact(name: string, email: Option<string>)

  /** A value section of the project: when the manifest omits it, every field has its zero value. */
  datatype VulnerabilityReporting = VulnerabilityReporting(reportsAccepted: bool, contact: Option<Contact>)

  datatype Project = Project(
    documentation: Option<ProjectDocumentation>,
    vulnerabilityReporting: VulnerabilityReporting)

  datatype ToolIntegration = ToolIntegration(adhoc: bool, ci: bool, release: bool)

  datatype SecurityTool = SecurityTool(toolType: string, integration: ToolIntegration)

  datatype SecurityPosture = SecurityPosture(tools: seq<SecurityTool>, champions: seq<Contact>)

  datatype Attestation = Attestation(predicateUri: string)

  datatype DistributionPoint = DistributionPoint(uri: string)

  datatype ReleaseDetails = ReleaseDetails(attestations: seq<Attestation>, distributionPoints: seq<DistributionPoint>)

  datatype Repository = Repository(securityPosture: SecurityPosture, releaseDetails: Option<ReleaseDetails>)

  datatype SecurityInsights = SecurityInsights(project: Option<Project>, repository: Option<Repository>)

  /** The typed view of one assessment run; read-only for the run. */
  datatype Snapshot = Snapshot(
    releases: seq<ReleaseData>,
    workflows: seq<WorkflowFile>,
    latestReleaseDescription: string,
    insights: SecurityInsights)

  /** The opaque value a control receives: a snapshot, or a value of some other dynamic type. */
  datatype AssessmentPayload =
    | PayloadValue(snapshot: Snapshot)
    | OtherValue(typeName: string, text: string)

  /** Go's untyped nil, as `%T` and `%v` render it. */
  const NilPayload: AssessmentPayload := OtherValue("<nil>", "<nil>")

  /** The zero value of the snapshot type. */
  const ZeroSnapshot: Snapshot := Snapshot([], [], "", SecurityInsights(None, None))

  const MalformedPrefix := "Malformed assessment: expected payload type data.Payload, got "

  /**
   * Narrowing of the opaque payload: the snapshot and an empty message, or the
   * zero snapshot and a message naming the actual type and value.
   */
  function VerifyPayload(payload: AssessmentPayload): (r: (Snapshot, string))
    ensures r.1 == "" <==> payload.PayloadValue?
    ensures payload.PayloadValue? ==> r.0 == payload.snapshot
    ensures payload.OtherValue? ==> r.0 == ZeroSnapshot && HasPrefix(r.1, MalformedPrefix)
  {
    match payload
    case PayloadValue(s) => (s, "")
    case OtherValue(t, v) => (ZeroSnapshot, MalformedPrefix + t + " (" + v + ")")
  }

  /** The payload, once narrowed, has a project section (controls that dereference it need one). */
  predicate HasProject(payload: AssessmentPayload) {
    payload.PayloadValue? ==> payload.snapshot.insights.project.Some?
  }

  /** The payload, once narrowed, has a repository section. */
  predicate HasRepository(payload: AssessmentPayload) {
    payload.PayloadValue? ==> payload.snapshot.insights.repository.Some?
  }

  lemma NilPayloadMessage()
    ensures VerifyPayload(NilPayload).1 == "Malformed assessment: expected payload type data.Payload, got <nil> (<nil>)"
  {
  }
}
