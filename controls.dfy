/** Properties shared by every control of the evaluation plan. */
module Controls {
  import opened Text
  import opened Layer4
  import opened Payload
  import Docs
  import VulnManagement
  import BuildRelease
  import WorkflowScan

  /**
   * A payload that is not a snapshot makes every control return Unknown with the
   * narrowing message, which names the expected type and describes the value received.
   */
  lemma MalformedPayloadIsUnknown(payload: AssessmentPayload, hasSupportMarkdown: Snapshot -> bool,
                                  getLinks: Snapshot -> seq<string>,
                                  decode: WorkflowScan.Decoder, parse: WorkflowScan.Parser)
    requires payload.OtherValue?
    ensures var m := VerifyPayload(payload).1;
      m == MalformedPrefix + payload.typeName + " (" + payload.text + ")" &&
      Docs.HasSupportDocs(payload, hasSupportMarkdown) == Outcome(Unknown, m) &&
      Docs.HasUserGuides(payload) == Outcome(Unknown, m) &&
      Docs.AcceptsVulnReports(payload) == Outcome(Unknown, m) &&
      Docs.HasSignatureVerificationGuide(payload) == Outcome(Unknown, m) &&
      VulnManagement.HasSecContact(payload) == Outcome(Unknown, m) &&
      VulnManagement.SastToolDefined(payload) == Outcome(Unknown, m) &&
      WorkflowScan.CicdOutcome(payload, decode, parse) == Outcome(Unknown, m) &&
      BuildRelease.UniqueIdentifierOutcome(payload) == Outcome(Unknown, m) &&
      BuildRelease.InsightsLinksOutcome(payload, getLinks) == Outcome(Unknown, m) &&
      BuildRelease.DistributionPointsOutcome(payload) == Outcome(Unknown, m) &&
      BuildRelease.LatestReleaseChangelogOutcome(payload) == Outcome(Unknown, m) &&
      BuildRelease.SlsaOutcome(payload) == Outcome(Unknown, m)
  {
  }

  /** The nil payload is reported with the text the tests pin, by every control. */
  lemma NilPayloadIsUnknown(hasSupportMarkdown: Snapshot -> bool, getLinks: Snapshot -> seq<string>,
                            decode: WorkflowScan.Decoder, parse: WorkflowScan.Parser)
    ensures var m := "Malformed assessment: expected payload type data.Payload, got <nil> (<nil>)";
      VulnManagement.HasSecContact(NilPayload) == Outcome(Unknown, m) &&
      Docs.HasUserGuides(NilPayload) == Outcome(Unknown, m) &&
      WorkflowScan.CicdOutcome(NilPayload, decode, parse) == Outcome(Unknown, m) &&
      BuildRelease.UniqueIdentifierOutcome(NilPayload) == Outcome(Unknown, m)
  {
    NilPayloadMessage();
    MalformedPayloadIsUnknown(NilPayload, hasSupportMarkdown, getLinks, decode, parse);
  }
}
