/** The documentation controls: presence checks over the project's documentation and reporting sections. */
module Docs {
  import opened Wrappers
  import opened Layer4
  import opened Payload

  const SupportFound := "A support.md file or support statements in the readme.md was found"
  const SupportNotFound := "A support.md file or support statements in the readme.md was NOT found"
  const UserGuideFound := "User guide was specified in Security Insights data"
  const UserGuideMissing := "User guide was NOT specified in Security Insights data"
  const ReportsAccepted := "Repository accepts vulnerability reports"
  const ReportsNotAccepted := "Repository does not accept vulnerability reports"
  const SignatureGuideFound := "Signature verification guide was specified in Security Insights data"
  const SignatureGuideMissing := "Signature verification guide was NOT specified in Security Insights data"

  /** A documentation link counts only when it is present and non-empty. */
  predicate Declared(link: Option<string>) {
    link.Some? && link.value != ""
  }

  /**
   * hasSupportDocs: the verdict follows the support-markdown lookup, which is
   * not part of this model and is given as `hasSupportMarkdown`.
   */
  function HasSupportDocs(payload: AssessmentPayload, hasSupportMarkdown: Snapshot -> bool): (r: Outcome)
    ensures payload.OtherValue? ==> r == Outcome(Unknown, VerifyPayload(payload).1)
    ensures payload.PayloadValue? ==>
      r == if hasSupportMarkdown(payload.snapshot) then Outcome(Passed, SupportFound) else Outcome(Failed, SupportNotFound)
  {
    var (data, message) := VerifyPayload(payload);
    if message != "" then Outcome(Unknown, message)
    else if hasSupportMarkdown(data) then Outcome(Passed, SupportFound)
    else Outcome(Failed, SupportNotFound)
  }

  /** hasUserGuides: passes exactly when the project documents a non-empty detailed guide. */
  function HasUserGuides(payload: AssessmentPayload): (r: Outcome)
    requires HasProject(payload)
    ensures payload.OtherValue? ==> r == Outcome(Unknown, VerifyPayload(payload).1)
    ensures payload.PayloadValue? ==> r.result in {Passed, Failed}
    ensures r.result == Passed <==>
      payload.PayloadValue? &&
      exists d :: payload.snapshot.insights.project.value.documentation == Some(d) && Declared(d.detailedGuide)
    ensures r.result == Passed ==> r.message == UserGuideFound
    ensures r.result == Failed ==> r.message == UserGuideMissing
  {
    var (data, message) := VerifyPayload(payload);
    if message != "" then Outcome(Unknown, message)
    else
      var doc := data.insights.project.value.documentation;
      if doc.None? || doc.value.detailedGuide.None? || |doc.value.detailedGuide.value| == 0 then
        Outcome(Failed, UserGuideMissing)
      else
        Outcome(Passed, UserGuideFound)
  }

  /** acceptsVulnReports: passes exactly when the manifest says reports are accepted. */
  function AcceptsVulnReports(payload: AssessmentPayload): (r: Outcome)
    requires HasProject(payload)
    ensures payload.OtherValue? ==> r == Outcome(Unknown, VerifyPayload(payload).1)
    ensures payload.PayloadValue? ==>
      r == if payload.snapshot.insights.project.value.vulnerabilityReporting.reportsAccepted
           then Outcome(Passed, ReportsAccepted) else Outcome(Failed, ReportsNotAccepted)
  {
    var (data, message) := VerifyPayload(payload);
    if message != "" then Outcome(Unknown, message)
    else if data.insights.project.value.vulnerabilityReporting.reportsAccepted then Outcome(Passed, ReportsAccepted)
    else Outcome(Failed, ReportsNotAccepted)
  }

  /** hasSignatureVerificationGuide: passes exactly when the project documents a non-empty signature guide. */
  function HasSignatureVerificationGuide(payload: AssessmentPayload): (r: Outcome)
    requires HasProject(payload)
    ensures payload.OtherValue? ==> r == Outcome(Unknown, VerifyPayload(payload).1)
    ensures payload.PayloadValue? ==> r.result in {Passed, Failed}
    ensures r.result == Passed <==>
      payload.PayloadValue? &&
      exists d :: payload.snapshot.insights.project.value.documentation == Some(d) && Declared(d.signatureVerification)
    ensures r.result == Passed ==> r.message == SignatureGuideFound
    ensures r.result == Failed ==> r.message == SignatureGuideMissing
  {
    var (data, message) := VerifyPayload(payload);
    if message != "" then Outcome(Unknown, message)
    else
      var doc := data.insights.project.value.documentation;
      if doc.None? || doc.value.signatureVerification.None? || |doc.value.signatureVerification.value| == 0 then
        Outcome(Failed, SignatureGuideMissing)
      else
        Outcome(Passed, SignatureGuideFound)
  }

  /** The snapshot `s` with its project's documentation section replaced. */
  function WithDocumentation(s: Snapshot, doc: Option<ProjectDocumentation>): Snapshot
    requires s.insights.project.Some?
  {
    s.(insights := s.insights.(project := Some(s.insights.project.value.(documentation := doc))))
  }

  /** A present but empty user-guide URL is treated exactly as an absent one, and both fail. */
  lemma EmptyUserGuideIsAbsent(s: Snapshot, d: ProjectDocumentation)
    requires s.insights.project.Some?
    ensures HasUserGuides(PayloadValue(WithDocumentation(s, Some(d.(detailedGuide := Some(""))))))
         == HasUserGuides(PayloadValue(WithDocumentation(s, Some(d.(detailedGuide := None)))))
         == HasUserGuides(PayloadValue(WithDocumentation(s, None)))
         == Outcome(Failed, UserGuideMissing)
  {
  }

  /** A present but empty signature-verification URL is treated exactly as an absent one, and both fail. */
  lemma EmptySignatureGuideIsAbsent(s: Snapshot, d: ProjectDocumentation)
    requires s.insights.project.Some?
    ensures HasSignatureVerificationGuide(PayloadValue(WithDocumentation(s, Some(d.(signatureVerification := Some(""))))))
         == HasSignatureVerificationGuide(PayloadValue(WithDocumentation(s, Some(d.(signatureVerification := None)))))
         == HasSignatureVerificationGuide(PayloadValue(WithDocumentation(s, None)))
         == Outcome(Failed, SignatureGuideMissing)
  {
  }

  /** The two guide controls look at different fields: each verdict ignores the other's link. */
  lemma GuideControlsIndependent(s: Snapshot, d: ProjectDocumentation, other: Option<string>)
    requires s.insights.project.Some?
    ensures HasUserGuides(PayloadValue(WithDocumentation(s, Some(d.(signatureVerification := other)))))
         == HasUserGuides(PayloadValue(WithDocumentation(s, Some(d))))
    ensures HasSignatureVerificationGuide(PayloadValue(WithDocumentation(s, Some(d.(detailedGuide := other)))))
         == HasSignatureVerificationGuide(PayloadValue(WithDocumentation(s, Some(d))))
  {
  }

  /** A project whose reporting section is left at its zero value does not accept reports. */
  lemma AbsentReportingFails(s: Snapshot, doc: Option<ProjectDocumentation>)
    requires s.insights.project == Some(Project(doc, VulnerabilityReporting(false, None)))
    ensures AcceptsVulnReports(PayloadValue(s)) == Outcome(Failed, ReportsNotAccepted)
  {
  }
}
