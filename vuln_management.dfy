/** The vulnerability-management controls: a security contact and a SAST tool in the manifest. */
module VulnManagement {
  import opened Wrappers
  import opened Layer4
  import opened Payload

  const ContactsSpecified := "Security contacts were specified in Security Insights data"
  const ContactsMissing := "Security contacts were not specified in Security Insights data"
  const SastDocumented := "Static Application Security Testing documented in Security Insights"
  const SastMissing := "No Static Application Security Testing documented in Security Insights"

  /** The project's vulnerability-reporting contact has a non-empty e-mail address. */
  predicate ProjectContactGiven(s: Snapshot)
    requires s.insights.project.Some? && s.insights.project.value.vulnerabilityReporting.contact.Some? ==>
             s.insights.project.value.vulnerabilityReporting.contact.value.email.Some?
  {
    var proj := s.insights.project;
    proj.Some? && proj.value.vulnerabilityReporting.contact.Some? &&
    proj.value.vulnerabilityReporting.contact.value.email.value != ""
  }

  /**
   * What hasSecContact dereferences without a nil check: the e-mail of a
   * present project contact, and the repository section when the project
   * contact does not decide.
   */
  predicate SecContactReadable(payload: AssessmentPayload) {
    payload.PayloadValue? ==>
      var s := payload.snapshot;
      (s.insights.project.Some? && s.insights.project.value.vulnerabilityReporting.contact.Some? ==>
         s.insights.project.value.vulnerabilityReporting.contact.value.email.Some?) &&
      (!ProjectContactGiven(s) ==> s.insights.repository.Some?)
  }

  /** Some champion in `champions` has a present, non-empty e-mail address. */
  function ChampionWithEmail(champions: seq<Contact>): (b: bool)
    ensures b <==> exists i :: 0 <= i < |champions| && champions[i].email.Some? && champions[i].email.value != ""
  {
    champions != [] &&
    ((champions[0].email.Some? && |champions[0].email.value| > 0) || ChampionWithEmail(champions[1..]))
  }

  /**
   * hasSecContact: passes when the project contact has an e-mail, or else when
   * some security champion has one; fails otherwise.
   */
  function HasSecContact(payload: AssessmentPayload): (r: Outcome)
    requires SecContactReadable(payload)
    ensures payload.OtherValue? ==> r == Outcome(Unknown, VerifyPayload(payload).1)
    ensures payload.PayloadValue? ==> r.result in {Passed, Failed}
    ensures r.result == Passed <==>
      payload.PayloadValue? &&
      (ProjectContactGiven(payload.snapshot) ||
       exists c :: c in payload.snapshot.insights.repository.value.securityPosture.champions &&
                   c.email.Some? && c.email.value != "")
    ensures r.result == Passed ==> r.message == ContactsSpecified
    ensures r.result == Failed ==> r.message == ContactsMissing
  {
    var (data, message) := VerifyPayload(payload);
    if message != "" then Outcome(Unknown, message)
    else
      var proj := data.insights.project;
      if proj.Some? && proj.value.vulnerabilityReporting.contact.Some? &&
         proj.value.vulnerabilityReporting.contact.value.email.value != "" then
        Outcome(Passed, ContactsSpecified)
      else if ChampionWithEmail(data.insights.repository.value.securityPosture.champions) then
        Outcome(Passed, ContactsSpecified)
      else
        Outcome(Failed, ContactsMissing)
  }

  /** The tool is a SAST tool with at least one integration enabled. */
  predicate IsEnabledSast(tool: SecurityTool) {
    var enabled := [tool.integration.adhoc, tool.integration.ci, tool.integration.release];
    tool.toolType == "SAST" && true in enabled
  }

  /** Some tool in `tools` is an enabled SAST tool. */
  function AnyEnabledSast(tools: seq<SecurityTool>): (b: bool)
    ensures b <==> exists i :: 0 <= i < |tools| && tools[i].toolType == "SAST" &&
                             (tools[i].integration.adhoc || tools[i].integration.ci || tools[i].integration.release)
  {
    tools != [] && (IsEnabledSast(tools[0]) || AnyEnabledSast(tools[1..]))
  }

  /** sastToolDefined: passes exactly when some tool has type "SAST" and an enabled integration. */
  function SastToolDefined(payload: AssessmentPayload): (r: Outcome)
    requires HasRepository(payload)
    ensures payload.OtherValue? ==> r == Outcome(Unknown, VerifyPayload(payload).1)
    ensures payload.PayloadValue? ==> r.result in {Passed, Failed}
    ensures r.result == Passed <==>
      payload.PayloadValue? &&
      exists t :: t in payload.snapshot.insights.repository.value.securityPosture.tools &&
                  t.toolType == "SAST" && (t.integration.adhoc || t.integration.ci || t.integration.release)
    ensures r.result == Passed ==> r.message == SastDocumented
    ensures r.result == Failed ==> r.message == SastMissing
  {
    var (data, message) := VerifyPayload(payload);
    if message != "" then Outcome(Unknown, message)
    else if AnyEnabledSast(data.insights.repository.value.securityPosture.tools) then Outcome(Passed, SastDocumented)
    else Outcome(Failed, SastMissing)
  }

  /** A snapshot whose only manifest content is the repository's tool list. */
  function ToolsOnly(tools: seq<SecurityTool>): AssessmentPayload {
    PayloadValue(ZeroSnapshot.(insights := SecurityInsights(None, Some(Repository(SecurityPosture(tools, []), None)))))
  }

  /** A SAST tool with no integration enabled, a non-SAST tool and an empty tool list all fail. */
  lemma SastCasesThatFail(other: string)
    requires other != "SAST"
    ensures SastToolDefined(ToolsOnly([SecurityTool("SAST", ToolIntegration(false, false, false))])) == Outcome(Failed, SastMissing)
    ensures SastToolDefined(ToolsOnly([SecurityTool(other, ToolIntegration(true, true, true))])) == Outcome(Failed, SastMissing)
    ensures SastToolDefined(ToolsOnly([])) == Outcome(Failed, SastMissing)
  {
  }

  /** The type match is exact: a tool typed "sast" is not a SAST tool. */
  lemma SastTypeIsCaseSensitive(i: ToolIntegration)
    ensures SastToolDefined(ToolsOnly([SecurityTool("sast", i)])) == Outcome(Failed, SastMissing)
  {
  }

  /** A nil payload is Unknown with the narrowing message, whatever the control. */
  lemma NilPayloadSecContact()
    ensures HasSecContact(NilPayload) ==
      Outcome(Unknown, "Malformed assessment: expected payload type data.Payload, got <nil> (<nil>)")
  {
  }

  /** With neither a project contact nor champions, the control fails with the fixed message. */
  lemma NoContactsFails(tools: seq<SecurityTool>)
    ensures HasSecContact(PayloadValue(ZeroSnapshot.(insights := SecurityInsights(
              Some(Project(None, VulnerabilityReporting(false, None))),
              Some(Repository(SecurityPosture(tools, []), None))))))
         == Outcome(Failed, ContactsMissing)
  {
  }
}
