/**
 * Concrete workflows for the scanner: a run step that interpolates an issue title,
 * one that interpolates a build step's output, and a job holding both.
 */
module Scenarios {
  import opened Wrappers
  import opened Text
  import opened Layer4
  import opened Payload
  import opened Untrusted
  import opened ScriptScanner
  import opened Seqs
  import opened WorkflowScan

  const IssueTitle := Github + "event.issue.title"
  const BuildVersion := "steps.build.outputs.version"

  /** `echo "${{ github.event.issue.title }}"` */
  const IssueTitleScript := "echo \"" + "${{ " + IssueTitle + " }}" + "\""

  /** `echo "${{ steps.build.outputs.version }}"` */
  const VersionScript := "echo \"" + "${{ " + BuildVersion + " }}" + "\""

  function RunStep(script: string): Option<Step> {
    Some(Step(ExecRun(Some(script))))
  }

  function SingleJob(steps: seq<Option<Step>>): Workflow {
    Workflow([Some(Job(steps))])
  }

  lemma IssueTitleTokens()
    ensures StepTokens(RunStep(IssueTitleScript)) == [IssueTitle]
  {
    SingleExpression("echo \"", IssueTitle, "\"");
  }

  lemma VersionTokens()
    ensures StepTokens(RunStep(VersionScript)) == [BuildVersion]
  {
    SingleExpression("echo \"", BuildVersion, "\"");
  }

  lemma IssueTitleUntrusted()
    ensures IsUntrusted(IssueTitle)
  {
    assert OccursAt(IssueTitle, IssueTitle, 0);
    assert AlternativeMatches(Taxonomy[0], IssueTitle);
  }

  lemma BuildVersionTrusted()
    ensures !IsUntrusted(BuildVersion)
  {
    WithoutGTrusted(BuildVersion);
  }

  lemma OneToken(tok: string)
    ensures Flagged([tok]) == if IsUntrusted(tok) then [tok] else []
  {
    assert [tok][..0] == [];
  }

  lemma IssueTitleStepFlagged()
    ensures StepFlagged(RunStep(IssueTitleScript)) == [IssueTitle]
  {
    IssueTitleTokens();
    IssueTitleUntrusted();
    OneToken(IssueTitle);
  }

  lemma VersionStepClean()
    ensures StepFlagged(RunStep(VersionScript)) == []
  {
    VersionTokens();
    BuildVersionTrusted();
    OneToken(BuildVersion);
  }

  /** The findings of a one-job workflow are those of its steps. */
  lemma SingleJobFindings(steps: seq<Option<Step>>)
    ensures Findings(SingleJob(steps)) == ConcatMap(steps, StepFlagged)
  {
    ConcatMapSingle(Some(Job(steps)), JobFlagged);
  }

  lemma IssueTitleLine()
    ensures Report([IssueTitle]) == "Untrusted input found: github.event.issue.title\n"
  {
    ConcatMapSingle(IssueTitle, Line);
  }

  /** A shell step that echoes the issue title is reported, naming the title's context path. */
  lemma IssueTitleStepFails()
    ensures Findings(SingleJob([RunStep(IssueTitleScript)])) == [IssueTitle]
    ensures Report(Findings(SingleJob([RunStep(IssueTitleScript)]))) == "Untrusted input found: github.event.issue.title\n"
  {
    SingleJobFindings([RunStep(IssueTitleScript)]);
    ConcatMapSingle(RunStep(IssueTitleScript), StepFlagged);
    IssueTitleStepFlagged();
    IssueTitleLine();
  }

  /** A shell step that echoes a build step's output is clean. */
  lemma VersionStepPasses()
    ensures Findings(SingleJob([RunStep(VersionScript)])) == []
  {
    SingleJobFindings([RunStep(VersionScript)]);
    ConcatMapSingle(RunStep(VersionScript), StepFlagged);
    VersionStepClean();
  }

  /** Of two steps in one job, only the offending expression is reported, not the other step. */
  lemma MixedStepsReportOnlyTheOffender()
    ensures Findings(SingleJob([RunStep(IssueTitleScript), RunStep(VersionScript)])) == [IssueTitle]
  {
    SingleJobFindings([RunStep(IssueTitleScript), RunStep(VersionScript)]);
    ConcatMapPair(RunStep(IssueTitleScript), RunStep(VersionScript), StepFlagged);
    IssueTitleStepFlagged();
    VersionStepClean();
  }

  /**
   * An opener left unclosed after the issue-title expression makes the scan nil, so the
   * step is clean although its script interpolates an untrusted context.
   */
  lemma UnclosedOpenerHidesUntrustedInput()
    ensures Findings(SingleJob([RunStep(IssueTitleScript + " " + Opener)])) == []
    ensures IsUntrusted(IssueTitle) && StepTokens(RunStep(IssueTitleScript)) == [IssueTitle]
  {
    TrailingOpener(IssueTitleScript + " ");
    assert StepTokens(RunStep(IssueTitleScript + " " + Opener)) == [];
    assert Flagged([]) == [];
    SingleJobFindings([RunStep(IssueTitleScript + " " + Opener)]);
    ConcatMapSingle(RunStep(IssueTitleScript + " " + Opener), StepFlagged);
    IssueTitleUntrusted();
    IssueTitleTokens();
  }

  /** A base64 file whose workflow echoes the issue title fails the CI/CD control with the report line. */
  lemma IssueTitleFileFails(file: WorkflowFile, decode: Decoder, parse: Parser)
    requires file.encoding == "base64" && decode(file.content).Success?
    requires parse(decode(file.content).value) == Success(SingleJob([RunStep(IssueTitleScript)]))
    ensures SanitizedInputs([file], decode, parse) == Outcome(Failed, "Untrusted input found: github.event.issue.title\n")
  {
    IssueTitleStepFails();
  }
}
