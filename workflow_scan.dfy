/**
 * The CI/CD control: every workflow file of the snapshot is decoded, parsed into
 * jobs and steps, and the `${{ ... }}` expressions of its `run` steps are checked
 * against the untrusted-input taxonomy. The first file that cannot be read, or that
 * uses untrusted input, decides the verdict.
 */
module WorkflowScan {
  import opened Wrappers
  import opened Layer4
  import opened Payload
  import opened Untrusted
  import opened ScriptScanner
  import opened Seqs

  /** What a step executes: a shell script (which may be absent) or any other kind of step. */
  datatype Exec = ExecRun(run: Option<string>) | ExecAction(uses: string)

  datatype Step = Step(exec: Exec)

  /** A job's steps; a parsed step may be nil. */
  datatype Job = Job(steps: seq<Option<Step>>)

  /** A parsed workflow's jobs, in the order the parser's job map is walked; a job may be nil. */
  datatype Workflow = Workflow(jobs: seq<Option<Job>>)

  /** The script of a present `run` step with a present body; every other step has none. */
  function RunScript(step: Option<Step>): Option<string> {
    match step
    case Some(Step(ExecRun(Some(script)))) => Some(script)
    case _ => None
  }

  /** The expressions the scan reads from a step; a malformed script yields none. */
  function StepTokens(step: Option<Step>): seq<string> {
    match RunScript(step)
    case None => []
    case Some(script) => ScriptVariables(script).GetOr([])
  }

  /** The untrusted expressions among `toks`, in order. */
  function Flagged(toks: seq<string>): seq<string> {
    if toks == [] then []
    else Flagged(toks[..|toks| - 1]) + (if MatchesUntrusted(toks[|toks| - 1]) then [toks[|toks| - 1]] else [])
  }

  /** The untrusted expressions a step reads, in order. */
  function StepFlagged(step: Option<Step>): seq<string> {
    Flagged(StepTokens(step))
  }

  /** The untrusted expressions of a job, in step and token order; a nil job has none. */
  function JobFlagged(job: Option<Job>): seq<string> {
    match job
    case None => []
    case Some(j) => ConcatMap(j.steps, StepFlagged)
  }

  /** The untrusted expressions of a workflow, in job, step and token order. */
  function Findings(workflow: Workflow): seq<string> {
    ConcatMap(workflow.jobs, JobFlagged)
  }

  const FoundPrefix := "Untrusted input found: "

  /** One report line per finding. */
  function Line(tok: string): string {
    FoundPrefix + tok + "\n"
  }

  /** The lines of the findings, in order. */
  function Report(found: seq<string>): string {
    ConcatMap(found, Line)
  }

  /** The report lines of one step: one per untrusted expression of its run script. */
  method ReportStepInputs(step: Option<Step>) returns (lines: string)
    ensures lines == Report(StepFlagged(step))
  {
    if step.None? || !step.value.exec.ExecRun? || step.value.exec.run.None? {
      return "";
    }
    var vars := PullVariablesFromScript(step.value.exec.run.value);
    lines := ReportTokens(vars.GetOr([]));
  }

  /** The inner loop of the scan: one line per token that matches the untrusted pattern. */
  method ReportTokens(varList: seq<string>) returns (lines: string)
    ensures lines == Report(Flagged(varList))
  {
    lines := "";
    ghost var found: seq<string> := [];
    for k := 0 to |varList|
      invariant found == Flagged(varList[..k])
      invariant lines == Report(found)
    {
      assert varList[..k + 1][..k] == varList[..k];
      if MatchesUntrusted(varList[k]) {
        ConcatMapSnoc(found, varList[k], Line);
        lines := lines + Line(varList[k]);
        assert (found + [varList[k]])[..|found|] == found;
        found := found + [varList[k]];
      }
    }
    assert varList[..|varList|] == varList;
  }

  /** The report lines of one job: those of its steps, in order; a nil job has none. */
  method ReportJobInputs(job: Option<Job>) returns (lines: string)
    ensures lines == Report(JobFlagged(job))
  {
    lines := "";
    if job.None? {
      return;
    }
    var steps := job.value.steps;
    for j := 0 to |steps|
      invariant lines == Report(ConcatMap(steps[..j], StepFlagged))
    {
      ConcatMapPrefix(steps, j, StepFlagged);
      var stepLines := ReportStepInputs(steps[j]);
      ReportAppend(ConcatMap(steps[..j], StepFlagged), StepFlagged(steps[j]));
      lines := lines + stepLines;
    }
    assert steps[..|steps|] == steps;
  }

  /**
   * Walks the jobs, their steps and the expressions of each run script, writing one
   * line per untrusted expression; the workflow is clean when nothing was written.
   */
  method CheckWorkflowFileForUntrustedInputs(workflow: Workflow) returns (ok: bool, message: string)
    ensures message == Report(Findings(workflow))
    ensures ok <==> Findings(workflow) == []
    ensures ok ==> message == ""
  {
    var jobs := workflow.jobs;
    message := "";
    for i := 0 to |jobs|
      invariant message == Report(ConcatMap(jobs[..i], JobFlagged))
    {
      ConcatMapPrefix(jobs, i, JobFlagged);
      var jobLines := ReportJobInputs(jobs[i]);
      ReportAppend(ConcatMap(jobs[..i], JobFlagged), JobFlagged(jobs[i]));
      message := message + jobLines;
    }
    assert jobs[..|jobs|] == jobs;
    ReportEmptyIff(Findings(workflow));
    ok := |message| == 0;
  }

  lemma ReportEmptyIff(found: seq<string>)
    ensures Report(found) == "" <==> found == []
  {
    if found != [] {
      assert Report(found)[|Report(found)| - 1] == '\n';
    }
  }

  /** The report of two runs of findings is the two reports one after the other. */
  lemma ReportAppend(a: seq<string>, b: seq<string>)
    ensures Report(a + b) == Report(a) + Report(b)
  {
    ConcatMapAppend(a, b, Line);
  }

  /** The report lists exactly the findings, one line each, in order. */
  lemma {:induction false} ReportLines(found: seq<string>, k: int)
    requires 0 <= k < |found|
    ensures Report(found) == Report(found[..k]) + Line(found[k]) + Report(found[k + 1..])
  {
    assert found == found[..k] + [found[k]] + found[k + 1..];
    ReportAppend(found[..k] + [found[k]], found[k + 1..]);
    ReportAppend(found[..k], [found[k]]);
    ConcatMapSingle(found[k], Line);
  }

  lemma {:induction false} FlaggedMembers(toks: seq<string>, t: string)
    ensures t in Flagged(toks) <==> t in toks && IsUntrusted(t)
  {
    if toks != [] {
      FlaggedMembers(toks[..|toks| - 1], t);
      assert toks == toks[..|toks| - 1] + [toks[|toks| - 1]];
    }
  }

  /** Some step of `steps` reads the token. */
  ghost predicate StepsRead(steps: seq<Option<Step>>, t: string) {
    exists j :: 0 <= j < |steps| && t in StepTokens(steps[j])
  }

  /** A job reads a token when it is present and one of its steps reads the token. */
  ghost predicate JobReads(job: Option<Job>, t: string) {
    job.Some? && StepsRead(job.value.steps, t)
  }

  /** Some job of `jobs` reads the token. */
  ghost predicate JobsRead(jobs: seq<Option<Job>>, t: string) {
    exists i :: 0 <= i < |jobs| && JobReads(jobs[i], t)
  }

  lemma JobMembers(job: Option<Job>, t: string)
    ensures t in JobFlagged(job) <==> IsUntrusted(t) && JobReads(job, t)
  {
    if job.Some? {
      var steps := job.value.steps;
      ConcatMapMembers(steps, StepFlagged, t);
      forall j | 0 <= j < |steps| ensures t in StepFlagged(steps[j]) <==> t in StepTokens(steps[j]) && IsUntrusted(t) {
        FlaggedMembers(StepTokens(steps[j]), t);
      }
    }
  }

  /**
   * An expression is reported exactly when it is untrusted and some present run step
   * of some present job reads it; nil jobs, nil steps, other steps and absent run
   * bodies contribute nothing.
   */
  lemma FindingsCharacterized(workflow: Workflow, t: string)
    ensures t in Findings(workflow) <==> IsUntrusted(t) && JobsRead(workflow.jobs, t)
  {
    var jobs := workflow.jobs;
    ConcatMapMembers(jobs, JobFlagged, t);
    forall i | 0 <= i < |jobs| ensures t in JobFlagged(jobs[i]) <==> IsUntrusted(t) && JobReads(jobs[i], t) {
      JobMembers(jobs[i], t);
    }
  }

  /**
   * The findings of a workflow do not depend on the order its jobs are walked in:
   * any reordering of the jobs reports the same expressions, as often, so the
   * verdict is the same.
   */
  lemma FindingsIgnoreJobOrder(w1: Workflow, w2: Workflow)
    requires multiset(w1.jobs) == multiset(w2.jobs)
    ensures multiset(Findings(w1)) == multiset(Findings(w2))
    ensures Findings(w1) == [] <==> Findings(w2) == []
  {
    ConcatMapPermutation(w1.jobs, w2.jobs, JobFlagged);
    if Findings(w1) == [] {
      assert |multiset(Findings(w2))| == 0;
    }
    if Findings(w2) == [] {
      assert |multiset(Findings(w1))| == 0;
    }
  }

  // ---------------------------------------------------------------------------
  // The control over all workflow files
  // ---------------------------------------------------------------------------

  /** Standard base64 decoding, returning the text of its error on failure. */
  type Decoder = string -> Wrappers.Result<seq<bv8>, string>

  /** The workflow parser, returning the text of its errors on failure. */
  type Parser = seq<bv8> -> Wrappers.Result<Workflow, string>

  const SanitizedMessage := "CI/CD tools input sanitized"

  /**
   * The verdict one file forces, or None when the file is clean and the scan moves on.
   */
  function FileVerdict(file: WorkflowFile, decode: Decoder,
                       parse: Parser): Option<Outcome>
  {
    if file.encoding != "base64" then Some(Outcome(Failed, "File " + file.name + " is not base64 encoded"))
    else match decode(file.content)
      case Failure(e) => Some(Outcome(Failed, "Error decoding workflow file: " + e))
      case Success(bytes) =>
        match parse(bytes)
        case Failure(e) => Some(Outcome(Failed, "Error parsing workflow: " + e))
        case Success(workflow) =>
          if Findings(workflow) == [] then None else Some(Outcome(Failed, Report(Findings(workflow))))
  }

  /** The first file that forces a verdict decides; with none, the inputs are sanitized. */
  function SanitizedInputs(files: seq<WorkflowFile>, decode: Decoder,
                           parse: Parser): Outcome
  {
    if files == [] then Outcome(Passed, SanitizedMessage)
    else match FileVerdict(files[0], decode, parse)
      case Some(o) => o
      case None => SanitizedInputs(files[1..], decode, parse)
  }

  function CicdOutcome(payload: AssessmentPayload, decode: Decoder,
                       parse: Parser): Outcome
  {
    var (snapshot, message) := VerifyPayload(payload);
    if message != "" then Outcome(Unknown, message) else SanitizedInputs(snapshot.workflows, decode, parse)
  }

  method CicdSanitizedInputParameters(payload: AssessmentPayload, decode: Decoder,
                                      parse: Parser)
    returns (result: Layer4.Result, message: string)
    ensures Outcome(result, message) == CicdOutcome(payload, decode, parse)
  {
    var (data, msg) := VerifyPayload(payload);
    if msg != "" {
      return Unknown, msg;
    }
    var files := data.workflows;
    for i := 0 to |files|
      invariant SanitizedInputs(files, decode, parse) == SanitizedInputs(files[i..], decode, parse)
    {
      var file := files[i];
      if file.encoding != "base64" {
        return Failed, "File " + file.name + " is not base64 encoded";
      }
      var decoded := decode(file.content);
      if decoded.Failure? {
        return Failed, "Error decoding workflow file: " + decoded.error;
      }
      var workflow := parse(decoded.value);
      if workflow.Failure? {
        return Failed, "Error parsing workflow: " + workflow.error;
      }
      var ok, report := CheckWorkflowFileForUntrustedInputs(workflow.value);
      if !ok {
        return Failed, report;
      }
      assert files[i..][1..] == files[i + 1..];
    }
    return Passed, SanitizedMessage;
  }

  /** The inputs are sanitized exactly when no file forces a verdict; otherwise the result is Failed. */
  lemma {:induction false} SanitizedPassIff(files: seq<WorkflowFile>, decode: Decoder,
                                            parse: Parser)
    ensures var o := SanitizedInputs(files, decode, parse);
      (o.result == Passed <==> forall k :: 0 <= k < |files| ==> FileVerdict(files[k], decode, parse).None?) &&
      (o.result == Passed ==> o.message == SanitizedMessage) &&
      (o.result == Passed || o.result == Failed)
  {
    if files != [] {
      SanitizedPassIff(files[1..], decode, parse);
      var o := SanitizedInputs(files, decode, parse);
      if FileVerdict(files[0], decode, parse).None? && o.result == Passed {
        forall k | 0 <= k < |files| ensures FileVerdict(files[k], decode, parse).None? {
          if k > 0 {
            assert files[k] == files[1..][k - 1];
          }
        }
      }
    }
  }

  /** The first file that forces a verdict decides it. */
  lemma {:induction false} FirstStoppingFileDecides(files: seq<WorkflowFile>, i: int, decode: Decoder, parse: Parser)
    requires 0 <= i < |files|
    requires forall k :: 0 <= k < i ==> FileVerdict(files[k], decode, parse).None?
    requires FileVerdict(files[i], decode, parse).Some?
    ensures SanitizedInputs(files, decode, parse) == FileVerdict(files[i], decode, parse).value
  {
    if i > 0 {
      var tail := files[1..];
      forall k | 0 <= k < i - 1 ensures FileVerdict(tail[k], decode, parse).None? {
        assert tail[k] == files[k + 1];
      }
      FirstStoppingFileDecides(tail, i - 1, decode, parse);
    }
  }

  /** Files after the first one that forces a verdict are never examined: replacing them changes nothing. */
  lemma {:induction false} LaterFilesIgnored(files: seq<WorkflowFile>, i: int, later: seq<WorkflowFile>,
                                             decode: Decoder, parse: Parser)
    requires 0 <= i < |files|
    requires forall k :: 0 <= k < i ==> FileVerdict(files[k], decode, parse).None?
    requires FileVerdict(files[i], decode, parse).Some?
    ensures SanitizedInputs(files[..i + 1] + later, decode, parse) == SanitizedInputs(files, decode, parse)
  {
    var other := files[..i + 1] + later;
    forall k | 0 <= k <= i ensures other[k] == files[k] {
    }
    FirstStoppingFileDecides(files, i, decode, parse);
    FirstStoppingFileDecides(other, i, decode, parse);
  }

  /** A file not marked as base64 fails the control with its name, whatever its content. */
  lemma NotBase64Fails(file: WorkflowFile, decode: Decoder,
                       parse: Parser)
    requires file.encoding != "base64"
    ensures SanitizedInputs([file], decode, parse) == Outcome(Failed, "File " + file.name + " is not base64 encoded")
  {
  }

  /** A readable file with untrusted input fails the control with its report. */
  lemma UntrustedFileReported(file: WorkflowFile, workflow: Workflow, t: string,
                              decode: Decoder,
                              parse: Parser)
    requires file.encoding == "base64" && decode(file.content).Success?
    requires parse(decode(file.content).value) == Success(workflow)
    requires IsUntrusted(t) && JobsRead(workflow.jobs, t)
    ensures FileVerdict(file, decode, parse) == Some(Outcome(Failed, Report(Findings(workflow))))
    ensures t in Findings(workflow)
  {
    FindingsCharacterized(workflow, t);
  }
}
