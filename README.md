# OSPS baseline controls of pvtr-github-repo, in Dafny

This project models the control steps of the OSPS evaluation plans of the
GitHub-repository plugin `pvtr-github-repo`. Each control takes the assessment
payload, narrows it to the repository snapshot and returns a layer-4 verdict
(`Passed`, `Failed`, `Unknown` or `NotApplicable`) together with a message. A
payload of the wrong type gives `Unknown` with the narrowing message.

The model covers the following controls.

**Build and release** (`build_release/steps.go`):
- The CI/CD untrusted-input scanner. It has three parts:
  - the untrusted-context pattern;
  - the `${{ … }}` tokenizer of run scripts;
  - the walk over jobs and steps, and the per-file loop of the control.
- Unique release names.
- The HTTPS allow-list for manifest links and for distribution points.
- The changelog mention in the latest release.
- The SLSA attestation.

**Documentation** (`docs/steps.go`): support docs, user guide, acceptance of vulnerability reports, and the signature-verification guide.

**Vulnerability management** (`vuln_management/steps.go`): security contact and SAST tool.

Modules:
- `Wrappers` holds `Option` and `Result`.
- `Layer4` holds the verdict.
- `Payload` holds the snapshot data model and the narrowing.
- `Text` holds the `strings` primitives the controls use: `Index`, `Contains`, `HasPrefix`, `TrimSpace`, `Join`, and `%v` of a count.
- `Seqs` concatenates per-element lists.
- `Untrusted` is the pattern.
- `ScriptScanner` is the tokenizer.
- `WorkflowScan` holds the workflow walk and the CI/CD control.
- `BuildRelease`, `Docs` and `VulnManagement` hold the other controls.
- `Controls` holds the properties shared by all controls.
- `Scenarios` holds concrete workflows.

How the loops are modelled:
- Loops that build state in the source are methods with loop invariants: the tokenizer, the workflow walk (split into a job, a step and a token loop), the release tally, the two HTTPS filters and the per-file CI/CD loop.
- Each such method is proved equal to a specification function.
- The properties are proved about those functions.
- Loops that only search with an early return are existentials over a sequence: the champion, tool and attestation searches.

Some decisions, drawn from how the source behaves:
- **The pattern.** It is the Go regular expression `.*(alt1|…|alt17).*`, used with `Match`. That makes it an unanchored search: a token is untrusted when some alternative occurs in it.
  - Four alternatives have an inner `.*`, between a head and a tail: `pages…page_name`, `commits…message`, `commits…author.email` and `commits…author.name`.
  - The inner `.*` lies within one line, because a regular-expression `.` does not match a line break.
- **Resuming the scan.** The tokenizer resumes at the `}}` it found, not after it. `SkipCloser` proves that this does not change the result.
- **A malformed script is skipped.** When the tokenizer returns nil, the range loop over a nil slice reads nothing. So a malformed script contributes no finding, even when an untrusted expression comes before the unclosed opener (`Scenarios.UnclosedOpenerHidesUntrustedInput`).
- **Nil pointers.** Where the Go code dereferences a pointer without a nil check, the model takes a precondition. Examples are `Insights.Project` in the documentation controls and `Insights.Repository` in the SAST, distribution-point and SLSA controls.

## Model

| member | source | states |
|---|---|---|
| Untrusted.MatchesUntrusted | evaluation_plans/osps/build_release/steps.go:18-34 | the executable matcher holds exactly when some alternative of the pattern matches somewhere in the token |
| Untrusted.MatchesAlternative | evaluation_plans/osps/build_release/steps.go:18-34 | one alternative matches exactly when its literal path occurs in the token, or when its head and tail occur in order with no line break between them |
| Untrusted.GapFrom | evaluation_plans/osps/build_release/steps.go:24-30 | searching the heads from position i finds one followed on its line by the tail exactly when such a head occurs at or after i |
| Untrusted.GapHere | evaluation_plans/osps/build_release/steps.go:24-30 | a head at i is followed on its line by the tail exactly when the tail occurs after the head with no line break in between |
| Untrusted.OnFirstLine | evaluation_plans/osps/build_release/steps.go:24-30 | the tail occurs in the first line exactly when it occurs with no line break before it |
| Untrusted.TaxonomyLeadsWithG | evaluation_plans/osps/build_release/steps.go:18-34 | every alternative's context path starts with `github.`, and so with the letter g |
| Untrusted.WithoutGTrusted | evaluation_plans/osps/build_release/steps.go:18-34 | a token without the letter g matches no alternative |
| ScriptScanner.PullVariablesFromScript | evaluation_plans/osps/build_release/steps.go:115-145 | the loop returns the scan's result: the expressions in order, or nil for a malformed script; it terminates because the remaining script shrinks |
| ScriptScanner.NoOpenerNoVariables | evaluation_plans/osps/build_release/steps.go:124-127 | the result is the empty list exactly when the script has no `${{` |
| ScriptScanner.MalformedIffUnclosed | evaluation_plans/osps/build_release/steps.go:130-134 | the result is nil exactly when some `${{` has no `}}` at or after it, whatever was collected before |
| ScriptScanner.TrailingOpener | evaluation_plans/osps/build_release/steps.go:130-134 | a script ending in `${{` scans to nil, whatever precedes it |
| ScriptScanner.ScanStops | evaluation_plans/osps/build_release/steps.go:124-134 | no opener ends the scan with no further expressions; an unclosed first opener ends it with nil |
| ScriptScanner.ScanStep | evaluation_plans/osps/build_release/steps.go:124-139 | one step emits the trimmed text strictly between the first opener and the first closer after it, which lies past the opener, and resumes at that closer |
| ScriptScanner.CloserAfterOpener | evaluation_plans/osps/build_release/steps.go:130-137 | the closer found from the opener starts at least three characters in, so the slice bounds are valid |
| ScriptScanner.SkipCloser | evaluation_plans/osps/build_release/steps.go:139 | resuming at the closer sees the same expressions as resuming after it |
| ScriptScanner.ScanRendered | evaluation_plans/osps/build_release/steps.go:119-143 | round trip: a script rendered from well-formed pieces scans to the pieces' trimmed bodies, in order |
| ScriptScanner.ScanDecomposes | evaluation_plans/osps/build_release/steps.go:119-143 | every script that scans successfully is such a rendering of pieces whose bodies are the result |
| ScriptScanner.ScanIffDecomposition | evaluation_plans/osps/build_release/steps.go:119-143 | the scan yields `vars` exactly when the script decomposes into well-formed pieces with bodies `vars` |
| ScriptScanner.SingleExpression | evaluation_plans/osps/build_release/steps.go:124-139 | a script with a single `${{ body }}` and no other opener yields just the body |
| WorkflowScan.CheckWorkflowFileForUntrustedInputs | evaluation_plans/osps/build_release/steps.go:74-113 | the message is one line per finding in job, step and token order; the result is true exactly when there are no findings, and then the message is empty |
| WorkflowScan.ReportJobInputs | evaluation_plans/osps/build_release/steps.go:81-105 | a nil job writes nothing; a job writes its steps' lines in order |
| WorkflowScan.ReportStepInputs | evaluation_plans/osps/build_release/steps.go:88-104 | a nil step, a non-run step or a nil run body writes nothing; otherwise one line per untrusted expression of the script |
| WorkflowScan.ReportTokens | evaluation_plans/osps/build_release/steps.go:100-104 | the token loop writes the line of each matching token, in order |
| WorkflowScan.ReportEmptyIff | evaluation_plans/osps/build_release/steps.go:108-111 | the written message is empty exactly when nothing was found |
| WorkflowScan.ReportLines | evaluation_plans/osps/build_release/steps.go:100-104 | the report is exactly one `Untrusted input found: <tok>` line per finding, in place |
| WorkflowScan.ReportAppend | evaluation_plans/osps/build_release/steps.go:102 | writing two runs of findings writes their reports one after the other |
| WorkflowScan.FlaggedMembers | evaluation_plans/osps/build_release/steps.go:100-104 | a token is flagged exactly when it was read and is untrusted |
| WorkflowScan.JobMembers | evaluation_plans/osps/build_release/steps.go:81-104 | a job flags exactly the untrusted expressions that some of its steps read; a nil job flags none |
| WorkflowScan.FindingsCharacterized | evaluation_plans/osps/build_release/steps.go:79-104 | an expression is reported exactly when it is untrusted and some present run step of some present job reads it |
| WorkflowScan.FindingsIgnoreJobOrder | evaluation_plans/osps/build_release/steps.go:79 | walking the job map in any order reports the same expressions, equally often, and gives the same verdict |
| WorkflowScan.CicdSanitizedInputParameters | evaluation_plans/osps/build_release/steps.go:36-72 | the control returns the verdict of the first file that forces one, or Passed with the sanitized message |
| WorkflowScan.SanitizedPassIff | evaluation_plans/osps/build_release/steps.go:45-70 | the control passes exactly when no file forces a verdict; otherwise it fails, and never returns another result |
| WorkflowScan.FirstStoppingFileDecides | evaluation_plans/osps/build_release/steps.go:45-66 | the first file whose encoding, decoding, parsing or scan fails decides the verdict |
| WorkflowScan.LaterFilesIgnored | evaluation_plans/osps/build_release/steps.go:45-66 | files after the deciding one are never examined: replacing them changes nothing |
| WorkflowScan.NotBase64Fails | evaluation_plans/osps/build_release/steps.go:47-49 | a file not marked base64 fails with `File <name> is not base64 encoded` |
| WorkflowScan.UntrustedFileReported | evaluation_plans/osps/build_release/steps.go:56-66 | a readable file whose workflow reads an untrusted expression fails with its report, and the report holds that expression |
| BuildRelease.ReleaseHasUniqueIdentifier | evaluation_plans/osps/build_release/steps.go:147-175 | the control returns the unique-name verdict of the snapshot's releases, Unknown on a malformed payload |
| BuildRelease.TallyReleaseNames | evaluation_plans/osps/build_release/steps.go:153-165 | the loop's nameless count and its list of repeated names are exactly those of the specification functions |
| BuildRelease.FirstIdsKeys | evaluation_plans/osps/build_release/steps.go:155-164 | the map's keys are exactly the non-empty names some release carries |
| BuildRelease.FirstIdsFirst | evaluation_plans/osps/build_release/steps.go:160-164 | each name maps to the id of the first release that carries it |
| BuildRelease.NoNameCountZero | evaluation_plans/osps/build_release/steps.go:158-159 | the nameless count is zero exactly when every release has a name |
| BuildRelease.RepeatsEmptyIff | evaluation_plans/osps/build_release/steps.go:160-161 | no name is repeated exactly when no two releases share a non-empty name |
| BuildRelease.RepeatsCount | evaluation_plans/osps/build_release/steps.go:157-165 | the repeat list holds each non-empty name once per occurrence after its first, and nothing else |
| BuildRelease.NamesPassIff | evaluation_plans/osps/build_release/steps.go:166-174 | Passed with the unique-name message exactly when every release is named and the names are distinct; otherwise Failed |
| BuildRelease.NamesFailMessage | evaluation_plans/osps/build_release/steps.go:166-173 | a failing message opens with `Found <n> releases with no name`, and adds the repeat count and the joined names exactly when there are repeats |
| BuildRelease.InsecureURI | evaluation_plans/osps/build_release/steps.go:261-269 | a link judged secure has at least four characters and starts with `h`, `s` or `g`; the empty link is insecure |
| BuildRelease.InsecureURIAllowList | evaluation_plans/osps/build_release/steps.go:261-269 | a link is secure exactly when it starts with `https://`, `ssh:`, `git:` or `git@` |
| BuildRelease.HttpIsInsecure | evaluation_plans/osps/build_release/steps.go:261-269 | every `http://` link is insecure |
| BuildRelease.HttpsIsSecure | evaluation_plans/osps/build_release/steps.go:262 | every `https://` link is secure |
| BuildRelease.UpperCaseSchemeIsInsecure | evaluation_plans/osps/build_release/steps.go:261-269 | the scheme match is case-sensitive: `HTTPS://` is insecure |
| BuildRelease.InsecureOfMembers | evaluation_plans/osps/build_release/steps.go:279-283 | a link is reported exactly when it is among the links and is insecure |
| BuildRelease.InsecureOfEmpty | evaluation_plans/osps/build_release/steps.go:279-284 | nothing is reported exactly when every link is secure |
| BuildRelease.InsecureOfAppend | evaluation_plans/osps/build_release/steps.go:279-283 | the filter keeps order: the bad links of a concatenation are those of each part |
| BuildRelease.EnsureInsightsLinksUseHTTPS | evaluation_plans/osps/build_release/steps.go:271-288 | the control fails listing the insecure links in order, or passes when there are none |
| BuildRelease.LinksPassIff | evaluation_plans/osps/build_release/steps.go:284-287 | the links control passes exactly when every link is secure, and otherwise fails |
| BuildRelease.PointUris | evaluation_plans/osps/build_release/steps.go:330-332 | the URIs of the points, one per point, in order |
| BuildRelease.DistributionPointsUseHTTPS | evaluation_plans/osps/build_release/steps.go:319-339 | the control returns NotApplicable without points, and otherwise fails listing the insecure point URIs or passes |
| BuildRelease.PointsCases | evaluation_plans/osps/build_release/steps.go:324-338 | NotApplicable exactly when the release details are nil or list no points; with points, Passed exactly when every point URI is secure |
| BuildRelease.SharedClassification | evaluation_plans/osps/build_release/steps.go:331 | links and distribution points are judged by the same allow-list |
| BuildRelease.ChangelogOutcome | evaluation_plans/osps/build_release/steps.go:296-300 | Passed exactly when `Change Log` or `Changelog` occurs in the description; otherwise Failed, with the description appended to the message |
| BuildRelease.LatestReleaseChangelogOutcome | evaluation_plans/osps/build_release/steps.go:290-301 | the changelog verdict of the latest release, Unknown on a malformed payload |
| BuildRelease.ChangelogAnywhere | evaluation_plans/osps/build_release/steps.go:297 | a mention passes wherever it stands in the description |
| BuildRelease.HasSlsa | evaluation_plans/osps/build_release/steps.go:311-315 | the search finds an attestation exactly when one has the exact SLSA v1 predicate URI |
| BuildRelease.SlsaOutcome | evaluation_plans/osps/build_release/steps.go:303-317 | Passed exactly when such an attestation exists, otherwise Failed, each with its fixed message |
| BuildRelease.SlsaVersionMustMatch | evaluation_plans/osps/build_release/steps.go:312 | another predicate version does not count, and the attestation may stand anywhere in the list |
| Docs.HasSupportDocs | evaluation_plans/osps/docs/steps.go:9-21 | Passed exactly when the support-markdown lookup holds, otherwise Failed, each with its message |
| Docs.HasUserGuides | evaluation_plans/osps/docs/steps.go:23-34 | Passed exactly when the documentation section is present with a non-empty detailed guide; otherwise Failed |
| Docs.AcceptsVulnReports | evaluation_plans/osps/docs/steps.go:36-47 | Passed exactly when reports are accepted, otherwise Failed |
| Docs.HasSignatureVerificationGuide | evaluation_plans/osps/docs/steps.go:49-60 | Passed exactly when the documentation section is present with a non-empty signature guide; otherwise Failed |
| Docs.EmptyUserGuideIsAbsent | evaluation_plans/osps/docs/steps_test.go:34-49 | an empty guide URL, an absent one and an absent section give the same Failed verdict |
| Docs.EmptySignatureGuideIsAbsent | evaluation_plans/osps/docs/steps.go:54-57 | the same holds for the signature-verification guide |
| Docs.GuideControlsIndependent | evaluation_plans/osps/docs/steps.go:28-29 | each guide control ignores the other guide's link |
| Docs.AbsentReportingFails | evaluation_plans/osps/docs/steps_test.go:115-126 | a zero-valued reporting section does not accept reports |
| VulnManagement.ChampionWithEmail | evaluation_plans/osps/vuln_management/steps.go:22-26 | the search succeeds exactly when some champion has a present, non-empty e-mail |
| VulnManagement.HasSecContact | evaluation_plans/osps/vuln_management/steps.go:11-29 | Passed exactly when the project contact has an e-mail or some champion has one; otherwise Failed; each with its message |
| VulnManagement.AnyEnabledSast | evaluation_plans/osps/vuln_management/steps.go:37-45 | the search succeeds exactly when some tool has type `SAST` and an enabled integration |
| VulnManagement.SastToolDefined | evaluation_plans/osps/vuln_management/steps.go:31-50 | Passed exactly when such a tool exists, otherwise Failed, each with its message |
| VulnManagement.SastCasesThatFail | evaluation_plans/osps/vuln_management/steps_test.go:45-98 | a SAST tool with no integration, a non-SAST tool and an empty list all fail with the fixed message |
| VulnManagement.SastTypeIsCaseSensitive | evaluation_plans/osps/vuln_management/steps.go:38 | a tool typed `sast` is not a SAST tool |
| VulnManagement.NoContactsFails | evaluation_plans/osps/vuln_management/steps_test.go:160-176 | with no project contact and no champions the control fails with the fixed message |
| VulnManagement.NilPayloadSecContact | evaluation_plans/osps/vuln_management/steps_test.go:178-183 | a nil payload gives Unknown with the `<nil> (<nil>)` message |
| Payload.VerifyPayload | evaluation_plans/osps/build_release/steps.go:39-42 | the narrowing message is empty exactly for a snapshot payload, whose snapshot is returned; any other payload gives the zero snapshot and a message opening with the malformed-assessment prefix |
| Payload.NilPayloadMessage | evaluation_plans/osps/vuln_management/steps_test.go:178-183 | the narrowing message of the nil payload |
| Controls.MalformedPayloadIsUnknown | evaluation_plans/osps/docs/steps.go:10-13 | every control returns Unknown with the unchanged narrowing message when the payload is not a snapshot |
| Controls.NilPayloadIsUnknown | evaluation_plans/osps/vuln_management/steps_test.go:178-183 | the nil payload gives Unknown with the `<nil> (<nil>)` message in the security-contact, user-guide, CI/CD and release-name controls alike |
| Scenarios.IssueTitleTokens | evaluation_plans/osps/build_release/steps.go:115-145 | `echo "${{ github.event.issue.title }}"` scans to the one expression |
| Scenarios.IssueTitleStepFails | evaluation_plans/osps/build_release/steps.go:98-104 | a step echoing the issue title is reported with the line `Untrusted input found: github.event.issue.title` |
| Scenarios.VersionStepPasses | evaluation_plans/osps/build_release/steps.go:98-104 | a step echoing a build step's output is clean |
| Scenarios.MixedStepsReportOnlyTheOffender | evaluation_plans/osps/build_release/steps.go:86-104 | in a job holding both steps, only the issue title is reported |
| Scenarios.UnclosedOpenerHidesUntrustedInput | evaluation_plans/osps/build_release/steps.go:130-134 | an unclosed `${{` after the issue-title expression makes the step clean |
| Scenarios.IssueTitleFileFails | evaluation_plans/osps/build_release/steps.go:45-66 | a base64 file whose workflow echoes the issue title fails the CI/CD control with the report line |
| Text.Index | evaluation_plans/osps/build_release/steps.go:124 | strings.Index: the first position where the pattern occurs, or -1 when it does not occur |
| Text.HasPrefix | evaluation_plans/osps/build_release/steps.go:262-265 | strings.HasPrefix holds exactly when the pattern occurs at position 0, that is, when it is no longer than the text and agrees with it character by character |
| Text.Contains | evaluation_plans/osps/build_release/steps.go:297 | strings.Contains holds exactly when the pattern occurs |
| Text.TrimSpaceSpec | evaluation_plans/osps/build_release/steps.go:137 | strings.TrimSpace drops exactly the leading and trailing white space |
| Text.JoinTwo | evaluation_plans/osps/build_release/steps.go:172 | joining two parts puts the separator between them |
| Text.NatToString | evaluation_plans/osps/build_release/steps.go:168 | `%v` of a count is a non-empty string of decimal digits, without a leading zero, whose value is the count |
| Seqs.ConcatMapPermutation | evaluation_plans/osps/build_release/steps.go:79 | elements in another order give a concatenation with the same multiset of entries |

## Left out

- `getLinks` and `getLinksFromProjectDocumentation` (build_release/steps.go:177-259) walk the third-party Security Insights schema. The links control takes the collected link list as a function of the snapshot instead.
- `reusable_steps.VerifyPayload` is not part of this model. Its narrowing is modelled from its callers and from the message the tests pin: the expected type, then the received type and value.
- `HasSupportMarkdown` is not part of this model. It is a predicate parameter of `Docs.HasSupportDocs`.
- Base64 decoding (`encoding/base64`) and `actionlint.Parse` are function parameters that return a value or the text of their error. The fields of a parsed workflow beyond jobs, steps and run bodies are not modelled.
- `regexp` is replaced by an explicit predicate over `seq<char>`. The Go code matches the token's UTF-8 bytes, so invalid UTF-8 and multi-byte characters are not modelled separately.
- `FindingsIgnoreJobOrder`: the jobs are a Go map, walked in an unspecified order. The model walks them in sequence order and proves that the findings and the verdict are the same for every order. The report's line order does follow the order of the walk, and it is not claimed to be stable.
- The `strings.Builder` of the workflow scan is a string that the loops extend.
- Nil dereferences that panic in Go are preconditions:
  - `HasProject` for the documentation controls;
  - `SecContactReadable` for `HasSecContact`;
  - `HasRepository` for `SastToolDefined` and the distribution-point control;
  - present release details for `SlsaOutcome`.
- `SlsaOutcome` is not stated for a snapshot whose release details are nil. The Go code panics there.
- The unused `map[string]*layer4.Change` parameter of every control, the data loader (GitHub REST and GraphQL I/O) and the parallel runner are outside the controls and are not modelled.

## Findings

None. Every contract was stated from the code, and the code met it.
