/**
 * The release and link controls: unique release names, the HTTPS scheme allow-list
 * over Security Insights links and distribution points, a changelog mention in the
 * latest release, and an SLSA provenance attestation.
 */
module BuildRelease {
  import opened Wrappers
  import opened Text
  import opened Layer4
  import opened Payload

  // ---------------------------------------------------------------------------
  // Unique release names
  // ---------------------------------------------------------------------------

  /** The number of releases with an empty name. */
  function NoNameCount(releases: seq<ReleaseData>): nat {
    if releases == [] then 0
    else NoNameCount(releases[..|releases| - 1]) + (if releases[|releases| - 1].name == "" then 1 else 0)
  }

  /** Each non-empty name mapped to the id of the first release that carries it. */
  function FirstIds(releases: seq<ReleaseData>): map<string, int> {
    if releases == [] then map[]
    else
      var ids := FirstIds(releases[..|releases| - 1]);
      var r := releases[|releases| - 1];
      if r.name == "" || r.name in ids then ids else ids[r.name := r.id]
  }

  /** The names of the releases that repeat an earlier non-empty name, one entry per repeat, in order. */
  function Repeats(releases: seq<ReleaseData>): seq<string> {
    if releases == [] then []
    else
      var init := releases[..|releases| - 1];
      var r := releases[|releases| - 1];
      Repeats(init) + (if r.name != "" && r.name in FirstIds(init) then [r.name] else [])
  }

  const UniqueNamesMessage := "All releases found have a unique name"

  function NoNamePart(n: nat): string {
    "Found " + NatToString(n) + " releases with no name"
  }

  function SameNamePart(same: seq<string>): string {
    "Found " + NatToString(|same|) + " releases with the same name: " + Join(same, ", ")
  }

  function NamesOutcome(releases: seq<ReleaseData>): Outcome {
    var n := NoNameCount(releases);
    var same := Repeats(releases);
    if n > 0 || |same| > 0 then
      Outcome(Failed, Join([NoNamePart(n)] + (if |same| > 0 then [SameNamePart(same)] else []), ". "))
    else Outcome(Passed, UniqueNamesMessage)
  }

  function UniqueIdentifierOutcome(payload: AssessmentPayload): Outcome {
    var (snapshot, message) := VerifyPayload(payload);
    if message != "" then Outcome(Unknown, message) else NamesOutcome(snapshot.releases)
  }

  /**
   * releaseHasUniqueIdentifier: counts the unnamed releases and collects the names
   * that repeat an earlier one, then reports both when either is non-empty.
   */
  method ReleaseHasUniqueIdentifier(payload: AssessmentPayload) returns (result: Layer4.Result, message: string)
    ensures Outcome(result, message) == UniqueIdentifierOutcome(payload)
  {
    var (data, msg) := VerifyPayload(payload);
    if msg != "" {
      return Unknown, msg;
    }
    var noNameCount, sameNameFound := TallyReleaseNames(data.releases);
    if noNameCount > 0 || |sameNameFound| > 0 {
      var parts := [NoNamePart(noNameCount)];
      if |sameNameFound| > 0 {
        parts := parts + [SameNamePart(sameNameFound)];
      }
      return Failed, Join(parts, ". ");
    }
    return Passed, UniqueNamesMessage;
  }

  /** The loop of releaseHasUniqueIdentifier over the releases, in order. */
  method TallyReleaseNames(releases: seq<ReleaseData>) returns (noNameCount: nat, sameNameFound: seq<string>)
    ensures noNameCount == NoNameCount(releases)
    ensures sameNameFound == Repeats(releases)
  {
    noNameCount := 0;
    sameNameFound := [];
    var releaseNames: map<string, int> := map[];
    for i := 0 to |releases|
      invariant noNameCount == NoNameCount(releases[..i])
      invariant sameNameFound == Repeats(releases[..i])
      invariant releaseNames == FirstIds(releases[..i])
    {
      assert releases[..i + 1][..i] == releases[..i];
      var release := releases[i];
      if release.name == "" {
        noNameCount := noNameCount + 1;
      } else if release.name in releaseNames {
        sameNameFound := sameNameFound + [release.name];
      } else {
        releaseNames := releaseNames[release.name := release.id];
      }
    }
    assert releases[..|releases|] == releases;
  }

  /** The names carried by some release with a non-empty name are exactly the keys of `FirstIds`. */
  lemma {:induction false} FirstIdsKeys(releases: seq<ReleaseData>, x: string)
    ensures x in FirstIds(releases) <==> x != "" && exists k :: 0 <= k < |releases| && releases[k].name == x
  {
    if releases != [] {
      var n := |releases| - 1;
      FirstIdsKeys(releases[..n], x);
      if exists k :: 0 <= k < n && releases[..n][k].name == x {
        var k :| 0 <= k < n && releases[..n][k].name == x;
        assert releases[k] == releases[..n][k];
      }
      if exists k :: 0 <= k < |releases| && releases[k].name == x {
        var k :| 0 <= k < |releases| && releases[k].name == x;
        if k < n {
          assert releases[..n][k] == releases[k];
        }
      }
    }
  }

  /** Each name is mapped to the id of the first release that carries it. */
  lemma {:induction false} FirstIdsFirst(releases: seq<ReleaseData>, k: int)
    requires 0 <= k < |releases| && releases[k].name != ""
    requires forall l :: 0 <= l < k ==> releases[l].name != releases[k].name
    ensures releases[k].name in FirstIds(releases) && FirstIds(releases)[releases[k].name] == releases[k].id
  {
    var n := |releases| - 1;
    if k < n {
      assert releases[..n][k] == releases[k];
      forall l | 0 <= l < k ensures releases[..n][l].name != releases[..n][k].name {
        assert releases[..n][l] == releases[l];
      }
      FirstIdsFirst(releases[..n], k);
    } else {
      FirstIdsKeys(releases[..n], releases[k].name);
    }
  }

  /** No release lacks a name exactly when the count of nameless releases is zero. */
  lemma {:induction false} NoNameCountZero(releases: seq<ReleaseData>)
    ensures NoNameCount(releases) == 0 <==> forall k :: 0 <= k < |releases| ==> releases[k].name != ""
  {
    if releases != [] {
      var n := |releases| - 1;
      NoNameCountZero(releases[..n]);
      if NoNameCount(releases) == 0 {
        forall k | 0 <= k < |releases| ensures releases[k].name != "" {
          if k < n {
            assert releases[..n][k] == releases[k];
          }
        }
      }
      if forall k :: 0 <= k < |releases| ==> releases[k].name != "" {
        forall k | 0 <= k < n ensures releases[..n][k].name != "" {
          assert releases[..n][k] == releases[k];
        }
      }
    }
  }

  /** No two releases share a non-empty name. */
  ghost predicate NamesDistinct(releases: seq<ReleaseData>) {
    forall k, l :: 0 <= k < l < |releases| && releases[k].name != "" ==> releases[k].name != releases[l].name
  }

  lemma DistinctSnoc(releases: seq<ReleaseData>)
    requires releases != []
    ensures var n := |releases| - 1;
      NamesDistinct(releases) <==>
      NamesDistinct(releases[..n]) &&
      (releases[n].name == "" || forall k :: 0 <= k < n ==> releases[..n][k].name != releases[n].name)
  {
    var n := |releases| - 1;
    var init := releases[..n];
    assert forall k :: 0 <= k < n ==> init[k] == releases[k];
  }

  /** No name repeats exactly when no two releases share a non-empty name. */
  lemma {:induction false} RepeatsEmptyIff(releases: seq<ReleaseData>)
    ensures Repeats(releases) == [] <==> NamesDistinct(releases)
  {
    if releases != [] {
      var n := |releases| - 1;
      RepeatsEmptyIff(releases[..n]);
      DistinctSnoc(releases);
      FirstIdsKeys(releases[..n], releases[n].name);
    }
  }

  /** How many releases carry the name `x`. */
  function NameCount(releases: seq<ReleaseData>, x: string): nat {
    if releases == [] then 0
    else NameCount(releases[..|releases| - 1], x) + (if releases[|releases| - 1].name == x then 1 else 0)
  }

  lemma {:induction false} NameCountPositive(releases: seq<ReleaseData>, x: string)
    ensures NameCount(releases, x) > 0 <==> exists k :: 0 <= k < |releases| && releases[k].name == x
  {
    if releases != [] {
      var n := |releases| - 1;
      NameCountPositive(releases[..n], x);
      if exists k :: 0 <= k < n && releases[..n][k].name == x {
        var k :| 0 <= k < n && releases[..n][k].name == x;
        assert releases[k] == releases[..n][k];
      }
      if exists k :: 0 <= k < |releases| && releases[k].name == x {
        var k :| 0 <= k < |releases| && releases[k].name == x;
        if k < n {
          assert releases[..n][k] == releases[k];
        }
      }
    }
  }

  /** The repeat list holds every occurrence of a non-empty name after its first, and nothing else. */
  lemma {:induction false} RepeatsCount(releases: seq<ReleaseData>, x: string)
    ensures x == "" ==> multiset(Repeats(releases))[x] == 0
    ensures x != "" ==> multiset(Repeats(releases))[x] == if NameCount(releases, x) == 0 then 0 else NameCount(releases, x) - 1
  {
    if releases != [] {
      var n := |releases| - 1;
      var init := releases[..n];
      RepeatsCount(init, x);
      FirstIdsKeys(init, x);
      NameCountPositive(init, x);
    }
  }

  /** The verdict over a snapshot: Passed exactly when every release has a non-empty name and no two share one. */
  lemma NamesPassIff(releases: seq<ReleaseData>)
    ensures NamesOutcome(releases).result == Passed <==>
            (forall k :: 0 <= k < |releases| ==> releases[k].name != "") && NamesDistinct(releases)
    ensures NamesOutcome(releases).result == Passed ==> NamesOutcome(releases).message == UniqueNamesMessage
    ensures NamesOutcome(releases).result in {Passed, Failed}
  {
    NoNameCountZero(releases);
    RepeatsEmptyIff(releases);
  }

  /** A failing message opens with the count of nameless releases, and names the repeats when there are any. */
  lemma NamesFailMessage(releases: seq<ReleaseData>)
    requires NamesOutcome(releases).result == Failed
    ensures var m := NamesOutcome(releases).message;
      HasPrefix(m, NoNamePart(NoNameCount(releases))) &&
      (Repeats(releases) == [] ==> m == NoNamePart(NoNameCount(releases))) &&
      (Repeats(releases) != [] ==> m == NoNamePart(NoNameCount(releases)) + ". " + SameNamePart(Repeats(releases)))
  {
    var m := NamesOutcome(releases).message;
    var p := NoNamePart(NoNameCount(releases));
    if Repeats(releases) != [] {
      var q := SameNamePart(Repeats(releases));
      assert [p] + [q] == [p, q];
      JoinTwo(p, q, ". ");
    } else {
      assert [p] + [] == [p];
    }
    assert m[..|p|] == p;
  }

  // ---------------------------------------------------------------------------
  // The HTTPS scheme allow-list
  // ---------------------------------------------------------------------------

  /** The prefixes a link may start with to count as secure. */
  const SecurePrefixes: seq<string> := ["https://", "ssh:", "git:", "git@"]

  /**
   * insecureURI: a link is insecure unless its scheme is on the allow-list. A
   * secure link is at least four characters long and starts with `h`, `s` or
   * `g`; in particular the empty link is insecure.
   */
  function InsecureURI(uri: string): (r: bool)
    ensures !r ==> |uri| >= 4 && uri[0] in "hsg"
    ensures uri == "" ==> r
  {
    !(HasPrefix(uri, "https://") || HasPrefix(uri, "ssh:") || HasPrefix(uri, "git:") || HasPrefix(uri, "git@"))
  }

  /** A link is secure exactly when it starts with one of the allowed prefixes. */
  lemma InsecureURIAllowList(uri: string)
    ensures !InsecureURI(uri) <==> exists k :: 0 <= k < |SecurePrefixes| && HasPrefix(uri, SecurePrefixes[k])
  {
    assert SecurePrefixes[0] == "https://" && SecurePrefixes[1] == "ssh:";
    assert SecurePrefixes[2] == "git:" && SecurePrefixes[3] == "git@";
  }

  /** Plain HTTP links are insecure, whatever follows the scheme. */
  lemma HttpIsInsecure(rest: string)
    ensures InsecureURI("http://" + rest)
  {
    var u := "http://" + rest;
    assert u[4] == ':';
    assert u[0] == 'h';
  }

  /** HTTPS links are secure, whatever follows the scheme. */
  lemma HttpsIsSecure(rest: string)
    ensures !InsecureURI("https://" + rest)
  {
    assert ("https://" + rest)[..8] == "https://";
  }

  /** The scheme is matched case-sensitively: an upper-case HTTPS scheme counts as insecure. */
  lemma UpperCaseSchemeIsInsecure(rest: string)
    ensures InsecureURI("HTTPS://" + rest)
  {
    var u := "HTTPS://" + rest;
    assert u[0] == 'H';
  }

  /** The insecure links among `uris`, in order. */
  function InsecureOf(uris: seq<string>): seq<string> {
    if uris == [] then []
    else InsecureOf(uris[..|uris| - 1]) + (if InsecureURI(uris[|uris| - 1]) then [uris[|uris| - 1]] else [])
  }

  /** A link is reported exactly when it is one of the links and is insecure. */
  lemma {:induction false} InsecureOfMembers(uris: seq<string>, u: string)
    ensures u in InsecureOf(uris) <==> u in uris && InsecureURI(u)
  {
    if uris != [] {
      InsecureOfMembers(uris[..|uris| - 1], u);
      assert uris == uris[..|uris| - 1] + [uris[|uris| - 1]];
    }
  }

  /** Nothing is reported exactly when every link is secure. */
  lemma InsecureOfEmpty(uris: seq<string>)
    ensures InsecureOf(uris) == [] <==> forall k :: 0 <= k < |uris| ==> !InsecureURI(uris[k])
  {
    if InsecureOf(uris) != [] {
      InsecureOfMembers(uris, InsecureOf(uris)[0]);
    }
    if exists k :: 0 <= k < |uris| && InsecureURI(uris[k]) {
      var k :| 0 <= k < |uris| && InsecureURI(uris[k]);
      InsecureOfMembers(uris, uris[k]);
    }
  }

  /** The insecure links of a concatenation are those of each part, in order. */
  lemma {:induction false} InsecureOfAppend(a: seq<string>, b: seq<string>)
    ensures InsecureOf(a + b) == InsecureOf(a) + InsecureOf(b)
    decreases |b|
  {
    if b == [] {
      assert a + b == a;
    } else {
      var b' := b[..|b| - 1];
      assert (a + b)[..|a + b| - 1] == a + b';
      InsecureOfAppend(a, b');
    }
  }

  const AllLinksMessage := "All links use HTTPS"

  function LinksOutcome(links: seq<string>): Outcome {
    var bad := InsecureOf(links);
    if |bad| > 0 then Outcome(Failed, "The following links do not use HTTPS: " + Join(bad, ", "))
    else Outcome(Passed, AllLinksMessage)
  }

  /** `getLinks` collects the links of the Security Insights manifest and the organization's blog URL. */
  function InsightsLinksOutcome(payload: AssessmentPayload, getLinks: Snapshot -> seq<string>): Outcome {
    var (snapshot, message) := VerifyPayload(payload);
    if message != "" then Outcome(Unknown, message) else LinksOutcome(getLinks(snapshot))
  }

  method EnsureInsightsLinksUseHTTPS(payload: AssessmentPayload, getLinks: Snapshot -> seq<string>)
    returns (result: Layer4.Result, message: string)
    ensures Outcome(result, message) == InsightsLinksOutcome(payload, getLinks)
  {
    var (data, msg) := VerifyPayload(payload);
    if msg != "" {
      return Unknown, msg;
    }
    var links := getLinks(data);
    var badURIs: seq<string> := [];
    for i := 0 to |links|
      invariant badURIs == InsecureOf(links[..i])
    {
      assert links[..i + 1][..i] == links[..i];
      if InsecureURI(links[i]) {
        badURIs := badURIs + [links[i]];
      }
    }
    assert links[..|links|] == links;
    if |badURIs| > 0 {
      return Failed, "The following links do not use HTTPS: " + Join(badURIs, ", ");
    }
    return Passed, AllLinksMessage;
  }

  /** The links control passes exactly when every link is secure, and otherwise fails. */
  lemma LinksPassIff(links: seq<string>)
    ensures LinksOutcome(links).result == Passed <==> forall k :: 0 <= k < |links| ==> !InsecureURI(links[k])
    ensures LinksOutcome(links).result in {Passed, Failed}
  {
    InsecureOfEmpty(links);
  }

  // ---------------------------------------------------------------------------
  // Distribution points
  // ---------------------------------------------------------------------------

  const NoPointsMessage := "No official distribution points found in Security Insights data"
  const AllPointsMessage := "All distribution points use HTTPS"

  function PointUris(points: seq<DistributionPoint>): (uris: seq<string>)
    ensures |uris| == |points| && forall k :: 0 <= k < |points| ==> uris[k] == points[k].uri
  {
    seq(|points|, k requires 0 <= k < |points| => points[k].uri)
  }

  function PointsOutcome(details: Option<ReleaseDetails>): Outcome {
    if details.None? || |details.value.distributionPoints| == 0 then Outcome(NotApplicable, NoPointsMessage)
    else
      var bad := InsecureOf(PointUris(details.value.distributionPoints));
      if |bad| > 0 then Outcome(Failed, "The following distribution points do not use HTTPS: " + Join(bad, ", "))
      else Outcome(Passed, AllPointsMessage)
  }

  /** The repository section must be present: the control reads its release details unguarded. */
  function DistributionPointsOutcome(payload: AssessmentPayload): Outcome
    requires HasRepository(payload)
  {
    var (snapshot, message) := VerifyPayload(payload);
    if message != "" then Outcome(Unknown, message)
    else PointsOutcome(snapshot.insights.repository.value.releaseDetails)
  }

  method DistributionPointsUseHTTPS(payload: AssessmentPayload) returns (result: Layer4.Result, message: string)
    requires HasRepository(payload)
    ensures Outcome(result, message) == DistributionPointsOutcome(payload)
  {
    var (data, msg) := VerifyPayload(payload);
    if msg != "" {
      return Unknown, msg;
    }
    var details := data.insights.repository.value.releaseDetails;
    if details.None? || |details.value.distributionPoints| == 0 {
      return NotApplicable, NoPointsMessage;
    }
    var points := details.value.distributionPoints;
    var badURIs: seq<string> := [];
    for i := 0 to |points|
      invariant badURIs == InsecureOf(PointUris(points[..i]))
    {
      assert PointUris(points[..i + 1])[..i] == PointUris(points[..i]);
      if InsecureURI(points[i].uri) {
        badURIs := badURIs + [points[i].uri];
      }
    }
    assert points[..|points|] == points;
    if |badURIs| > 0 {
      return Failed, "The following distribution points do not use HTTPS: " + Join(badURIs, ", ");
    }
    return Passed, AllPointsMessage;
  }

  /**
   * Without points the control does not apply; with points it passes exactly when every
   * point's URI is secure and otherwise lists the insecure ones.
   */
  lemma PointsCases(details: Option<ReleaseDetails>)
    ensures PointsOutcome(details).result == NotApplicable <==> details.None? || details.value.distributionPoints == []
    ensures details.Some? && details.value.distributionPoints != [] ==>
              (PointsOutcome(details).result == Passed <==>
               forall k :: 0 <= k < |details.value.distributionPoints| ==> !InsecureURI(details.value.distributionPoints[k].uri))
  {
    if details.Some? {
      InsecureOfEmpty(PointUris(details.value.distributionPoints));
    }
  }

  /** Links and distribution points are judged by the same allow-list. */
  lemma SharedClassification(points: seq<DistributionPoint>)
    requires points != []
    ensures PointsOutcome(Some(ReleaseDetails([], points))).result == Passed <==> LinksOutcome(PointUris(points)).result == Passed
  {
    PointsCases(Some(ReleaseDetails([], points)));
    LinksPassIff(PointUris(points));
  }

  // ---------------------------------------------------------------------------
  // Changelog and SLSA attestation
  // ---------------------------------------------------------------------------

  const ChangelogFound := "Mention of a changelog found in the latest release"
  const ChangelogMissing := "The latest release does not have mention of a changelog: \n"

  function ChangelogOutcome(description: string): (o: Outcome)
    ensures o.result == Passed <==> exists i :: OccursAt(description, "Change Log", i) || OccursAt(description, "Changelog", i)
    ensures o.result == Passed ==> o.message == ChangelogFound
    ensures o.result != Passed ==> o == Outcome(Failed, ChangelogMissing + description)
  {
    if Contains(description, "Change Log") || Contains(description, "Changelog") then Outcome(Passed, ChangelogFound)
    else Outcome(Failed, ChangelogMissing + description)
  }

  function LatestReleaseChangelogOutcome(payload: AssessmentPayload): (o: Outcome)
    ensures payload.OtherValue? ==> o == Outcome(Unknown, VerifyPayload(payload).1)
    ensures payload.PayloadValue? ==> o == ChangelogOutcome(payload.snapshot.latestReleaseDescription)
  {
    var (snapshot, message) := VerifyPayload(payload);
    if message != "" then Outcome(Unknown, message) else ChangelogOutcome(snapshot.latestReleaseDescription)
  }

  /** A mention anywhere in the description counts, with text on either side. */
  lemma ChangelogAnywhere(before: string, after: string)
    ensures ChangelogOutcome(before + "Changelog" + after).result == Passed
  {
    var d := before + "Changelog" + after;
    assert d[|before|..|before| + 9] == "Changelog";
    assert OccursAt(d, "Changelog", |before|);
  }

  const SlsaPredicate := "https://slsa.dev/provenance/v1"

  function HasSlsa(attestations: seq<Attestation>): (b: bool)
    ensures b <==> exists k :: 0 <= k < |attestations| && attestations[k].predicateUri == SlsaPredicate
  {
    if attestations == [] then false
    else attestations[0].predicateUri == SlsaPredicate || HasSlsa(attestations[1..])
  }

  /** The repository section and its release details must be present: the control reads them unguarded. */
  function SlsaOutcome(payload: AssessmentPayload): (o: Outcome)
    requires HasRepository(payload)
    requires payload.PayloadValue? ==> payload.snapshot.insights.repository.value.releaseDetails.Some?
    ensures payload.OtherValue? ==> o == Outcome(Unknown, VerifyPayload(payload).1)
    ensures payload.PayloadValue? ==>
              var a := payload.snapshot.insights.repository.value.releaseDetails.value.attestations;
              o == if HasSlsa(a) then Outcome(Passed, "Found SLSA attestation in security insights")
                   else Outcome(Failed, "No SLSA attestation found in security insights")
  {
    var (snapshot, message) := VerifyPayload(payload);
    if message != "" then Outcome(Unknown, message)
    else if HasSlsa(snapshot.insights.repository.value.releaseDetails.value.attestations) then
      Outcome(Passed, "Found SLSA attestation in security insights")
    else Outcome(Failed, "No SLSA attestation found in security insights")
  }

  /** The predicate URI must match exactly: another version of the provenance predicate does not count. */
  lemma SlsaVersionMustMatch()
    ensures !HasSlsa([Attestation("https://slsa.dev/provenance/v0.2")])
    ensures HasSlsa([Attestation("https://example.com/other"), Attestation(SlsaPredicate)])
  {
    var a := [Attestation("https://example.com/other"), Attestation(SlsaPredicate)];
    assert a[1].predicateUri == SlsaPredicate;
    assert "https://slsa.dev/provenance/v0.2"[29] != SlsaPredicate[29];
  }
}
