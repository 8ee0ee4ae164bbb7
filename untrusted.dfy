/**
 * The untrusted-context taxonomy of the CI scanner: the alternatives of the
 * unanchored pattern `.*(alt1|...|altN).*`. A token is untrusted when some
 * alternative matches a piece of it. Most alternatives are literal context
 * paths; four have an inner `.*` gap between a head and a tail, and since a
 * regular-expression `.` does not match a line break, the gap lies within one
 * line.
 */
module Untrusted {
  import opened Text

  datatype Alternative = Literal(path: string) | Gap(head: string, tail: string)

  /** The context every alternative reads from. */
  const Github := "github."

  /** The alternatives, in the order the pattern lists them. */
  const Taxonomy: seq<Alternative> := [
    Literal(Github + "event.issue.title"),
    Literal(Github + "event.issue.body"),
    Literal(Github + "event.pull_request.title"),
    Literal(Github + "event.pull_request.body"),
    Literal(Github + "event.comment.body"),
    Literal(Github + "event.review.body"),
    Gap(Github + "event.pages", ".page_name"),
    Gap(Github + "event.commits", ".message"),
    Literal(Github + "event.head_commit.message"),
    Literal(Github + "event.head_commit.author.email"),
    Literal(Github + "event.head_commit.author.name"),
    Gap(Github + "event.commits", ".author.email"),
    Gap(Github + "event.commits", ".author.name"),
    Literal(Github + "event.pull_request.head.ref"),
    Literal(Github + "event.pull_request.head.label"),
    Literal(Github + "event.pull_request.head.repo.default_branch"),
    Literal(Github + "head_ref")
  ]

  /** The regular-expression meaning of one alternative, matched anywhere in `tok`. */
  ghost predicate AlternativeMatches(a: Alternative, tok: string) {
    match a
    case Literal(path) => exists i :: OccursAt(tok, path, i)
    case Gap(head, tail) =>
      exists i, j :: OccursAt(tok, head, i) && OccursAt(tok, tail, j) &&
                     i + |head| <= j && '\n' !in tok[i + |head|..j]
  }

  /** The token matches the untrusted-context pattern. */
  ghost predicate IsUntrusted(tok: string) {
    exists k :: 0 <= k < |Taxonomy| && AlternativeMatches(Taxonomy[k], tok)
  }

  /** The text of `s` up to its first line break. */
  function FirstLine(s: string): (r: string)
    ensures |r| <= |s| && r == s[..|r|]
    ensures '\n' !in r
    ensures |r| < |s| ==> s[|r|] == '\n'
  {
    if s == [] || s[0] == '\n' then [] else [s[0]] + FirstLine(s[1..])
  }

  /** `tail` starts on the first line of `s` exactly when it occurs in that line. */
  lemma OnFirstLine(s: string, tail: string)
    requires '\n' !in tail
    ensures Contains(FirstLine(s), tail) <==> exists j :: OccursAt(s, tail, j) && '\n' !in s[..j]
  {
    var line := FirstLine(s);
    if Contains(line, tail) {
      var j :| OccursAt(line, tail, j);
      assert s[j..j + |tail|] == line[j..j + |tail|];
      assert s[..j] == line[..j];
      assert OccursAt(s, tail, j) && '\n' !in s[..j];
    }
    if exists j :: OccursAt(s, tail, j) && '\n' !in s[..j] {
      var j :| OccursAt(s, tail, j) && '\n' !in s[..j];
      LineBound(s, tail, j);
      assert line[j..j + |tail|] == s[j..j + |tail|];
      assert OccursAt(line, tail, j);
    }
  }

  /** An occurrence of `tail` that starts on the first line ends on it. */
  lemma LineBound(s: string, tail: string, j: int)
    requires '\n' !in tail && OccursAt(s, tail, j) && '\n' !in s[..j]
    ensures j + |tail| <= |FirstLine(s)|
  {
  }

  /** Some occurrence of `head` at or after `i` is followed, on its line, by `tail`. */
  function GapFrom(tok: string, head: string, tail: string, i: nat): (b: bool)
    requires '\n' !in tail
    ensures b <==> exists i', j :: i <= i' && OccursAt(tok, head, i') && OccursAt(tok, tail, j) &&
                                   i' + |head| <= j && '\n' !in tok[i' + |head|..j]
    decreases |tok| - i
  {
    if i + |head| > |tok| then false
    else
      var rest := tok[i + |head|..];
      var here := OccursAt(tok, head, i) && Contains(FirstLine(rest), tail);
      GapHere(tok, head, tail, i);
      here || GapFrom(tok, head, tail, i + 1)
  }

  /** The occurrence of `head` at `i` is followed, on its line, by `tail`. */
  lemma GapHere(tok: string, head: string, tail: string, i: nat)
    requires '\n' !in tail && i + |head| <= |tok|
    ensures (OccursAt(tok, head, i) && Contains(FirstLine(tok[i + |head|..]), tail)) <==>
            exists j :: OccursAt(tok, head, i) && OccursAt(tok, tail, j) && i + |head| <= j && '\n' !in tok[i + |head|..j]
  {
    var n := i + |head|;
    if OccursAt(tok, head, i) && Contains(FirstLine(tok[n..]), tail) {
      var j := LineOccurrence(tok, n, tail);
      assert OccursAt(tok, head, i) && OccursAt(tok, tail, j) && n <= j && '\n' !in tok[n..j];
    }
    if exists j :: OccursAt(tok, head, i) && OccursAt(tok, tail, j) && n <= j && '\n' !in tok[n..j] {
      var j :| OccursAt(tok, head, i) && OccursAt(tok, tail, j) && n <= j && '\n' !in tok[n..j];
      OccurrenceOnLine(tok, n, tail, j);
    }
  }

  /** An occurrence of `tail` in the first line after position `n`, as a position of `tok`. */
  lemma LineOccurrence(tok: string, n: nat, tail: string) returns (j: int)
    requires '\n' !in tail && n <= |tok| && Contains(FirstLine(tok[n..]), tail)
    ensures OccursAt(tok, tail, j) && n <= j && '\n' !in tok[n..j]
  {
    var rest := tok[n..];
    OnFirstLine(rest, tail);
    var k :| OccursAt(rest, tail, k) && '\n' !in rest[..k];
    ShiftedOccurrence(tok, n, tail, n + k);
    j := n + k;
  }

  /** An occurrence of `tail` after `n` with no line break before it lies in the first line after `n`. */
  lemma OccurrenceOnLine(tok: string, n: nat, tail: string, j: int)
    requires '\n' !in tail && n <= |tok| && OccursAt(tok, tail, j) && n <= j && '\n' !in tok[n..j]
    ensures Contains(FirstLine(tok[n..]), tail)
  {
    var rest := tok[n..];
    ShiftedOccurrence(tok, n, tail, j);
    assert OccursAt(rest, tail, j - n) && '\n' !in rest[..j - n];
    OnFirstLine(rest, tail);
  }

  /** An occurrence at `j` in `tok` is one at `j - n` in the text after position `n`, with the same gap before it. */
  lemma ShiftedOccurrence(tok: string, n: int, tail: string, j: int)
    requires 0 <= n <= j && n <= |tok|
    ensures OccursAt(tok, tail, j) && '\n' !in tok[n..j] <==> OccursAt(tok[n..], tail, j - n) && '\n' !in tok[n..][..j - n]
  {
    OccursInTail(tok, n, tail, j - n);
    if j <= |tok| {
      assert tok[n..j] == tok[n..][..j - n];
    }
  }

  /** The executable matcher for one alternative. */
  function MatchesAlternative(a: Alternative, tok: string): (b: bool)
    requires a.Gap? ==> '\n' !in a.tail
    ensures b <==> AlternativeMatches(a, tok)
  {
    match a
    case Literal(path) => Contains(tok, path)
    case Gap(head, tail) => GapFrom(tok, head, tail, 0)
  }

  lemma TaxonomyTailsOnOneLine()
    ensures forall k :: 0 <= k < |Taxonomy| && Taxonomy[k].Gap? ==> '\n' !in Taxonomy[k].tail
  {
  }

  /** The executable matcher for the whole pattern. */
  function MatchesUntrusted(tok: string): (b: bool)
    ensures b <==> IsUntrusted(tok)
  {
    TaxonomyTailsOnOneLine();
    exists k | 0 <= k < |Taxonomy| :: MatchesAlternative(Taxonomy[k], tok)
  }

  /** The context path an alternative starts with. */
  function Lead(a: Alternative): string {
    match a
    case Literal(path) => path
    case Gap(head, _) => head
  }

  /** Every alternative names a `github.` context, so it starts with the letter g. */
  lemma TaxonomyLeadsWithG()
    ensures forall k :: 0 <= k < |Taxonomy| ==> HasPrefix(Lead(Taxonomy[k]), Github)
    ensures forall k :: 0 <= k < |Taxonomy| ==> |Lead(Taxonomy[k])| > 0 && Lead(Taxonomy[k])[0] == 'g'
  {
    forall k | 0 <= k < |Taxonomy| ensures HasPrefix(Lead(Taxonomy[k]), Github) && Lead(Taxonomy[k])[0] == 'g' {
      assert Taxonomy[k] in Taxonomy;
      assert Github[0] == 'g';
    }
  }

  /** A token without the letter `g` names no untrusted context. */
  lemma WithoutGTrusted(tok: string)
    requires 'g' !in tok
    ensures !IsUntrusted(tok)
  {
    TaxonomyLeadsWithG();
    forall k | 0 <= k < |Taxonomy| ensures !AlternativeMatches(Taxonomy[k], tok) {
    }
  }
}
