/**
 * The few string primitives of Go's `strings` and `fmt` packages that the
 * controls use, over `seq<char>`: `strings.Index`, `strings.Contains`,
 * `strings.HasPrefix`, `strings.TrimSpace`, `strings.Join` and the decimal
 * rendering of an integer by `%v`.
 */
module Text {

  /** `p` occurs in `s` starting at position `i`. */
  predicate OccursAt(s: string, p: string, i: int) {
    0 <= i && i + |p| <= |s| && s[i..i + |p|] == p
  }

  /** strings.HasPrefix: `s` starts with `p`, character by character. */
  predicate HasPrefix(s: string, p: string)
    ensures HasPrefix(s, p) <==> OccursAt(s, p, 0)
    ensures HasPrefix(s, p) <==> |p| <= |s| && forall i :: 0 <= i < |p| ==> s[i] == p[i]
  {
    |p| <= |s| && s[..|p|] == p
  }

  /** `r` is where `p` first occurs in `s`, or -1 when it does not occur. */
  predicate IsFirst(s: string, p: string, r: int) {
    if r < 0 then r == -1 && forall i :: 0 <= i <= |s| ==> !OccursAt(s, p, i)
    else OccursAt(s, p, r) && forall i :: 0 <= i < r ==> !OccursAt(s, p, i)
  }

  /**
   * strings.Index: the position of the first occurrence of `p` in `s`, or -1.
   * It is the one value that `IsFirst` admits; the left-to-right search
   * `IndexFrom` shows that such a value exists.
   */
  function Index(s: string, p: string): (r: int)
    ensures r >= 0 ==> OccursAt(s, p, r) && forall i :: 0 <= i < r ==> !OccursAt(s, p, i)
    ensures r < 0 ==> r == -1 && forall i :: !OccursAt(s, p, i)
  {
    assert -1 <= IndexFrom(s, p, 0) <= |s| && IsFirst(s, p, IndexFrom(s, p, 0));
    var r :| -1 <= r <= |s| && IsFirst(s, p, r);
    r
  }

  /** The first occurrence of `p` in `s` at or after `k`, given none before `k`, or -1. */
  function IndexFrom(s: string, p: string, k: nat): (r: int)
    requires k <= |s|
    requires forall i :: 0 <= i < k ==> !OccursAt(s, p, i)
    ensures r >= 0 ==> k <= r && OccursAt(s, p, r) && forall i :: 0 <= i < r ==> !OccursAt(s, p, i)
    ensures r < 0 ==> r == -1 && forall i :: !OccursAt(s, p, i)
    decreases |s| - k
  {
    if k + |p| > |s| then -1
    else if s[k..k + |p|] == p then k
    else IndexFrom(s, p, k + 1)
  }

  /** strings.Contains */
  function Contains(s: string, p: string): (b: bool)
    ensures b <==> exists i :: OccursAt(s, p, i)
  {
    Index(s, p) >= 0
  }

  /** A value that meets the characterisation of strings.Index is the one it returns. */
  lemma IndexUnique(s: string, p: string, r: int)
    requires r == -1 || OccursAt(s, p, r)
    requires forall i :: 0 <= i < r || (r == -1 && 0 <= i) ==> !OccursAt(s, p, i)
    ensures Index(s, p) == r
  {
  }

  /** Occurrences in the second part of a concatenation are occurrences shifted by the first. */
  lemma OccursInSuffix(a: string, b: string, p: string, i: int)
    requires 0 <= i
    ensures OccursAt(a + b, p, |a| + i) <==> OccursAt(b, p, i)
  {
    if i + |p| <= |b| {
      assert (a + b)[|a| + i..|a| + i + |p|] == b[i..i + |p|];
    }
  }

  /** Occurrences that lie inside the first part of a concatenation. */
  lemma OccursInPrefix(a: string, b: string, p: string, i: int)
    requires 0 <= i && i + |p| <= |a|
    ensures OccursAt(a + b, p, i) <==> OccursAt(a, p, i)
  {
    assert (a + b)[i..i + |p|] == a[i..i + |p|];
  }

  /** Occurrences in a suffix `s[k..]` are occurrences in `s` shifted by `k`. */
  lemma OccursInTail(s: string, k: int, p: string, j: int)
    requires 0 <= k <= |s| && 0 <= j
    ensures OccursAt(s[k..], p, j) <==> OccursAt(s, p, k + j)
  {
    assert s == s[..k] + s[k..];
    OccursInSuffix(s[..k], s[k..], p, j);
  }

  /** strings.Index on `a + b` when no occurrence starts inside `a`. */
  lemma IndexAfterPrefix(a: string, b: string, p: string)
    requires forall i :: 0 <= i < |a| ==> !OccursAt(a + b, p, i)
    ensures Index(a + b, p) == if Index(b, p) < 0 then -1 else |a| + Index(b, p)
  {
    var y := Index(b, p);
    forall i | 0 <= i
      ensures OccursAt(a + b, p, |a| + i) <==> OccursAt(b, p, i)
    {
      OccursInSuffix(a, b, p, i);
    }
    if y < 0 {
      forall i | 0 <= i ensures !OccursAt(a + b, p, i) {
        if i >= |a| { assert OccursAt(a + b, p, |a| + (i - |a|)) <==> OccursAt(b, p, i - |a|); }
      }
      IndexUnique(a + b, p, -1);
    } else {
      forall i | 0 <= i < |a| + y ensures !OccursAt(a + b, p, i) {
        if i >= |a| { assert OccursAt(a + b, p, |a| + (i - |a|)) <==> OccursAt(b, p, i - |a|); }
      }
      IndexUnique(a + b, p, |a| + y);
    }
  }

  /**
   * unicode.IsSpace, which strings.TrimSpace uses: the White_Space characters
   * of Unicode.
   */
  predicate IsSpace(c: char) {
    var n := c as int;
    (9 <= n <= 13) || n == 32 || n == 0x85 || n == 0xA0 || n == 0x1680 ||
    (0x2000 <= n <= 0x200A) || n == 0x2028 || n == 0x2029 || n == 0x202F ||
    n == 0x205F || n == 0x3000
  }

  /** Every character of `t` is white space. */
  ghost predicate AllSpace(t: string) {
    forall i :: 0 <= i < |t| ==> IsSpace(t[i])
  }

  /** Drops the leading white space. */
  function TrimLeft(s: string): string {
    if s != [] && IsSpace(s[0]) then TrimLeft(s[1..]) else s
  }

  /** Drops the trailing white space. */
  function TrimRight(s: string): string {
    if s != [] && IsSpace(s[|s| - 1]) then TrimRight(s[..|s| - 1]) else s
  }

  /** strings.TrimSpace */
  function TrimSpace(s: string): string {
    TrimRight(TrimLeft(s))
  }

  /** TrimLeft leaves the suffix that follows the leading white space and starts with a non-space. */
  lemma {:induction false} TrimLeftSpec(s: string)
    ensures var r := TrimLeft(s);
      |r| <= |s| && r == s[|s| - |r|..] && AllSpace(s[..|s| - |r|]) && (r != [] ==> !IsSpace(r[0]))
  {
    if s != [] && IsSpace(s[0]) {
      TrimLeftSpec(s[1..]);
      var r := TrimLeft(s[1..]);
      assert s[..|s| - |r|] == [s[0]] + s[1..][..|s| - 1 - |r|];
    }
  }

  /** TrimRight leaves the prefix that precedes the trailing white space and ends with a non-space. */
  lemma {:induction false} TrimRightSpec(s: string)
    ensures var r := TrimRight(s);
      |r| <= |s| && r == s[..|r|] && AllSpace(s[|r|..]) && (r != [] ==> !IsSpace(r[|r| - 1]))
  {
    if s != [] && IsSpace(s[|s| - 1]) {
      TrimRightSpec(s[..|s| - 1]);
      var r := TrimRight(s[..|s| - 1]);
      assert s[|r|..] == s[..|s| - 1][|r|..] + [s[|s| - 1]];
    }
  }

  /**
   * strings.TrimSpace returns the slice of `s` between its leading and its
   * trailing white space; the slice neither starts nor ends with white space.
   */
  lemma TrimSpaceSpec(s: string)
    ensures exists a, b ::
              0 <= a <= b <= |s| && TrimSpace(s) == s[a..b] && AllSpace(s[..a]) && AllSpace(s[b..])
    ensures var r := TrimSpace(s); r != [] ==> !IsSpace(r[0]) && !IsSpace(r[|r| - 1])
  {
    TrimLeftSpec(s);
    var l := TrimLeft(s);
    TrimRightSpec(l);
    var r := TrimRight(l);
    var a := |s| - |l|;
    var b := a + |r|;
    assert s[a..b] == r;
    assert s[b..] == l[|r|..];
  }

  /** strings.Join */
  function Join(xs: seq<string>, sep: string): string {
    if xs == [] then ""
    else if |xs| == 1 then xs[0]
    else xs[0] + sep + Join(xs[1..], sep)
  }

  /** A pattern whose first character never appears in `s` does not occur in it. */
  lemma AbsentFirstChar(s: string, p: string)
    requires |p| > 0 && p[0] !in s
    ensures !Contains(s, p)
  {
    forall i | 0 <= i ensures !OccursAt(s, p, i) {
    }
  }

  /** Trimming a text padded by one space on each side gives back the text, when its ends are not spaces. */
  lemma TrimPadded(b: string)
    requires b != [] && !IsSpace(b[0]) && !IsSpace(b[|b| - 1])
    ensures TrimSpace(" " + b + " ") == b
  {
    var s := " " + b + " ";
    assert IsSpace(' ');
    assert s[1..] == b + " ";
    assert (b + " ")[0] == b[0];
    assert TrimLeft(s) == b + " ";
    assert (b + " ")[..|b|] == b;
    assert TrimRight(b + " ") == TrimRight(b);
  }

  lemma JoinTwo(a: string, b: string, sep: string)
    ensures Join([a, b], sep) == a + sep + b
  {
    assert [a, b][1..] == [b];
  }

  function Digit(d: nat): char
    requires d < 10
  {
    "0123456789"[d]
  }

  /** The number a string of decimal digits spells, most significant digit first. */
  function DigitsValue(s: string): int {
    if s == [] then 0 else DigitsValue(s[..|s| - 1]) * 10 + (s[|s| - 1] as int - '0' as int)
  }

  /**
   * The decimal rendering of a non-negative integer, as `%v` prints it: digits
   * only, no leading zero, spelling `n`.
   */
  function NatToString(n: nat): (r: string)
    ensures |r| > 0
    ensures forall i :: 0 <= i < |r| ==> '0' <= r[i] <= '9'
    ensures r[0] == '0' ==> r == "0"
    ensures DigitsValue(r) == n
  {
    if n < 10 then [Digit(n)]
    else
      var s := NatToString(n / 10);
      assert (s + [Digit(n % 10)])[..|s|] == s;
      s + [Digit(n % 10)]
  }
}
