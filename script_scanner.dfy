/**
 * The tokenizer of the CI scanner: the expressions a run script interpolates
 * with `${{ ... }}`. Scanning finds the first opener, then the first closer at
 * or after it, emits the trimmed text strictly between the two and resumes at
 * that closer; an opener with no closer makes the whole result absent (nil).
 */
module ScriptScanner {
  import opened Wrappers
  import opened Text

  const Opener := "${{"
  const Closer := "}}"

  /** The first closer at or after an opener lies past the opener's three characters. */
  lemma CloserAfterOpener(s: string, start: int, len: int)
    requires OccursAt(s, Opener, start) && OccursAt(s[start..], Closer, len)
    ensures len >= 3
  {
    assert s[start..][0] == '$' && s[start..][1] == '{' && s[start..][2] == '{';
    assert s[start..][len] == '}' && s[start..][len + 1] == '}';
  }

  /** The interpolated expressions of `script`, or None when an opener is left unclosed. */
  function ScriptVariables(script: string): Option<seq<string>>
    decreases |script|
  {
    var start := Index(script, Opener);
    if start < 0 then Some([])
    else
      var len := Index(script[start..], Closer);
      if len < 0 then None
      else
        CloserAfterOpener(script, start, len);
        match ScriptVariables(script[start + len..])
        case None => None
        case Some(rest) => Some([TrimSpace(script[start + 3..start + len])] + rest)
  }

  function Prepend(xs: seq<string>, r: Option<seq<string>>): Option<seq<string>> {
    match r
    case None => None
    case Some(ys) => Some(xs + ys)
  }

  /** pullVariablesFromScript */
  method PullVariablesFromScript(script: string) returns (r: Option<seq<string>>)
    ensures r == ScriptVariables(script)
  {
    var rest := script;
    var varlist: seq<string> := [];
    PrependEmpty(ScriptVariables(script));
    while true
      invariant ScriptVariables(script) == Prepend(varlist, ScriptVariables(rest))
      decreases |rest|
    {
      var start := Index(rest, Opener);
      if start == -1 {
        ScanStops(rest);
        break;
      }
      var len := Index(rest[start..], Closer);
      if len == -1 {
        ScanStops(rest);
        return None;
      }
      ScanStep(rest, start, len);
      PrependPrepend(varlist, [TrimSpace(rest[start + 3..start + len])], ScriptVariables(rest[start + len..]));
      varlist := varlist + [TrimSpace(rest[start + 3..start + len])];
      rest := rest[start + len..];
    }
    assert varlist + [] == varlist;
    return Some(varlist);
  }

  lemma PrependEmpty(r: Option<seq<string>>)
    ensures Prepend([], r) == r
  {
    if r.Some? {
      assert [] + r.value == r.value;
    }
  }

  lemma PrependPrepend(xs: seq<string>, ys: seq<string>, r: Option<seq<string>>)
    ensures Prepend(xs, Prepend(ys, r)) == Prepend(xs + ys, r)
  {
    if r.Some? {
      assert xs + (ys + r.value) == (xs + ys) + r.value;
    }
  }

  /** The scan ends with no expressions when there is no opener, and with nil when the first opener is unclosed. */
  lemma ScanStops(s: string)
    ensures Index(s, Opener) < 0 ==> ScriptVariables(s) == Some([])
    ensures Index(s, Opener) >= 0 && Index(s[Index(s, Opener)..], Closer) < 0 ==> ScriptVariables(s) == None
  {
  }

  /** One step of the scan, when it finds an opener and then a closer. */
  lemma ScanStep(s: string, start: int, len: int)
    requires start == Index(s, Opener) && start >= 0
    requires len == Index(s[start..], Closer) && len >= 0
    ensures 3 <= len && start + len <= |s|
    ensures ScriptVariables(s) == Prepend([TrimSpace(s[start + 3..start + len])], ScriptVariables(s[start + len..]))
  {
    CloserAfterOpener(s, start, len);
    UnfoldScan(s, start, len);
  }

  lemma UnfoldScan(s: string, start: int, len: int)
    requires start == Index(s, Opener) && start >= 0
    requires len == Index(s[start..], Closer) && len >= 3
    ensures ScriptVariables(s) == Prepend([TrimSpace(s[start + 3..start + len])], ScriptVariables(s[start + len..]))
  {
  }

  /** A script with no opener has no expressions, and only such a script has none. */
  lemma NoOpenerNoVariables(s: string)
    ensures ScriptVariables(s) == Some([]) <==> !Contains(s, Opener)
  {
  }

  /** Some opener of `s` has no closer at or after it. */
  ghost predicate Unclosed(s: string) {
    exists i :: OccursAt(s, Opener, i) && forall j :: i <= j ==> !OccursAt(s, Closer, j)
  }

  /** Resuming at the first closer after the first opener keeps exactly the unclosed openers. */
  lemma UnclosedAfterCloser(s: string, start: int, p: int)
    requires start == Index(s, Opener) && 0 <= start <= p && OccursAt(s, Closer, p)
    ensures Unclosed(s) <==> Unclosed(s[p..])
  {
    var rest := s[p..];
    if Unclosed(s) {
      var i :| OccursAt(s, Opener, i) && forall j :: i <= j ==> !OccursAt(s, Closer, j);
      assert p < i;
      OccursInTail(s, p, Opener, i - p);
      forall j | i - p <= j ensures !OccursAt(rest, Closer, j) {
        OccursInTail(s, p, Closer, j);
      }
      assert OccursAt(rest, Opener, i - p);
    }
    if Unclosed(rest) {
      var i :| OccursAt(rest, Opener, i) && forall j :: i <= j ==> !OccursAt(rest, Closer, j);
      OccursInTail(s, p, Opener, i);
      forall j | p + i <= j ensures !OccursAt(s, Closer, j) {
        OccursInTail(s, p, Closer, j - p);
      }
      assert OccursAt(s, Opener, p + i);
    }
  }

  /** The scan gives no result (nil) exactly when some opener has no closer after it. */
  lemma {:induction false} MalformedIffUnclosed(s: string)
    ensures ScriptVariables(s) == None <==> Unclosed(s)
    decreases |s|
  {
    var start := Index(s, Opener);
    if start >= 0 {
      var len := Index(s[start..], Closer);
      if len < 0 {
        forall j | start <= j ensures !OccursAt(s, Closer, j) {
          OccursInTail(s, start, Closer, j - start);
        }
        assert Unclosed(s);
      } else {
        CloserAfterOpener(s, start, len);
        OccursInTail(s, start, Closer, len);
        MalformedIffUnclosed(s[start + len..]);
        UnclosedAfterCloser(s, start, start + len);
      }
    }
  }

  /** A scan that starts at a closer sees the same expressions as one past it. */
  lemma SkipCloser(x: string)
    ensures ScriptVariables(Closer + x) == ScriptVariables(x)
  {
    var s := Closer + x;
    assert s[0] == '}' && s[1] == '}';
    IndexAfterPrefix(Closer, x, Opener);
    var start := Index(x, Opener);
    if start < 0 {
      ScanStops(x);
      ScanStops(s);
    } else {
      assert Index(s, Opener) == 2 + start;
      assert s[2 + start..] == x[start..];
      var len := Index(x[start..], Closer);
      if len < 0 {
        ScanStops(x);
        ScanStops(s);
      } else {
        ScanStep(x, start, len);
        ScanStep(s, 2 + start, len);
        assert s[2 + start + 3..2 + start + len] == x[start + 3..start + len];
        assert s[2 + start + len..] == x[start + len..];
      }
    }
  }

  /** A piece of a script: plain text, then one interpolation of `body`. */
  datatype Interpolation = Interpolation(text: string, body: string)

  /**
   * The piece scans as written: its text has no opener, and its body is not
   * cut short by a closer (the body followed by the closer's first brace has
   * no closer in it).
   */
  predicate WellFormed(x: Interpolation) {
    !Contains(x.text, Opener) && !Contains(x.body + "}", Closer)
  }

  /** The script made of the pieces `xs`, each closed by `}}`, followed by `tail`. */
  function Render(xs: seq<Interpolation>, tail: string): string {
    if xs == [] then tail else xs[0].text + Opener + xs[0].body + Closer + Render(xs[1..], tail)
  }

  /** The trimmed bodies of the pieces, in order. */
  function Expressions(xs: seq<Interpolation>): seq<string> {
    if xs == [] then [] else [TrimSpace(xs[0].body)] + Expressions(xs[1..])
  }

  /** The first opener of `t + Opener + more` is the one after `t`, when `t` has none. */
  lemma OpenerAfterText(t: string, more: string)
    requires !Contains(t, Opener)
    ensures Index(t + (Opener + more), Opener) == |t|
  {
    var s := t + (Opener + more);
    assert s[|t|..|t| + 3] == Opener;
    forall i | 0 <= i < |t| ensures !OccursAt(s, Opener, i) {
      if i + 3 <= |t| {
        OccursInPrefix(t, Opener + more, Opener, i);
      } else {
        assert Opener[1] == '{' && Opener[2] == '{';
        assert s[i..i + 3][|t| - i] == s[|t|] == '$';
      }
    }
    IndexUnique(s, Opener, |t|);
  }

  /** The first closer of `Opener + b + Closer + rest` is the one after `b`. */
  lemma CloserAfterBody(b: string, rest: string)
    requires !Contains(b + "}", Closer)
    ensures Index(Opener + b + (Closer + rest), Closer) == 3 + |b|
  {
    var s := Opener + b + (Closer + rest);
    var u := b + "}";
    assert s == (Opener + u) + ("}" + rest);
    assert s[3 + |b|..3 + |b| + 2] == Closer;
    forall i | 0 <= i < 3 + |b| ensures !OccursAt(s, Closer, i) {
      OccursInPrefix(Opener + u, "}" + rest, Closer, i);
      if 3 <= i {
        OccursInSuffix(Opener, u, Closer, i - 3);
      } else {
        assert s[i..i + 2][0] == s[i] == Opener[i];
      }
    }
    IndexUnique(s, Closer, 3 + |b|);
  }

  /** Round trip: a script built from well-formed pieces scans to the pieces' trimmed bodies. */
  lemma {:induction false} ScanRendered(xs: seq<Interpolation>, tail: string)
    requires forall k :: 0 <= k < |xs| ==> WellFormed(xs[k])
    requires !Contains(tail, Opener)
    ensures ScriptVariables(Render(xs, tail)) == Some(Expressions(xs))
  {
    if xs != [] {
      var x := xs[0];
      var rest := Render(xs[1..], tail);
      ScanRendered(xs[1..], tail);
      var s := Render(xs, tail);
      assert s == x.text + (Opener + (x.body + Closer + rest));
      OpenerAfterText(x.text, x.body + Closer + rest);
      var start := |x.text|;
      assert s[start..] == Opener + x.body + (Closer + rest);
      CloserAfterBody(x.body, rest);
      var len := 3 + |x.body|;
      ScanStep(s, start, len);
      assert s[start + 3..start + len] == x.body;
      assert s[start + len..] == Closer + rest;
      SkipCloser(rest);
    }
  }

  /** The text before the first opener and the body up to the first closer after it form a well-formed piece. */
  lemma FirstPieceWellFormed(s: string, start: int, len: int)
    requires start == Index(s, Opener) && start >= 0
    requires len == Index(s[start..], Closer) && len >= 3
    ensures WellFormed(Interpolation(s[..start], s[start + 3..start + len]))
  {
    var x := Interpolation(s[..start], s[start + 3..start + len]);
    assert s[..start] + s[start..] == s;
    forall i | 0 <= i ensures !OccursAt(x.text, Opener, i) {
      if i + 3 <= start {
        OccursInPrefix(s[..start], s[start..], Opener, i);
      }
    }
    var t := s[start..];
    var w := t[..len + 1];
    assert t[len..len + 2] == Closer;
    assert t[len] == t[len..len + 2][0];
    assert x.body == t[3..len];
    assert w[3..] == t[3..len] + [t[len]];
    forall q | 0 <= q ensures !OccursAt(x.body + "}", Closer, q) {
      OccursInTail(w, 3, Closer, q);
      if q + 2 <= len - 2 {
        OccursInPrefix(w, t[len + 1..], Closer, 3 + q);
        assert w + t[len + 1..] == t;
      }
    }
  }

  /** A script whose first opener is closed splits into the text before it, its body and the rest. */
  lemma SplitAtFirstPiece(s: string, start: int, len: int)
    requires start == Index(s, Opener) && start >= 0
    requires len == Index(s[start..], Closer) && len >= 3
    ensures start + len + 2 <= |s|
    ensures s == s[..start] + Opener + s[start + 3..start + len] + Closer + s[start + len + 2..]
  {
    OccursInTail(s, start, Closer, len);
    assert s[start..start + 3] == Opener;
  }

  /** After the first piece, the scan goes on past its closer. */
  lemma ScanAfterPiece(s: string, start: int, len: int)
    requires start == Index(s, Opener) && start >= 0
    requires len == Index(s[start..], Closer) && len >= 3
    ensures start + len + 2 <= |s|
    ensures ScriptVariables(s) == Prepend([TrimSpace(s[start + 3..start + len])], ScriptVariables(s[start + len + 2..]))
  {
    ScanStep(s, start, len);
    OccursInTail(s, start, Closer, len);
    var r := s[start + len..];
    assert r == Closer + r[2..];
    SkipCloser(r[2..]);
    assert r[2..] == s[start + len + 2..];
  }

  /** `s` is the script rendered from the well-formed pieces `xs` and the opener-free `tail`, and `vars` are their bodies. */
  ghost predicate Decomposition(xs: seq<Interpolation>, tail: string, s: string, vars: seq<string>) {
    (forall k :: 0 <= k < |xs| ==> WellFormed(xs[k])) && !Contains(tail, Opener) &&
    Render(xs, tail) == s && Expressions(xs) == vars
  }

  lemma DecompositionCons(x: Interpolation, xs: seq<Interpolation>, tail: string, after: string, vars: seq<string>)
    requires WellFormed(x) && Decomposition(xs, tail, after, vars)
    ensures Decomposition([x] + xs, tail, x.text + Opener + x.body + Closer + after, [TrimSpace(x.body)] + vars)
  {
    var ys := [x] + xs;
    assert ys[1..] == xs;
    assert forall k :: 1 <= k < |ys| ==> ys[k] == xs[k - 1];
  }

  /** Every scan that succeeds reads a script built from well-formed pieces, and yields their bodies. */
  lemma {:induction false} ScanDecomposes(s: string)
    requires ScriptVariables(s).Some?
    ensures exists xs: seq<Interpolation>, tail: string :: Decomposition(xs, tail, s, ScriptVariables(s).value)
    decreases |s|
  {
    ScanStops(s);
    var start := Index(s, Opener);
    if start < 0 {
      assert Decomposition([], s, s, []);
    } else {
      var len := Index(s[start..], Closer);
      CloserAfterOpener(s, start, len);
      SplitAtFirstPiece(s, start, len);
      ScanAfterPiece(s, start, len);
      var after := s[start + len + 2..];
      ScanDecomposes(after);
      var xs, tail :| Decomposition(xs, tail, after, ScriptVariables(after).value);
      FirstPieceWellFormed(s, start, len);
      var x := Interpolation(s[..start], s[start + 3..start + len]);
      DecompositionCons(x, xs, tail, after, ScriptVariables(after).value);
      assert Decomposition([x] + xs, tail, s, ScriptVariables(s).value);
    }
  }

  /** The scan yields `vars` exactly when the script decomposes into well-formed pieces whose bodies are `vars`. */
  lemma ScanIffDecomposition(s: string, vars: seq<string>)
    ensures ScriptVariables(s) == Some(vars) <==> exists xs, tail :: Decomposition(xs, tail, s, vars)
  {
    if ScriptVariables(s) == Some(vars) {
      ScanDecomposes(s);
    }
    if xs, tail :| Decomposition(xs, tail, s, vars) {
      ScanRendered(xs, tail);
    }
  }

  /** A script that ends in an opener scans to nil, whatever expressions come before it. */
  lemma TrailingOpener(pre: string)
    ensures ScriptVariables(pre + Opener) == None
  {
    var s := pre + Opener;
    assert s[|pre|..] == Opener;
    forall j | |pre| <= j ensures !OccursAt(s, Closer, j) {
      if j + 2 <= |s| {
        assert s[j..j + 2][0] == s[j] == Opener[j - |pre|];
      }
    }
    assert OccursAt(s, Opener, |pre|);
    MalformedIffUnclosed(s);
  }

  /** Appending one closing brace to a text with none cannot produce a closer. */
  lemma ClosingBraceOnlyAtEnd(v: string)
    requires '}' !in v
    ensures !Contains(v + "}", Closer)
  {
    var u := v + "}";
    forall i | 0 <= i ensures !OccursAt(u, Closer, i) {
      if i + 2 <= |u| {
        assert u[i..i + 2][0] == u[i] == v[i];
      }
    }
  }

  lemma SinglePiece(x: Interpolation, post: string)
    requires WellFormed(x) && !Contains(post, Opener)
    ensures ScriptVariables(Render([x], post)) == Some([TrimSpace(x.body)])
  {
    var xs := [x];
    assert xs[1..] == [];
    assert Expressions(xs) == [TrimSpace(x.body)];
    assert forall k :: 0 <= k < |xs| ==> xs[k] == x;
    ScanRendered(xs, post);
  }

  lemma SinglePieceText(pre: string, body: string, post: string)
    ensures Render([Interpolation(pre, " " + body + " ")], post) == pre + "${{ " + body + " }}" + post
  {
  }

  /** A script holding one `${{ body }}` expression, with no other opener around it, yields just `body`. */
  lemma SingleExpression(pre: string, body: string, post: string)
    requires '$' !in pre && '$' !in post && '}' !in body
    requires body != [] && !IsSpace(body[0]) && !IsSpace(body[|body| - 1])
    ensures ScriptVariables(pre + "${{ " + body + " }}" + post) == Some([body])
  {
    var x := Interpolation(pre, " " + body + " ");
    AbsentFirstChar(pre, Opener);
    AbsentFirstChar(post, Opener);
    ClosingBraceOnlyAtEnd(x.body);
    SinglePiece(x, post);
    TrimPadded(body);
    SinglePieceText(pre, body, post);
  }
}
