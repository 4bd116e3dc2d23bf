/** Levenshtein distance by two rows, against edit scripts. */
module EditDistance {
  import opened Frames

  /** A word or a character; only equality matters. */
  type Token(==, !new)

  datatype Edit = Keep | Substitute(with: Token) | Delete | Insert(what: Token)

  /** What a script, read from the front, makes of a sequence; None if it does not fit it. */
  function Apply(script: seq<Edit>, s: seq<Token>): Option<seq<Token>>
  {
    if script == [] then
      if s == [] then Some([]) else None
    else
      match script[0]
      case Insert(t) => Prefixed(t, Apply(script[1..], s))
      case Keep => if s == [] then None else Prefixed(s[0], Apply(script[1..], s[1..]))
      case Substitute(t) => if s == [] then None else Prefixed(t, Apply(script[1..], s[1..]))
      case Delete => if s == [] then None else Apply(script[1..], s[1..])
  }

  function Prefixed(t: Token, rest: Option<seq<Token>>): Option<seq<Token>>
  {
    match rest
    case None => None
    case Some(r) => Some([t] + r)
  }

  /** Keeping a token is free; every other edit costs one. */
  function Cost(script: seq<Edit>): nat
  {
    if script == [] then 0 else (if script[0].Keep? then 0 else 1) + Cost(script[1..])
  }

  predicate Turns(script: seq<Edit>, s: seq<Token>, t: seq<Token>)
  {
    Apply(script, s) == Some(t)
  }

  function Min(a: nat, b: nat): nat { if a <= b then a else b }

  /** The distance between the first i tokens of s and the first j of t. */
  function Distance(s: seq<Token>, t: seq<Token>, i: nat, j: nat): nat
    requires i <= |s| && j <= |t|
  {
    if i == 0 then j
    else if j == 0 then i
    else
      Best(Distance(s, t, i - 1, j), Distance(s, t, i, j - 1), Distance(s, t, i - 1, j - 1), s[i - 1] != t[j - 1])
  }

  /** The cheapest way into a cell, from the cell above, the one to the left, and the one across. */
  function Best(above: nat, left: nat, across: nat, changed: bool): nat
  {
    Min(Min(above + 1, left + 1), across + if changed then 1 else 0)
  }

  method EditDistance(reference: seq<Token>, hypothesis: seq<Token>) returns (d: nat)
    ensures d == Distance(reference, hypothesis, |reference|, |hypothesis|)
  {
    var previous: seq<nat> := seq(|hypothesis| + 1, j => j);
    for i := 1 to |reference| + 1
      invariant IsRow(reference, hypothesis, i - 1, previous)
    {
      previous := NextRow(reference, hypothesis, i, previous);
    }
    return previous[|previous| - 1];
  }

  ghost predicate IsRow(s: seq<Token>, t: seq<Token>, i: nat, row: seq<nat>)
    requires i <= |s|
  {
    |row| == |t| + 1 && forall j {:trigger row[j]} :: 0 <= j <= |t| ==> row[j] == Distance(s, t, i, j)
  }

  method NextRow(reference: seq<Token>, hypothesis: seq<Token>, i: nat, previous: seq<nat>)
    returns (current: seq<nat>)
    requires 1 <= i <= |reference| && IsRow(reference, hypothesis, i - 1, previous)
    ensures IsRow(reference, hypothesis, i, current)
  {
    current := [i];
    for j := 1 to |hypothesis| + 1
      invariant |current| == j
      invariant forall k {:trigger current[k]} :: 0 <= k < j ==> current[k] == Distance(reference, hypothesis, i, k)
    {
      var cell := NextCell(reference, hypothesis, i, j, previous[j], current[j - 1], previous[j - 1]);
      current := current + [cell];
    }
  }

  method NextCell(
    reference: seq<Token>, hypothesis: seq<Token>, i: nat, j: nat, above: nat, left: nat, across: nat)
    returns (cell: nat)
    requires 1 <= i <= |reference| && 1 <= j <= |hypothesis|
    requires above == Distance(reference, hypothesis, i - 1, j) && left == Distance(reference, hypothesis, i, j - 1)
    requires across == Distance(reference, hypothesis, i - 1, j - 1)
    ensures cell == Distance(reference, hypothesis, i, j)
  {
    var changed := if reference[i - 1] != hypothesis[j - 1] then 1 else 0;
    return Min(Min(above + 1, left + 1), across + changed);
  }

  // ---- Scripts, taken apart at the end ----

  lemma {:induction false} ApplyConcat(a: seq<Edit>, s: seq<Token>, b: seq<Edit>, t: seq<Token>)
    requires Apply(a, s).Some? && Apply(b, t).Some?
    ensures Apply(a + b, s + t) == Some(Apply(a, s).value + Apply(b, t).value)
  {
    if a == [] {
      assert a + b == b && s + t == t;
      assert Apply(a, s).value + Apply(b, t).value == Apply(b, t).value;
    } else {
      assert (a + b)[1..] == a[1..] + b;
      var rest := if a[0].Insert? then s else s[1..];
      ApplyConcat(a[1..], rest, b, t);
      if !a[0].Insert? {
        assert (s + t)[1..] == rest + t;
      }
      if !a[0].Delete? {
        var x := Apply(a, s).value[0];
        assert [x] + (Apply(a[1..], rest).value + Apply(b, t).value) == Apply(a, s).value + Apply(b, t).value;
      }
    }
  }

  lemma {:induction false} CostConcat(a: seq<Edit>, b: seq<Edit>)
    ensures Cost(a + b) == Cost(a) + Cost(b)
  {
    if a == [] {
      assert a + b == b;
    } else {
      assert (a + b)[1..] == a[1..] + b;
      CostConcat(a[1..], b);
    }
  }

  /** The tokens the last edit reads and writes. */
  function Reads(e: Edit): nat { if e.Insert? then 0 else 1 }
  function Writes(e: Edit): nat { if e.Delete? then 0 else 1 }

  /** Without its last edit, a fitting script fits what that edit does not touch. */
  lemma {:induction false} ApplyFront(script: seq<Edit>, s: seq<Token>)
    requires script != [] && Apply(script, s).Some?
    ensures var e, t := script[|script| - 1], Apply(script, s).value;
            && Reads(e) <= |s| && Writes(e) <= |t|
            && Apply(script[..|script| - 1], s[..|s| - Reads(e)]) == Some(t[..|t| - Writes(e)])
            && (e.Keep? ==> s[|s| - 1] == t[|t| - 1])
  {
    var t := Apply(script, s).value;
    if |script| == 1 {
      assert script[1..] == [] && script[..0] == [];
    } else {
      var rest := if script[0].Insert? then s else s[1..];
      ApplyFront(script[1..], rest);
      var e := script[|script| - 1];
      assert script[1..][..|script| - 2] == script[..|script| - 1][1..];
      if !script[0].Insert? {
        assert s[1..][..|s| - 1 - Reads(e)] == s[..|s| - Reads(e)][1..];
      }
      var u := Apply(script[1..], rest).value;
      if !script[0].Delete? {
        assert t[..|t| - Writes(e)] == [t[0]] + u[..|u| - Writes(e)];
      }
    }
  }

  // ---- The distance is the least cost ----

  /** The last edit of a cheapest script. */
  lemma LastEdit(s: seq<Token>, t: seq<Token>, i: nat, j: nat) returns (e: Edit)
    requires i <= |s| && j <= |t| && (i > 0 || j > 0)
    ensures Reads(e) <= i && Writes(e) <= j
    ensures e.Keep? ==> s[i - 1] == t[j - 1]
    ensures e.Substitute? || e.Insert? ==> (if e.Insert? then e.what else e.with) == t[j - 1]
    ensures Distance(s, t, i, j) == Distance(s, t, i - Reads(e), j - Writes(e)) + if e.Keep? then 0 else 1
  {
    if i == 0 { return Insert(t[j - 1]); }
    if j == 0 { return Delete; }
    var d, across := Distance(s, t, i, j), Distance(s, t, i - 1, j - 1);
    if s[i - 1] == t[j - 1] && d == across { return Keep; }
    if d == across + 1 { return Substitute(t[j - 1]); }
    if d == Distance(s, t, i - 1, j) + 1 { return Delete; }
    return Insert(t[j - 1]);
  }

  lemma OneEditApplies(e: Edit, read: seq<Token>, written: seq<Token>)
    requires |read| == Reads(e) && |written| == Writes(e)
    requires e.Keep? ==> read == written
    requires e.Substitute? || e.Insert? ==> written == [if e.Insert? then e.what else e.with]
    ensures Apply([e], read) == Some(written)
  {
    var none: seq<Token> := [];
    assert Apply([], none) == Some(none);
    assert [e][1..] == [];
    if e.Insert? {
      assert read == none && [e.what] + none == written;
    } else {
      assert read[1..] == none;
      if e.Delete? {
        assert written == none;
      } else {
        assert [written[0]] + none == written;
      }
    }
  }

  /** Some script achieves the distance. */
  lemma {:induction false} BestScript(s: seq<Token>, t: seq<Token>, i: nat, j: nat) returns (script: seq<Edit>)
    requires i <= |s| && j <= |t|
    ensures Turns(script, s[..i], t[..j]) && Cost(script) == Distance(s, t, i, j)
    decreases i + j
  {
    script := [];
    if i > 0 || j > 0 {
      var e := LastEdit(s, t, i, j);
      var i', j' := i - Reads(e), j - Writes(e);
      var front := BestScript(s, t, i', j');
      script := front + [e];
      Extended(front, e, s, t, i, j);
    }
  }

  lemma Extended(front: seq<Edit>, e: Edit, s: seq<Token>, t: seq<Token>, i: nat, j: nat)
    requires Reads(e) <= i <= |s| && Writes(e) <= j <= |t|
    requires e.Keep? ==> s[i - 1] == t[j - 1]
    requires e.Substitute? || e.Insert? ==> (if e.Insert? then e.what else e.with) == t[j - 1]
    requires Turns(front, s[..i - Reads(e)], t[..j - Writes(e)])
    ensures Turns(front + [e], s[..i], t[..j])
    ensures Cost(front + [e]) == Cost(front) + if e.Keep? then 0 else 1
  {
    var i', j' := i - Reads(e), j - Writes(e);
    OneEditApplies(e, s[i'..i], t[j'..j]);
    assert s[..i] == s[..i'] + s[i'..i] && t[..j] == t[..j'] + t[j'..j];
    ApplyConcat(front, s[..i'], [e], s[i'..i]);
    CostConcat(front, [e]);
  }

  /** No script is shorter. */
  lemma {:induction false} NoScriptIsShorter(script: seq<Edit>, s: seq<Token>, t: seq<Token>, i: nat, j: nat)
    requires i <= |s| && j <= |t| && Turns(script, s[..i], t[..j])
    ensures Distance(s, t, i, j) <= Cost(script)
  {
    if script != [] {
      var n := |script| - 1;
      var e := script[n];
      ApplyFront(script, s[..i]);
      assert s[..i][..i - Reads(e)] == s[..i - Reads(e)] && t[..j][..j - Writes(e)] == t[..j - Writes(e)];
      NoScriptIsShorter(script[..n], s, t, i - Reads(e), j - Writes(e));
      assert script == script[..n] + [e];
      CostConcat(script[..n], [e]);
      OneEdit(s, t, i, j, e);
    }
  }

  lemma OneEdit(s: seq<Token>, t: seq<Token>, i: nat, j: nat, e: Edit)
    requires Reads(e) <= i <= |s| && Writes(e) <= j <= |t|
    requires e.Keep? ==> s[i - 1] == t[j - 1]
    ensures Distance(s, t, i, j) <= Distance(s, t, i - Reads(e), j - Writes(e)) + if e.Keep? then 0 else 1
  {
  }

  /** The least number of edits turning the reference into the hypothesis. */
  ghost predicate IsLeastCost(s: seq<Token>, t: seq<Token>, d: nat)
  {
    && (exists script: seq<Edit> :: Turns(script, s, t) && Cost(script) == d)
    && forall script: seq<Edit> :: Turns(script, s, t) ==> d <= Cost(script)
  }

  lemma DistanceIsLeastCost(s: seq<Token>, t: seq<Token>)
    ensures IsLeastCost(s, t, Distance(s, t, |s|, |t|))
  {
    assert s[..|s|] == s && t[..|t|] == t;
    var best := BestScript(s, t, |s|, |t|);
    forall script: seq<Edit> | Turns(script, s, t) ensures Distance(s, t, |s|, |t|) <= Cost(script) {
      NoScriptIsShorter(script, s, t, |s|, |t|);
    }
  }

  // ---- Distances compose ----

  /** One script after another, as one script that costs no more than both. */
  function Composed(a: seq<Edit>, b: seq<Edit>): seq<Edit>
    decreases |a| + |b|
  {
    if a != [] && a[0].Delete? then [Delete] + Composed(a[1..], b)
    else if b != [] && b[0].Insert? then [b[0]] + Composed(a, b[1..])
    else if a == [] || b == [] then []
    else
      var rest := Composed(a[1..], b[1..]);
      match (a[0], b[0])
      case (Keep, e) => [e] + rest
      case (Substitute(x), Keep) => [a[0]] + rest
      case (Substitute(x), e) => [e] + rest
      case (_, Delete) => rest
      case (Insert(x), Substitute(y)) => [Insert(y)] + rest
      case (_, _) => [a[0]] + rest
  }

  lemma {:induction false} ComposedTurns(a: seq<Edit>, b: seq<Edit>, s: seq<Token>, t: seq<Token>, u: seq<Token>)
    requires Turns(a, s, t) && Turns(b, t, u)
    ensures Turns(Composed(a, b), s, u)
    ensures Cost(Composed(a, b)) <= Cost(a) + Cost(b)
    decreases |a| + |b|
  {
    var c := Composed(a, b);
    if a != [] && a[0].Delete? {
      ComposedTurns(a[1..], b, s[1..], t, u);
      assert c[1..] == Composed(a[1..], b);
    } else if b != [] && b[0].Insert? {
      ComposedTurns(a, b[1..], s, t, u[1..]);
      assert c[1..] == Composed(a, b[1..]);
    } else if a != [] && b != [] {
      var rest := Composed(a[1..], b[1..]);
      var s' := if a[0].Insert? then s else s[1..];
      var u' := if b[0].Delete? then u else u[1..];
      ComposedTurns(a[1..], b[1..], s', t[1..], u');
      if c != rest { assert c[1..] == rest; }
    }
  }

  /** Errors through an intermediate transcript never undercut the direct ones. */
  lemma TriangleInequality(s: seq<Token>, t: seq<Token>, u: seq<Token>)
    ensures Distance(s, u, |s|, |u|) <= Distance(s, t, |s|, |t|) + Distance(t, u, |t|, |u|)
  {
    assert s[..|s|] == s && t[..|t|] == t && u[..|u|] == u;
    var a := BestScript(s, t, |s|, |t|);
    var b := BestScript(t, u, |t|, |u|);
    ComposedTurns(a, b, s, t, u);
    NoScriptIsShorter(Composed(a, b), s, u, |s|, |u|);
  }

  /** No errors exactly when the two are the same. */
  lemma {:induction false} ZeroMeansEqual(s: seq<Token>, t: seq<Token>, i: nat, j: nat)
    requires i <= |s| && j <= |t|
    ensures Distance(s, t, i, j) == 0 <==> s[..i] == t[..j]
  {
    if i > 0 && j > 0 {
      ZeroMeansEqual(s, t, i - 1, j - 1);
      assert s[..i] == s[..i - 1] + [s[i - 1]] && t[..j] == t[..j - 1] + [t[j - 1]];
      if s[..i] == t[..j] {
        assert s[..i][i - 1] == t[..j][j - 1];
      }
    }
  }

  // ---- Rates ----

  /** Totals for a corpus: the rate is their quotient. */
  class Rate {
    var errors: nat
    var length: nat

    constructor ()
      ensures errors == 0 && length == 0
    {
      errors, length := 0, 0;
    }

    method Add(reference: seq<Token>, hypothesis: seq<Token>)
      modifies this
      ensures errors == old(errors) + Distance(reference, hypothesis, |reference|, |hypothesis|)
      ensures length == old(length) + |reference|
    {
      var d := EditDistance(reference, hypothesis);
      errors := errors + d;
      length := length + |reference|;
    }
  }
}
