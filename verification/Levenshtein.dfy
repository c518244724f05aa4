/** Edit distance: the table-filling program, the recursive distance, edit scripts, and the metric laws. */
module Levenshtein {
  import opened Basics

  /** The recursive distance, on last characters. */
  function Distance(a: string, b: string): nat
    decreases |a| + |b|
  {
    if a == "" then |b|
    else if b == "" then |a|
    else
      var a', b' := a[..|a| - 1], b[..|b| - 1];
      var cost := if a[|a| - 1] == b[|b| - 1] then 0 else 1;
      Min(Min(Distance(a', b) + 1, Distance(a, b') + 1), Distance(a', b') + cost)
  }

  /** The distance between the first `i` characters of `a` and the first `j` of `b`. */
  function PrefixDistance(a: string, b: string, i: nat, j: nat): nat
    requires i <= |a| && j <= |b|
  {
    Distance(a[..i], b[..j])
  }

  lemma BorderCell(a: string, b: string, i: nat, j: nat)
    requires i <= |a| && j <= |b| && (i == 0 || j == 0)
    ensures PrefixDistance(a, b, i, j) == i + j
  {
  }

  lemma InnerCell(a: string, b: string, i: nat, j: nat)
    requires 0 < i <= |a| && 0 < j <= |b|
    ensures PrefixDistance(a, b, i, j)
            == Min(Min(PrefixDistance(a, b, i - 1, j) + 1, PrefixDistance(a, b, i, j - 1) + 1),
                   PrefixDistance(a, b, i - 1, j - 1) + if a[i - 1] == b[j - 1] then 0 else 1)
  {
    assert a[..i][..i - 1] == a[..i - 1] && b[..j][..j - 1] == b[..j - 1];
  }

  /** The borders, the rows before `i`, and the first `j` cells of row `i` hold distances of prefixes. */
  ghost predicate Filled(dp: array2<nat>, a: string, b: string, i: nat, j: nat)
    reads dp
    requires dp.Length0 == |a| + 1 && dp.Length1 == |b| + 1
  {
    forall x, y :: 0 <= x <= |a| && 0 <= y <= |b| && (x == 0 || y == 0 || x < i || (x == i && y < j)) ==>
      dp[x, y] == PrefixDistance(a, b, x, y)
  }

  method FillBorders(dp: array2<nat>, a: string, b: string)
    requires dp.Length0 == |a| + 1 && dp.Length1 == |b| + 1
    modifies dp
    ensures Filled(dp, a, b, 1, 0)
  {
    hide PrefixDistance;
    for i := 0 to |a| + 1
      invariant forall x :: 0 <= x < i ==> dp[x, 0] == x
    {
      dp[i, 0] := i;
    }
    for j := 0 to |b| + 1
      invariant forall x :: 0 <= x <= |a| ==> dp[x, 0] == x
      invariant forall y :: 0 <= y < j ==> dp[0, y] == y
    {
      dp[0, j] := j;
    }
    forall x, y | 0 <= x <= |a| && 0 <= y <= |b| && (x == 0 || y == 0) ensures dp[x, y] == PrefixDistance(a, b, x, y) {
      BorderCell(a, b, x, y);
    }
  }

  method FillTable(a: string, b: string) returns (dp: array2<nat>)
    ensures fresh(dp) && dp.Length0 == |a| + 1 && dp.Length1 == |b| + 1
    ensures forall x, y :: 0 <= x <= |a| && 0 <= y <= |b| ==> dp[x, y] == PrefixDistance(a, b, x, y)
  {
    hide PrefixDistance;
    dp := new nat[|a| + 1, |b| + 1]((_, _) => 0);
    FillBorders(dp, a, b);
    for i := 1 to |a| + 1
      invariant Filled(dp, a, b, i, 0)
    {
      for j := 1 to |b| + 1
        invariant Filled(dp, a, b, i, j)
      {
        var cost := if a[i - 1] == b[j - 1] then 0 else 1;
        InnerCell(a, b, i, j);
        dp[i, j] := Min(Min(dp[i - 1, j] + 1, dp[i, j - 1] + 1), dp[i - 1, j - 1] + cost);
      }
    }
  }

  method Levenshtein(a: string, b: string) returns (d: nat)
    ensures d == Distance(a, b)
  {
    var dp := FillTable(a, b);
    WholePrefix(a, b);
    d := dp[|a|, |b|];
  }

  /** The second implementation keeps one row: cells up to `j` are of row `i + 1`, the others still of row `i`. */
  ghost predicate RowFilled(row: seq<nat>, a: string, b: string, i: nat, j: nat)
  {
    && |row| == |b| + 1 && i < |a|
    && forall y :: 0 <= y <= |b| ==> row[y] == PrefixDistance(a, b, if y <= j then i + 1 else i, y)
  }

  method LevenshteinOneRow(a: string, b: string) returns (d: nat)
    ensures d == Distance(a, b)
  {
    hide PrefixDistance;
    var row := new nat[|b| + 1](y => y);
    forall y | 0 <= y <= |b| ensures row[y] == PrefixDistance(a, b, 0, y) {
      BorderCell(a, b, 0, y);
    }
    for i := 0 to |a|
      invariant forall y :: 0 <= y <= |b| ==> row[y] == PrefixDistance(a, b, i, y)
    {
      var diag := row[0];
      row[0] := i + 1;
      BorderCell(a, b, i + 1, 0);
      for j := 0 to |b|
        invariant RowFilled(row[..], a, b, i, j)
        invariant diag == PrefixDistance(a, b, i, j)
      {
        var up := row[j + 1];
        assert up == PrefixDistance(a, b, i, j + 1) && row[j] == PrefixDistance(a, b, i + 1, j);
        InnerCell(a, b, i + 1, j + 1);
        row[j + 1] := Min(Min(diag + (if a[i] != b[j] then 1 else 0), up + 1), row[j] + 1);
        diag := up;
      }
    }
    WholePrefix(a, b);
    d := row[|b|];
  }

  lemma WholePrefix(a: string, b: string)
    ensures PrefixDistance(a, b, |a|, |b|) == Distance(a, b)
  {
    assert a[..|a|] == a && b[..|b|] == b;
  }

  // ---------------------------------------------------------------------------
  // The distance is the least cost of an edit script
  // ---------------------------------------------------------------------------

  datatype Edit = Keep(c: char) | Replace(old_: char, new_: char) | Insert(c: char) | Remove(c: char)

  function Source(script: seq<Edit>): string
  {
    if script == [] then ""
    else
      var e := script[|script| - 1];
      Source(script[..|script| - 1]) +
      match e case Keep(c) => [c] case Replace(x, _) => [x] case Insert(_) => [] case Remove(c) => [c]
  }

  function Target(script: seq<Edit>): string
  {
    if script == [] then ""
    else
      var e := script[|script| - 1];
      Target(script[..|script| - 1]) +
      match e case Keep(c) => [c] case Replace(_, y) => [y] case Insert(c) => [c] case Remove(_) => []
  }

  function Cost(script: seq<Edit>): nat
  {
    if script == [] then 0
    else Cost(script[..|script| - 1]) + if script[|script| - 1].Keep? then 0 else 1
  }

  lemma Extend(script: seq<Edit>, e: Edit)
    ensures Source(script + [e]) == Source(script) +
              match e case Keep(c) => [c] case Replace(x, _) => [x] case Insert(_) => [] case Remove(c) => [c]
    ensures Target(script + [e]) == Target(script) +
              match e case Keep(c) => [c] case Replace(_, y) => [y] case Insert(c) => [c] case Remove(_) => []
    ensures Cost(script + [e]) == Cost(script) + if e.Keep? then 0 else 1
  {
    assert (script + [e])[..|script + [e]| - 1] == script;
  }

  /** The last edit of a best script, and what is left for the edits before it. */
  lemma LastEdit(a: string, b: string) returns (e: Edit, a': string, b': string)
    requires a != "" || b != ""
    ensures |a'| + |b'| < |a| + |b|
    ensures Distance(a, b) == Distance(a', b') + if e.Keep? then 0 else 1
    ensures a == a' + match e case Keep(c) => [c] case Replace(x, _) => [x] case Insert(_) => [] case Remove(c) => [c]
    ensures b == b' + match e case Keep(c) => [c] case Replace(_, y) => [y] case Insert(c) => [c] case Remove(_) => []
  {
    if a == "" || (b != "" && Distance(a, b) == Distance(a, b[..|b| - 1]) + 1) {
      e, a', b' := Insert(b[|b| - 1]), a, b[..|b| - 1];
    } else if b == "" || Distance(a, b) == Distance(a[..|a| - 1], b) + 1 {
      e, a', b' := Remove(a[|a| - 1]), a[..|a| - 1], b;
    } else {
      var x, y := a[|a| - 1], b[|b| - 1];
      e, a', b' := if x == y then Keep(x) else Replace(x, y), a[..|a| - 1], b[..|b| - 1];
    }
  }

  /** Some script attains the distance. */
  lemma {:induction false} BestScript(a: string, b: string) returns (script: seq<Edit>)
    ensures Source(script) == a && Target(script) == b && Cost(script) == Distance(a, b)
    decreases |a| + |b|
  {
    if a == "" && b == "" {
      script := [];
    } else {
      var e, a', b' := LastEdit(a, b);
      var rest := BestScript(a', b');
      hide Distance;
      Extend(rest, e);
      script := rest + [e];
    }
  }

  /** Removing or inserting one last character changes the distance by at most one. */
  lemma LastCharacter(a: string, b: string, x: char, y: char)
    ensures Distance(a + [x], b) <= Distance(a, b) + 1
    ensures Distance(a, b + [y]) <= Distance(a, b) + 1
    ensures Distance(a + [x], b + [y]) <= Distance(a, b) + if x == y then 0 else 1
  {
    assert (a + [x])[..|a|] == a && (b + [y])[..|b|] == b;
  }

  /** No script is cheaper than the distance. */
  lemma {:induction false} NoCheaperScript(script: seq<Edit>)
    ensures Distance(Source(script), Target(script)) <= Cost(script)
  {
    if script != [] {
      var rest, e := script[..|script| - 1], script[|script| - 1];
      NoCheaperScript(rest);
      var a, b := Source(rest), Target(rest);
      match e {
        case Keep(c) => LastCharacter(a, b, c, c);
        case Replace(x, y) => LastCharacter(a, b, x, y);
        case Insert(c) => LastCharacter(a, b, c, c);
          assert Source(script) == a + [] == a;
        case Remove(c) => LastCharacter(a, b, c, c);
          assert Target(script) == b + [] == b;
      }
    }
  }

  // ---------------------------------------------------------------------------
  // The metric laws
  // ---------------------------------------------------------------------------

  lemma {:induction false} ZeroIffEqual(a: string, b: string)
    ensures Distance(a, b) == 0 <==> a == b
    decreases |a| + |b|
  {
    if a != "" && b != "" {
      var la, lb := |a| - 1, |b| - 1;
      ZeroIffEqual(a[..la], b[..lb]);
      assert a == a[..la] + [a[la]] && b == b[..lb] + [b[lb]];
    }
  }

  lemma {:induction false} Symmetric(a: string, b: string)
    ensures Distance(a, b) == Distance(b, a)
    decreases |a| + |b|
  {
    if a != "" && b != "" {
      var la, lb := |a| - 1, |b| - 1;
      Symmetric(a[..la], b);
      Symmetric(a, b[..lb]);
      Symmetric(a[..la], b[..lb]);
    }
  }

  lemma {:induction false} LengthGap(a: string, b: string)
    ensures |a| <= |b| + Distance(a, b) && |b| <= |a| + Distance(a, b)
    decreases |a| + |b|
  {
    if a != "" && b != "" {
      var la, lb := |a| - 1, |b| - 1;
      LengthGap(a[..la], b);
      LengthGap(a, b[..lb]);
      LengthGap(a[..la], b[..lb]);
    }
  }

  /** The three ways the last characters can be accounted for, one of which attains the distance. */
  lemma {:induction false} Triangle(a: string, b: string, c: string)
    ensures Distance(a, c) <= Distance(a, b) + Distance(b, c)
    decreases |a| + |b| + |c|
  {
    if a == "" || b == "" || c == "" {
      LengthGap(a, b);
      LengthGap(b, c);
      LengthGap(a, c);
      if a != "" && c != "" {
        EmptyMiddle(a, c);
      }
    } else {
      var a', b', c' := a[..|a| - 1], b[..|b| - 1], c[..|c| - 1];
      var x, y, z := a[|a| - 1], b[|b| - 1], c[|c| - 1];
      assert a == a' + [x] && b == b' + [y] && c == c' + [z];
      if Distance(a, b) == Distance(a', b) + 1 {
        Triangle(a', b, c);
        LastCharacter(a', c, x, z);
      } else if Distance(b, c) == Distance(b, c') + 1 {
        Triangle(a, b, c');
        LastCharacter(a, c', x, z);
      } else if Distance(a, b) == Distance(a, b') + 1 {
        if Distance(b, c) == Distance(b', c) + 1 {
          Triangle(a, b', c);
        } else {
          Triangle(a, b', c');
          LastCharacter(a, c', x, z);
        }
      } else if Distance(b, c) == Distance(b', c) + 1 {
        Triangle(a', b', c);
        LastCharacter(a', c, x, z);
      } else {
        Triangle(a', b', c');
        LastCharacter(a', c', x, z);
      }
    }
  }

  lemma {:induction false} EmptyMiddle(a: string, c: string)
    ensures Distance(a, c) <= |a| + |c|
    decreases |a|
  {
    if a != "" {
      EmptyMiddle(a[..|a| - 1], c);
    }
  }
}
