/** The edit distance of `src/project.rs`: two rolling rows and a length swap,
    proved to return the fewest single-character edits between two names. */
module EditDistance {
  import opened Math

  function Front<T>(s: seq<T>): seq<T>
    requires s != []
  {
    s[..|s| - 1]
  }

  function Last<T>(s: seq<T>): T
    requires s != []
  {
    s[|s| - 1]
  }

  /// What an edit is: said of whole strings, with no mention of the recurrence

  function Inserted(s: string, i: nat, c: char): string
    requires i <= |s|
  {
    s[..i] + [c] + s[i..]
  }

  function Substituted(s: string, i: nat, c: char): string
    requires i < |s|
  {
    s[i := c]
  }

  ghost predicate Inserts(s: string, t: string) {
    exists i: nat, c: char | i <= |s| :: t == Inserted(s, i, c)
  }

  ghost predicate Deletes(s: string, t: string) {
    Inserts(t, s)
  }

  ghost predicate Substitutes(s: string, t: string) {
    exists i: nat, c: char | i < |s| :: t == Substituted(s, i, c)
  }

  ghost predicate Edits(s: string, t: string) {
    Inserts(s, t) || Deletes(s, t) || Substitutes(s, t)
  }

  /** `path` is an edit script written out: each string is one edit away from the next. */
  ghost predicate Script(a: string, b: string, path: seq<string>) {
    && path != []
    && path[0] == a
    && Last(path) == b
    && forall k :: 0 <= k < |path| - 1 ==> Edits(path[k], path[k + 1])
  }

  /// The recurrence the rows of the program hold

  function Cost(x: char, y: char): nat { if x == y then 0 else 1 }

  function Dist(a: string, b: string): nat
    decreases |a| + |b|
  {
    if a == [] then |b|
    else if b == [] then |a|
    else Min(Min(Dist(Front(a), b) + 1, Dist(a, Front(b)) + 1),
             Dist(Front(a), Front(b)) + Cost(Last(a), Last(b)))
  }

  /** The whole table of distances between prefixes, of which the program keeps
      two rows at a time. */
  ghost predicate Shaped(a: string, b: string, t: seq<seq<int>>) {
    |t| == |b| + 1 && forall r | 0 <= r <= |b| :: |t[r]| == |a| + 1
  }

  ghost predicate Follows(a: string, b: string, t: seq<seq<int>>, r: nat, c: nat)
    requires Shaped(a, b, t) && r < |b| && c < |a|
  {
    var best := t[r + 1][c + 1];
    var (deleted, inserted, matched) := (t[r][c + 1] + 1, t[r + 1][c] + 1, t[r][c] + Cost(a[c], b[r]));
    best <= deleted && best <= inserted && best <= matched && best in {deleted, inserted, matched}
  }

  ghost predicate Table(a: string, b: string, t: seq<seq<int>>) {
    && Shaped(a, b, t)
    && (forall r | 0 <= r <= |b| :: t[r][0] == r)
    && (forall c | 0 <= c <= |a| :: t[0][c] == c)
    && (forall r, c | 0 <= r < |b| && 0 <= c < |a| :: Follows(a, b, t, r, c))
  }

  function DistanceTable(a: string, b: string): (t: seq<seq<int>>)
    ensures Shaped(a, b, t)
    ensures forall r, c | 0 <= r <= |b| && 0 <= c <= |a| :: t[r][c] == Dist(a[..c], b[..r])
  {
    seq(|b| + 1, r requires 0 <= r <= |b| => seq(|a| + 1, c requires 0 <= c <= |a| => Dist(a[..c], b[..r])))
  }

  lemma DistancesFollow(a: string, b: string, r: nat, c: nat)
    requires r < |b| && c < |a|
    ensures Follows(a, b, DistanceTable(a, b), r, c)
  {
    var (x, y) := (a[..c + 1], b[..r + 1]);
    assert Front(x) == a[..c] && Front(y) == b[..r];
    Unfolds(x, y);
  }

  lemma TableOfDistances(a: string, b: string) returns (t: seq<seq<int>>)
    ensures Table(a, b, t)
    ensures t[|b|][|a|] == Dist(a, b)
  {
    t := DistanceTable(a, b);
    forall r, c | 0 <= r < |b| && 0 <= c < |a| ensures Follows(a, b, t, r, c) {
      DistancesFollow(a, b, r, c);
    }
    forall r | 0 <= r <= |b| ensures t[r][0] == r {
      assert t[r][0] == Dist(a[..0], b[..r]);
    }
    forall c | 0 <= c <= |a| ensures t[0][c] == c {
      assert t[0][c] == Dist(a[..c], b[..0]);
    }
    assert a[..|a|] == a && b[..|b|] == b;
  }

  lemma Unfolds(a: string, b: string)
    requires a != [] && b != []
    ensures var (best, deleted, inserted, matched) := (Dist(a, b), Dist(Front(a), b) + 1, Dist(a, Front(b)) + 1,
                                                       Dist(Front(a), Front(b)) + Cost(Last(a), Last(b)));
            best <= deleted && best <= inserted && best <= matched && best in {deleted, inserted, matched}
  {
  }

  /// The program

  /** One turn of the outer loop: the row below `previous`. */
  method FillRow(left: string, right: string, ghost t: seq<seq<int>>, row: nat, previous: array<int>, current: array<int>)
    requires Table(left, right, t) && row < |right|
    requires previous.Length == current.Length == |left| + 1 && previous != current
    requires previous[..] == t[row]
    modifies current
    ensures current[..] == t[row + 1]
  {
    current[0] := row + 1;
    for column := 0 to |left|
      invariant current[..column + 1] == t[row + 1][..column + 1]
    {
      var cost := if left[column] != right[row] then 1 else 0;
      var fewest := previous[column + 1] + 1;
      if current[column] + 1 < fewest { fewest := current[column] + 1; }
      if previous[column] + cost < fewest { fewest := previous[column] + cost; }
      assert current[column] == current[..column + 1][column];
      assert previous[column] == previous[..][column] && previous[column + 1] == previous[..][column + 1];
      assert Follows(left, right, t, row, column);
      current[column + 1] := fewest;
    }
  }

  method Levenshtein(left: string, right: string) returns (distance: nat)
    ensures distance == Dist(left, right)
  {
    if |left| == 0 {
      return |right|;
    }
    if |right| == 0 {
      return |left|;
    }
    var left, right := left, right;
    if |left| > |right| {
      Symmetric(left, right);
      left, right := right, left;
    }
    ghost var t := TableOfDistances(left, right);
    var previous := new int[|left| + 1](i => i);
    var current := new int[|left| + 1](_ => 0);
    for row := 0 to |right|
      invariant previous.Length == current.Length == |left| + 1 && previous != current
      invariant fresh(previous) && fresh(current)
      invariant previous[..] == t[row]
    {
      FillRow(left, right, t, row, previous, current);
      previous, current := current, previous;
    }
    return previous[|left|];
  }

  /// The recurrence is a metric

  lemma {:induction false} Symmetric(a: string, b: string)
    ensures Dist(a, b) == Dist(b, a)
    decreases |a| + |b|
  {
    if a != [] && b != [] {
      Symmetric(Front(a), b);
      Symmetric(a, Front(b));
      Symmetric(Front(a), Front(b));
    }
  }

  lemma {:induction false} ZeroIffEqual(a: string, b: string)
    ensures Dist(a, b) == 0 <==> a == b
    decreases |a| + |b|
  {
    if a != [] && b != [] {
      ZeroIffEqual(Front(a), Front(b));
      assert a == Front(a) + [Last(a)] && b == Front(b) + [Last(b)];
    }
  }

  /** Between the difference of the lengths and the longer of the two. */
  lemma {:induction false} Bounds(a: string, b: string)
    ensures Dist(a, b) <= Max(|a|, |b|)
    ensures |a| <= |b| + Dist(a, b) && |b| <= |a| + Dist(a, b)
    decreases |a| + |b|
  {
    if a != [] && b != [] {
      Bounds(Front(a), b);
      Bounds(a, Front(b));
      Bounds(Front(a), Front(b));
    }
  }

  lemma {:induction false} Triangle(a: string, b: string, c: string)
    ensures Dist(a, c) <= Dist(a, b) + Dist(b, c)
    decreases |a| + |b| + |c|
  {
    if a == [] || c == [] {
      Bounds(a, b);
      Bounds(b, c);
    } else if b == [] {
      Bounds(a, c);
    } else {
      Triangle(Front(a), b, c);
      Triangle(a, b, Front(c));
      Triangle(a, Front(b), c);
      Triangle(a, Front(b), Front(c));
      Triangle(Front(a), Front(b), c);
      Triangle(Front(a), Front(b), Front(c));
    }
  }

  /// The metric counts edits

  lemma {:induction false} OneInsert(s: string, i: nat, c: char)
    requires i <= |s|
    ensures Dist(s, Inserted(s, i, c)) <= 1
    decreases |s|
  {
    var t := Inserted(s, i, c);
    if i == |s| {
      assert Front(t) == s;
      ZeroIffEqual(s, s);
    } else {
      assert Front(t) == Inserted(Front(s), i, c) && Last(t) == Last(s);
      OneInsert(Front(s), i, c);
    }
  }

  lemma {:induction false} OneSubstitute(s: string, i: nat, c: char)
    requires i < |s|
    ensures Dist(s, Substituted(s, i, c)) <= 1
    decreases |s|
  {
    var t := Substituted(s, i, c);
    if i == |s| - 1 {
      assert Front(t) == Front(s);
      ZeroIffEqual(Front(s), Front(t));
    } else {
      assert Front(t) == Substituted(Front(s), i, c) && Last(t) == Last(s);
      OneSubstitute(Front(s), i, c);
    }
  }

  lemma {:induction false} OneEdit(s: string, t: string)
    requires Edits(s, t)
    ensures Dist(s, t) <= 1
  {
    if Inserts(s, t) {
      var i: nat, c: char :| i <= |s| && t == Inserted(s, i, c);
      OneInsert(s, i, c);
    } else if Deletes(s, t) {
      var i: nat, c: char :| i <= |t| && s == Inserted(t, i, c);
      OneInsert(t, i, c);
      Symmetric(s, t);
    } else {
      var i: nat, c: char :| i < |s| && t == Substituted(s, i, c);
      OneSubstitute(s, i, c);
    }
  }

  /** No script is shorter than the distance. */
  lemma {:induction false} NoShorterScript(a: string, b: string, path: seq<string>)
    requires Script(a, b, path)
    ensures Dist(a, b) <= |path| - 1
    decreases |path|
  {
    if |path| == 1 {
      ZeroIffEqual(a, b);
    } else {
      var rest := path[1..];
      assert Script(rest[0], b, rest);
      NoShorterScript(rest[0], b, rest);
      OneEdit(a, path[1]);
      Triangle(a, path[1], b);
    }
  }

  /** A script carries over when the same character ends every string of it. */
  function Suffixed(path: seq<string>, c: char): (r: seq<string>)
    ensures |r| == |path|
    ensures forall k :: 0 <= k < |path| ==> r[k] == path[k] + [c]
  {
    seq(|path|, k requires 0 <= k < |path| => path[k] + [c])
  }

  lemma EditsSuffixed(s: string, t: string, c: char)
    requires Edits(s, t)
    ensures Edits(s + [c], t + [c])
  {
    if Inserts(s, t) {
      var i: nat, d: char :| i <= |s| && t == Inserted(s, i, d);
      assert t + [c] == Inserted(s + [c], i, d);
    } else if Deletes(s, t) {
      var i: nat, d: char :| i <= |t| && s == Inserted(t, i, d);
      assert s + [c] == Inserted(t + [c], i, d);
    } else {
      var i: nat, d: char :| i < |s| && t == Substituted(s, i, d);
      assert t + [c] == Substituted(s + [c], i, d);
    }
  }

  lemma ScriptSuffixed(a: string, b: string, path: seq<string>, c: char)
    requires Script(a, b, path)
    ensures Script(a + [c], b + [c], Suffixed(path, c))
  {
    var p := Suffixed(path, c);
    forall k | 0 <= k < |p| - 1
      ensures Edits(p[k], p[k + 1])
    {
      EditsSuffixed(path[k], path[k + 1], c);
    }
  }

  lemma ThenInsert(a: string, b: string, path: seq<string>)
    requires b != [] && Script(a, Front(b), path)
    ensures Script(a, b, path + [b])
  {
    assert b == Inserted(Front(b), |b| - 1, Last(b));
    assert Edits(Front(b), b);
  }

  lemma DeleteThen(a: string, b: string, path: seq<string>)
    requires a != [] && Script(Front(a), b, path)
    ensures Script(a, b, [a] + path)
  {
    assert a == Inserted(Front(a), |a| - 1, Last(a));
    assert Edits(a, Front(a));
  }

  lemma ThenSubstitute(a: string, b: string, c: char, path: seq<string>)
    requires b != [] && Script(a, Front(b) + [c], path)
    ensures Script(a, b, path + [b])
  {
    assert b == Substituted(Front(b) + [c], |b| - 1, Last(b));
    assert Edits(Front(b) + [c], b);
  }

  lemma ThenMatch(a: string, b: string, path: seq<string>) returns (longer: seq<string>)
    requires a != [] && b != [] && Script(Front(a), Front(b), path)
    ensures Script(a, b, longer)
    ensures |longer| == |path| + Cost(Last(a), Last(b))
  {
    ScriptSuffixed(Front(a), Front(b), path, Last(a));
    longer := Suffixed(path, Last(a));
    assert a == Front(a) + [Last(a)] && b == Front(b) + [Last(b)];
    if Last(a) != Last(b) {
      ThenSubstitute(a, b, Last(a), longer);
      longer := longer + [b];
    }
  }

  /** A script as long as the distance exists: with `NoShorterScript`, the
      distance is the length of the shortest script. */
  lemma {:induction false} ShortestScript(a: string, b: string) returns (path: seq<string>)
    ensures Script(a, b, path)
    ensures |path| - 1 == Dist(a, b)
    decreases |a| + |b|
  {
    if a == [] && b == [] {
      path := [a];
    } else if b == [] || (a != [] && Dist(a, b) == Dist(Front(a), b) + 1) {
      path := ShortestScript(Front(a), b);
      DeleteThen(a, b, path);
      path := [a] + path;
    } else if a == [] || Dist(a, b) == Dist(a, Front(b)) + 1 {
      path := ShortestScript(a, Front(b));
      ThenInsert(a, b, path);
      path := path + [b];
    } else {
      path := ShortestScript(Front(a), Front(b));
      path := ThenMatch(a, b, path);
    }
  }
}
