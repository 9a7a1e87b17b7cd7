/** Cutting a name back into the parts it was made of. */
module Cut {

  lemma {:induction false} AtFirst(a: string, b: string, x: string, y: string, sep: char)
    requires a + [sep] + b == x + [sep] + y && sep !in a && sep !in x
    ensures a == x && b == y
  {
    var (s, t) := (a + [sep] + b, x + [sep] + y);
    assert s[0] == (if a == [] then sep else a[0]) && t[0] == (if x == [] then sep else x[0]);
    if a == [] {
      assert b == s[1..] && y == t[1..];
    } else {
      assert a[1..] + [sep] + b == s[1..] && x[1..] + [sep] + y == t[1..];
      AtFirst(a[1..], b, x[1..], y, sep);
      assert a == [a[0]] + a[1..] && x == [x[0]] + x[1..];
    }
  }

  lemma {:induction false} AtLast(a: string, b: string, x: string, y: string, sep: char)
    requires a + [sep] + b == x + [sep] + y && sep !in b && sep !in y
    ensures a == x && b == y
    decreases |b|
  {
    var (s, t) := (a + [sep] + b, x + [sep] + y);
    var n := |s| - 1;
    assert s[n] == (if b == [] then sep else b[|b| - 1]) && t[n] == (if y == [] then sep else y[|y| - 1]);
    if b == [] {
      assert a == s[..n] && x == t[..n];
    } else {
      assert a + [sep] + b[..|b| - 1] == s[..n] && x + [sep] + y[..|y| - 1] == t[..n];
      AtLast(a, b[..|b| - 1], x, y[..|y| - 1], sep);
      assert b == b[..|b| - 1] + [b[|b| - 1]] && y == y[..|y| - 1] + [y[|y| - 1]];
    }
  }
}
