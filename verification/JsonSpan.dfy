/** Finding the JSON object in a model's answer (`src/llm.rs`): the brace
    scanner, and the fence stripping before it. */
module JsonSpan {
  import opened Wrappers

  /// The scanner

  /** Where the scan is: outside a string, in one, or just after a backslash in one. */
  datatype Mode = Outside | Inside | Escaped

  datatype State = State(depth: nat, mode: Mode)

  /** One character. Only a closing brace outside a string lowers the depth. */
  function Step(s: State, c: char): State
    requires s.depth > 0 || c == '{'
  {
    match s.mode
    case Escaped => State(s.depth, Inside)
    case Inside => if c == '\\' then State(s.depth, Escaped) else if c == '"' then State(s.depth, Outside) else s
    case Outside =>
      if c == '"' then State(s.depth, Inside)
      else if c == '{' then State(s.depth + 1, Outside)
      else if c == '}' then State(s.depth - 1, Outside)
      else s
  }

  /** The position just past the character that brings the depth to zero, if one does. */
  function Close(s: State, text: string, i: nat): (end: Option<nat>)
    requires s.depth > 0 && i <= |text|
    ensures end.Some? ==> i < end.value <= |text|
    decreases |text| - i
  {
    if i == |text| then None
    else if Step(s, text[i]).depth == 0 then Some(i + 1)
    else Close(Step(s, text[i]), text, i + 1)
  }

  /** The position of the first such character; the length when there is none. */
  function IndexOf(c: char, text: string): (k: nat)
    ensures k <= |text| && c !in text[..k] && (k < |text| ==> text[k] == c)
  {
    if text == "" || text[0] == c then 0
    else
      var k := 1 + IndexOf(c, text[1..]);
      assert text[..k] == [text[0]] + text[1..][..k - 1];
      k
  }

  lemma {:induction false} IndexIs(c: char, text: string, k: nat)
    requires k <= |text| && c !in text[..k] && (k < |text| ==> text[k] == c)
    ensures IndexOf(c, text) == k
  {
    assert k > 0 ==> text[..k] == [text[0]] + text[1..][..k - 1];
    if k > 0 {
      IndexIs(c, text[1..], k - 1);
    }
  }

  function Span(text: string, from: nat, end: Option<nat>): Option<string>
    requires end.Some? ==> from <= end.value <= |text|
  {
    match end
    case None => None
    case Some(n) => Some(text[from..n])
  }

  /** What the scanner returns, as a function of the answer. */
  function Object(text: string): Option<string> {
    var k := IndexOf('{', text);
    if k == |text| then None else Span(text, k, Close(State(1, Outside), text, k + 1))
  }

  /** The loop as written. The subtraction needs a positive depth, which every
      state it meets has. */
  method ExtractJsonObject(text: string) returns (r: Option<string>)
    ensures r == Object(text)
  {
    var start := IndexOf('{', text);
    if start == |text| {
      return None;
    }
    var depth, inString, escaped := 0, false, false;
    for offset := 0 to |text| - start
      invariant depth >= 0 && (escaped ==> inString) && (inString ==> depth > 0) && (depth == 0 <==> offset == 0)
      invariant offset > 0 ==> Object(text) == Span(text, start, Close(Reached(depth, inString, escaped), text, start + offset))
    {
      var character := text[start + offset];
      if inString {
        if escaped {
          escaped := false;
        } else if character == '\\' {
          escaped := true;
        } else if character == '"' {
          inString := false;
        }
        continue;
      }
      if character == '"' {
        inString := true;
      } else if character == '{' {
        depth := depth + 1;
      } else if character == '}' {
        depth := depth - 1;
        if depth == 0 {
          return Some(text[start..start + offset + 1]);
        }
      }
    }
    return None;
  }

  function Reached(depth: nat, inString: bool, escaped: bool): State {
    State(depth, if !inString then Outside else if escaped then Escaped else Inside)
  }

  /// What balanced means

  /** A character of a string, or a backslash and what it escapes. */
  datatype Unit = Plain(c: char) | Escape(c: char)

  /** Text whose braces pair up, strings aside. */
  datatype Nest = End | Other(c: char, rest: Nest) | Quoted(units: seq<Unit>, rest: Nest) | Braced(inner: Nest, rest: Nest)

  predicate ProperUnits(units: seq<Unit>) {
    forall u | u in units :: u.Plain? ==> u.c != '"' && u.c != '\\'
  }

  predicate Proper(t: Nest) {
    match t
    case End => true
    case Other(c, rest) => c != '"' && c != '{' && c != '}' && Proper(rest)
    case Quoted(units, rest) => ProperUnits(units) && Proper(rest)
    case Braced(inner, rest) => Proper(inner) && Proper(rest)
  }

  /** A string's characters, then `after`. */
  function UnitsThen(units: seq<Unit>, after: string): string {
    if units == [] then after
    else if units[0].Plain? then [units[0].c] + UnitsThen(units[1..], after)
    else ['\\'] + ([units[0].c] + UnitsThen(units[1..], after))
  }

  /** Nested text, then `after`. */
  function Then(t: Nest, after: string): string {
    match t
    case End => after
    case Other(c, rest) => [c] + Then(rest, after)
    case Quoted(units, rest) => ['"'] + UnitsThen(units, ['"'] + Then(rest, after))
    case Braced(inner, rest) => ['{'] + Then(inner, ['}'] + Then(rest, after))
  }

  /** `span` is a balanced text at the first opening brace of `text`. */
  ghost predicate Embedded(text: string, span: string) {
    var k := IndexOf('{', text);
    exists t, after :: Proper(t) && text[k..] == Then(Braced(t, End), after) == span + after
  }

  lemma {:induction false} UnitsThenAppends(units: seq<Unit>, a: string, b: string)
    ensures UnitsThen(units, a + b) == UnitsThen(units, a) + b
  {
    if units != [] {
      UnitsThenAppends(units[1..], a, b);
    }
  }

  lemma {:induction false} ThenAppends(t: Nest, a: string, b: string)
    ensures Then(t, a + b) == Then(t, a) + b
  {
    match t
    case End =>
    case Other(c, rest) => ThenAppends(rest, a, b);
    case Quoted(units, rest) =>
      ThenAppends(rest, a, b);
      UnitsThenAppends(units, ['"'] + Then(rest, a), b);
      assert ['"'] + (Then(rest, a) + b) == ['"'] + Then(rest, a) + b;
    case Braced(inner, rest) =>
      ThenAppends(rest, a, b);
      ThenAppends(inner, ['}'] + Then(rest, a), b);
      assert ['}'] + (Then(rest, a) + b) == ['}'] + Then(rest, a) + b;
  }

  lemma Split(text: string, i: nat, c: char, after: string)
    requires i <= |text| && text[i..] == [c] + after
    ensures i < |text| && text[i] == c && text[i + 1..] == after
  {
    assert text[i + 1..] == text[i..][1..];
  }

  lemma AfterPart(text: string, i: nat, part: string, after: string) returns (k: nat)
    requires i <= |text| && text[i..] == part + after
    ensures i <= k <= |text| && text[k..] == after
  {
    k := i + |part|;
    assert text[k..] == text[i..][|part|..];
  }

  /** Where the text after a string's characters, or after nested text, begins. */
  lemma EndOfUnits(units: seq<Unit>, text: string, i: nat, after: string) returns (k: nat)
    requires i <= |text| && text[i..] == UnitsThen(units, after)
    ensures i <= k <= |text| && text[k..] == after
  {
    UnitsThenAppends(units, [], after);
    assert [] + after == after;
    k := AfterPart(text, i, UnitsThen(units, []), after);
  }

  lemma EndOfNest(t: Nest, text: string, i: nat, after: string) returns (k: nat)
    requires i <= |text| && text[i..] == Then(t, after)
    ensures i <= k <= |text| && text[k..] == after
  {
    ThenAppends(t, [], after);
    assert [] + after == after;
    k := AfterPart(text, i, Then(t, []), after);
  }

  /// The scanner against balance

  lemma {:induction false} StringCloses(units: seq<Unit>, text: string, depth: nat, i: nat, j: nat)
    requires ProperUnits(units) && depth > 0 && i < j <= |text| && text[i..] == UnitsThen(units, ['"'] + text[j..])
    ensures Close(State(depth, Inside), text, i) == Close(State(depth, Outside), text, j)
    decreases |units|
  {
    if units == [] {
      Split(text, i, '"', text[j..]);
    } else {
      var left := UnitsThen(units[1..], ['"'] + text[j..]);
      var k := i + 1;
      if units[0].Plain? {
        Split(text, i, units[0].c, left);
      } else {
        Split(text, i, '\\', [units[0].c] + left);
        Split(text, i + 1, units[0].c, left);
        k := i + 2;
      }
      var q := EndOfUnits(units[1..], text, k, ['"'] + text[j..]);
      StringCloses(units[1..], text, depth, k, j);
    }
  }

  /** Balanced text passes the scanner by: it closes where what follows does. */
  lemma {:induction false} NestCloses(t: Nest, text: string, depth: nat, i: nat, j: nat)
    requires Proper(t) && depth > 0 && i <= j <= |text| && text[i..] == Then(t, text[j..])
    ensures Close(State(depth, Outside), text, i) == Close(State(depth, Outside), text, j)
    decreases t
  {
    match t
    case End =>
    case Other(c, rest) =>
      OtherPasses(c, rest, text, depth, i, j);
      NestCloses(rest, text, depth, i + 1, j);
    case Quoted(units, rest) =>
      var k := QuotedPasses(units, rest, text, depth, i, j);
      NestCloses(rest, text, depth, k, j);
    case Braced(inner, rest) =>
      var k := BracesAt(inner, rest, text, i, j);
      NestCloses(inner, text, depth + 1, i + 1, k);
      BracesClose(text, depth, i, k);
      NestCloses(rest, text, depth, k + 1, j);
  }

  lemma OtherPasses(c: char, rest: Nest, text: string, depth: nat, i: nat, j: nat)
    requires Proper(Other(c, rest)) && depth > 0 && i <= j <= |text| && text[i..] == Then(Other(c, rest), text[j..])
    ensures i + 1 <= j && text[i + 1..] == Then(rest, text[j..])
    ensures Close(State(depth, Outside), text, i) == Close(State(depth, Outside), text, i + 1)
  {
    Split(text, i, c, Then(rest, text[j..]));
    IsBefore(rest, text, i + 1, j);
  }

  /** Nested text does not reach past what comes after it. */
  lemma IsBefore(t: Nest, text: string, i: nat, j: nat)
    requires i <= |text| && j <= |text| && text[i..] == Then(t, text[j..])
    ensures i <= j
  {
    var k := EndOfNest(t, text, i, text[j..]);
  }

  lemma QuotedPasses(units: seq<Unit>, rest: Nest, text: string, depth: nat, i: nat, j: nat) returns (k: nat)
    requires Proper(Quoted(units, rest)) && depth > 0 && i <= j <= |text| && text[i..] == Then(Quoted(units, rest), text[j..])
    ensures i < k <= j && text[k..] == Then(rest, text[j..])
    ensures Close(State(depth, Outside), text, i) == Close(State(depth, Outside), text, k)
  {
    k := QuotedCloses(units, text, depth, i, Then(rest, text[j..]));
    IsBefore(rest, text, k, j);
  }

  lemma QuotedCloses(units: seq<Unit>, text: string, depth: nat, i: nat, tail: string) returns (k: nat)
    requires ProperUnits(units) && depth > 0 && i <= |text| && text[i..] == ['"'] + UnitsThen(units, ['"'] + tail)
    ensures i < k <= |text| && text[k..] == tail && Close(State(depth, Outside), text, i) == Close(State(depth, Outside), text, k)
  {
    Split(text, i, '"', UnitsThen(units, ['"'] + tail));
    k := EndOfUnits(units, text, i + 1, ['"'] + tail);
    Split(text, k, '"', tail);
    k := k + 1;
    StringCloses(units, text, depth, i + 1, k);
  }

  lemma BracesAt(inner: Nest, rest: Nest, text: string, i: nat, j: nat) returns (k: nat)
    requires i <= j <= |text| && text[i..] == Then(Braced(inner, rest), text[j..])
    ensures i < k < j && text[i] == '{' && text[k] == '}'
    ensures text[i + 1..] == Then(inner, text[k..]) && text[k + 1..] == Then(rest, text[j..])
  {
    var tail := Then(rest, text[j..]);
    Split(text, i, '{', Then(inner, ['}'] + tail));
    k := EndOfNest(inner, text, i + 1, ['}'] + tail);
    Split(text, k, '}', tail);
    IsBefore(rest, text, k + 1, j);
  }

  lemma BracesClose(text: string, depth: nat, i: nat, k: nat)
    requires depth > 0 && i < k < |text| && text[i] == '{' && text[k] == '}'
    requires Close(State(depth + 1, Outside), text, i + 1) == Close(State(depth + 1, Outside), text, k)
    ensures Close(State(depth, Outside), text, i) == Close(State(depth, Outside), text, k + 1)
  {
  }

  /** A scan that comes down from `low + high` comes down by `low` first. */
  lemma {:induction false} ComesDown(low: nat, high: nat, mode: Mode, text: string, i: nat)
    requires low > 0 && high > 0 && i <= |text| && Close(State(low + high, mode), text, i).Some?
    ensures var m := Close(State(low, mode), text, i);
            m.Some? && Close(State(high, Outside), text, m.value) == Close(State(low + high, mode), text, i)
    decreases |text| - i
  {
    var next := Step(State(low, mode), text[i]);
    if next.depth > 0 {
      ComesDown(next.depth, high, next.mode, text, i + 1);
    }
  }

  /** A scan that closes from inside a string leaves the string first, at `m`. */
  lemma {:induction false} StringIn(text: string, i: nat) returns (units: seq<Unit>, m: nat)
    requires i <= |text| && Close(State(1, Inside), text, i).Some?
    ensures ProperUnits(units) && i < m <= |text| && text[i..] == UnitsThen(units, ['"'] + text[m..])
    ensures Close(State(1, Outside), text, m) == Close(State(1, Inside), text, i)
    decreases |text| - i
  {
    assert text[i..] == [text[i]] + text[i + 1..];
    if text[i] == '"' {
      units, m := [], i + 1;
    } else if text[i] == '\\' {
      assert Close(State(1, Escaped), text, i + 1).Some?;
      assert text[i + 1..] == [text[i + 1]] + text[i + 2..];
      units, m := StringIn(text, i + 2);
      units := [Escape(text[i + 1])] + units;
    } else {
      units, m := StringIn(text, i + 1);
      units := [Plain(text[i])] + units;
    }
  }

  /** Whatever the scanner closes is balanced: here is how it nests. */
  lemma {:induction false} NestIn(text: string, i: nat) returns (t: Nest)
    requires i <= |text| && Close(State(1, Outside), text, i).Some?
    ensures Proper(t) && text[i..] == Then(t, ['}'] + text[Close(State(1, Outside), text, i).value..])
    decreases |text| - i
  {
    assert text[i..] == [text[i]] + text[i + 1..];
    if text[i] == '}' {
      t := End;
    } else if text[i] == '"' {
      var units, m := StringIn(text, i + 1);
      var rest := NestIn(text, m);
      t := Quoted(units, rest);
    } else if text[i] == '{' {
      ComesDown(1, 1, Outside, text, i + 1);
      var inner := NestIn(text, i + 1);
      var rest := NestIn(text, Close(State(1, Outside), text, i + 1).value);
      t := Braced(inner, rest);
    } else {
      var rest := NestIn(text, i + 1);
      t := Other(text[i], rest);
    }
  }

  /** The scanner returns a span exactly when it is the balanced text at the first
      opening brace, so there is at most one, and it returns nothing when there is none. */
  lemma ObjectIsTheBalancedSpan(text: string, span: string)
    ensures Object(text) == Some(span) <==> Embedded(text, span)
  {
    if Embedded(text, span) {
      var t, after :| Proper(t) && text[IndexOf('{', text)..] == Then(Braced(t, End), after) == span + after;
      EmbeddedIsFound(text, span, t, after);
    }
    if Object(text) == Some(span) {
      FoundIsEmbedded(text, span);
    }
  }

  lemma FoundIsEmbedded(text: string, span: string)
    requires Object(text) == Some(span)
    ensures Embedded(text, span)
  {
    var k := IndexOf('{', text);
    var t := NestIn(text, k + 1);
    var after := text[Close(State(1, Outside), text, k + 1).value..];
    assert text[k..] == ['{'] + text[k + 1..] == span + after;
    assert text[k..] == Then(Braced(t, End), after);
  }

  lemma EmbeddedIsFound(text: string, span: string, t: Nest, after: string)
    requires Proper(t) && text[IndexOf('{', text)..] == Then(Braced(t, End), after) == span + after
    ensures Object(text) == Some(span)
  {
    var k := IndexOf('{', text);
    var q := BracedCloses(t, text, k, after);
    assert text[k..q] == text[k..][..|span|];
  }

  lemma BracedCloses(t: Nest, text: string, k: nat, after: string) returns (q: nat)
    requires Proper(t) && k <= |text| && text[k..] == Then(Braced(t, End), after)
    ensures k < q == |text| - |after| && text[k] == '{' && Close(State(1, Outside), text, k + 1) == Some(q)
  {
    Split(text, k, '{', Then(t, ['}'] + after));
    q := EndOfNest(t, text, k + 1, ['}'] + after);
    Split(text, q, '}', after);
    NestCloses(t, text, 1, k + 1, q);
    q := q + 1;
  }

  /** No balanced text is a shorter prefix of the span found, nor a longer text that starts with it. */
  lemma NoOtherLength(text: string, span: string, other: string)
    requires Object(text) == Some(span) && Embedded(other, other) && IndexOf('{', other) == 0
    requires other <= text[IndexOf('{', text)..]
    ensures other == span
  {
    var k := IndexOf('{', text);
    var t, none :| Proper(t) && other[0..] == Then(Braced(t, End), none) == other + none;
    var after := text[k + |other|..];
    assert none == [] && other[0..] == other && [] + after == after;
    ThenAppends(Braced(t, End), [], after);
    assert text[k..] == other + after;
    EmbeddedIsFound(text, other, t, after);
  }
}
