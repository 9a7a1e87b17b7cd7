/** The verdict object in a model's answer (`src/llm.rs`): JSON text as RFC 8259
    writes it, and the Markdown fence a model may put around it. */
module Answer {
  import opened JsonSpan
  import opened Wrappers

  /// JSON text

  /** The grammar of RFC 8259, sections 2 to 7, with its white space kept. */
  datatype Json =
    | Scalar(text: string)
    | StringOf(units: seq<Unit>)
    | ArrayOf(gap: string, elements: Elements)
    | ObjectOf(gap: string, members: Members)

  datatype Elements = NoElement | Element(before: string, value: Json, after: string, more: Elements)

  datatype Members =
    | NoMember
    | Member(before: string, name: seq<Unit>, beforeColon: string, afterColon: string, value: Json, after: string, more: Members)

  predicate IsGap(s: string) { forall k | 0 <= k < |s| :: s[k] in " \t\n\r" }

  /** `true`, `false`, `null`, and every number; more texts than those are allowed. */
  predicate IsScalar(s: string) { forall k | 0 <= k < |s| :: IsScalarChar(s[k]) }

  predicate IsScalarChar(c: char) { 'a' <= c <= 'z' || '0' <= c <= '9' || c == '+' || c == '-' || c == '.' || c == 'E' }

  predicate ProperJson(j: Json) {
    match j
    case Scalar(text) => IsScalar(text)
    case StringOf(units) => ProperUnits(units)
    case ArrayOf(gap, elements) => IsGap(gap) && ProperElements(elements)
    case ObjectOf(gap, members) => IsGap(gap) && ProperMembers(members)
  }

  predicate ProperElements(e: Elements) {
    e.NoElement? || (IsGap(e.before) && ProperJson(e.value) && IsGap(e.after) && ProperElements(e.more))
  }

  predicate ProperMembers(m: Members) {
    m.NoMember?
    || (IsGap(m.before) && ProperUnits(m.name) && IsGap(m.beforeColon) && IsGap(m.afterColon) && ProperJson(m.value)
        && IsGap(m.after) && ProperMembers(m.more))
  }

  /** The text of a value, then `after`. */
  function Write(j: Json, after: string): string {
    match j
    case Scalar(text) => text + after
    case StringOf(units) => WriteString(units, after)
    case ArrayOf(gap, elements) => ['['] + (gap + WriteElements(elements, [']'] + after))
    case ObjectOf(gap, members) => ['{'] + (gap + WriteMembers(members, ['}'] + after))
  }

  function WriteString(units: seq<Unit>, after: string): string { ['"'] + UnitsThen(units, ['"'] + after) }

  function WriteElements(e: Elements, after: string): string {
    match e
    case NoElement => after
    case Element(before, value, behind, more) =>
      before + Write(value, behind + if more.NoElement? then after else [','] + WriteElements(more, after))
  }

  function WriteMembers(m: Members, after: string): string {
    match m
    case NoMember => after
    case Member(before, name, beforeColon, afterColon, value, behind, more) =>
      var tail := if more.NoMember? then after else [','] + WriteMembers(more, after);
      before + WriteString(name, beforeColon + ([':'] + (afterColon + Write(value, behind + tail))))
  }

  function Text(j: Json): string { Write(j, "") }

  /// JSON text is balanced

  function Others(s: string, rest: Nest): Nest {
    if s == "" then rest else Other(s[0], Others(s[1..], rest))
  }

  function Tree(j: Json, rest: Nest): Nest {
    match j
    case Scalar(text) => Others(text, rest)
    case StringOf(units) => Quoted(units, rest)
    case ArrayOf(gap, elements) => Other('[', Others(gap, ElementsTree(elements, Other(']', rest))))
    case ObjectOf(gap, members) => Braced(Others(gap, MembersTree(members, End)), rest)
  }

  function ElementsTree(e: Elements, rest: Nest): Nest {
    match e
    case NoElement => rest
    case Element(before, value, behind, more) =>
      Others(before, Tree(value, Others(behind, if more.NoElement? then rest else Other(',', ElementsTree(more, rest)))))
  }

  function MembersTree(m: Members, rest: Nest): Nest {
    match m
    case NoMember => rest
    case Member(before, name, beforeColon, afterColon, value, behind, more) =>
      var tail := Others(behind, if more.NoMember? then rest else Other(',', MembersTree(more, rest)));
      Others(before, Quoted(name, Others(beforeColon, Other(':', Others(afterColon, Tree(value, tail))))))
  }

  predicate Plainly(s: string) { forall k | 0 <= k < |s| :: s[k] != '"' && s[k] != '{' && s[k] != '}' }

  lemma {:induction false} OthersText(s: string, rest: Nest, after: string)
    requires Plainly(s) && Proper(rest)
    ensures Proper(Others(s, rest)) && Then(Others(s, rest), after) == s + Then(rest, after)
  {
    if s == "" {
      assert s + Then(rest, after) == Then(rest, after);
    } else {
      OthersText(s[1..], rest, after);
      assert s + Then(rest, after) == [s[0]] + (s[1..] + Then(rest, after));
    }
  }

  lemma {:induction false} TreeText(j: Json, rest: Nest, after: string)
    requires ProperJson(j) && Proper(rest)
    ensures Proper(Tree(j, rest)) && Then(Tree(j, rest), after) == Write(j, Then(rest, after))
    decreases j
  {
    match j
    case Scalar(text) => OthersText(text, rest, after);
    case StringOf(units) =>
    case ArrayOf(gap, elements) =>
      var close := Other(']', rest);
      ElementsText(elements, close, after);
      ArrayTreeText(gap, elements, rest, after);
    case ObjectOf(gap, members) =>
      MembersText(members, End, ['}'] + Then(rest, after));
      ObjectTreeText(gap, members, rest, after);
  }

  lemma ArrayTreeText(gap: string, elements: Elements, rest: Nest, after: string)
    requires IsGap(gap) && Proper(ElementsTree(elements, Other(']', rest)))
    requires Then(ElementsTree(elements, Other(']', rest)), after) == WriteElements(elements, [']'] + Then(rest, after))
    ensures var a := ArrayOf(gap, elements); Proper(Tree(a, rest)) && Then(Tree(a, rest), after) == Write(a, Then(rest, after))
  {
    OthersText(gap, ElementsTree(elements, Other(']', rest)), after);
  }

  lemma ObjectTreeText(gap: string, members: Members, rest: Nest, after: string)
    requires IsGap(gap) && Proper(rest) && Proper(MembersTree(members, End))
    requires var inside := ['}'] + Then(rest, after); Then(MembersTree(members, End), inside) == WriteMembers(members, inside)
    ensures var o := ObjectOf(gap, members); Proper(Tree(o, rest)) && Then(Tree(o, rest), after) == Write(o, Then(rest, after))
  {
    OthersText(gap, MembersTree(members, End), ['}'] + Then(rest, after));
  }

  lemma {:induction false} ElementsText(e: Elements, rest: Nest, after: string)
    requires ProperElements(e) && Proper(rest)
    ensures Proper(ElementsTree(e, rest)) && Then(ElementsTree(e, rest), after) == WriteElements(e, Then(rest, after))
    decreases e
  {
    if e.Element? {
      var tail := if e.more.NoElement? then rest else Other(',', ElementsTree(e.more, rest));
      ElementsText(e.more, rest, after);
      OthersText(e.after, tail, after);
      TreeText(e.value, Others(e.after, tail), after);
      OthersText(e.before, Tree(e.value, Others(e.after, tail)), after);
    }
  }

  lemma {:induction false} MembersText(m: Members, rest: Nest, after: string)
    requires ProperMembers(m) && Proper(rest)
    ensures Proper(MembersTree(m, rest)) && Then(MembersTree(m, rest), after) == WriteMembers(m, Then(rest, after))
    decreases m
  {
    if m.Member? {
      var tail := if m.more.NoMember? then rest else Other(',', MembersTree(m.more, rest));
      MembersText(m.more, rest, after);
      OthersText(m.after, tail, after);
      TreeText(m.value, Others(m.after, tail), after);
      NamedText(m, Tree(m.value, Others(m.after, tail)), after);
    }
  }

  lemma NamedText(m: Members, value: Nest, after: string)
    requires m.Member? && ProperMembers(m) && Proper(value)
    ensures var nest := Others(m.before, Quoted(m.name, Others(m.beforeColon, Other(':', Others(m.afterColon, value)))));
            Proper(nest)
            && Then(nest, after) == m.before + WriteString(m.name, m.beforeColon + (":" + (m.afterColon + Then(value, after))))
  {
    var colon := Other(':', Others(m.afterColon, value));
    OthersText(m.afterColon, value, after);
    OthersText(m.beforeColon, colon, after);
    OthersText(m.before, Quoted(m.name, Others(m.beforeColon, colon)), after);
  }

  /** What the text of an object looks like, and that it is a balanced text. */
  lemma ObjectText(o: Json, after: string) returns (t: Nest)
    requires o.ObjectOf? && ProperJson(o)
    ensures Proper(t) && Text(o) + after == Write(o, after) == Then(Braced(t, End), after)
    ensures IsBraced(Text(o))
  {
    t := Others(o.gap, MembersTree(o.members, End));
    TreeText(o, End, after);
    TreeText(o, End, "");
    assert "" + after == after;
    ThenAppends(Braced(t, End), "", after);
    assert ['}'] + "" == "" + ['}'] == ['}'];
    ThenAppends(t, "", ['}']);
    assert Text(o) == Then(Braced(t, End), "") == ['{'] + Then(t, ['}'] + "") == ['{'] + (Then(t, "") + ['}']);
  }

  lemma FirstBraceAfter(pre: string, s: string)
    requires '{' !in pre && s != "" && s[0] == '{'
    ensures IndexOf('{', pre + s) == |pre|
  {
    assert (pre + s)[..|pre|] == pre;
    IndexIs('{', pre + s, |pre|);
  }

  /** Whatever surrounds it, an object after text without an opening brace is
      returned whole and alone, braces and escapes in its strings notwithstanding. */
  lemma AnyObjectIsFound(pre: string, o: Json, post: string)
    requires '{' !in pre && o.ObjectOf? && ProperJson(o)
    ensures Object(pre + Text(o) + post) == Some(Text(o))
  {
    var t := ObjectText(o, post);
    var text := pre + (Text(o) + post);
    assert text == pre + Text(o) + post;
    FirstBraceAfter(pre, Text(o) + post);
    assert text[|pre|..] == Text(o) + post;
    EmbeddedIsFound(text, Text(o), t, post);
  }

  /// Trimming and the fence

  /** Which characters count as white space: any, as long as the braces do not. */
  predicate Sensible(blank: char -> bool) { !blank('{') && !blank('}') }

  function TrimStart(blank: char -> bool, s: string): (r: string)
    ensures |r| <= |s| && r == s[|s| - |r|..]
  {
    if s != "" && blank(s[0]) then TrimStart(blank, s[1..]) else s
  }

  function TrimEnd(blank: char -> bool, s: string): (r: string)
    ensures r <= s
  {
    if s != "" && blank(s[|s| - 1]) then TrimEnd(blank, s[..|s| - 1]) else s
  }

  function Trim(blank: char -> bool, s: string): string { TrimStart(blank, TrimEnd(blank, s)) }

  const FENCE := "```"

  /** What follows the first line break, or everything when there is none. */
  function BelowFirstLine(s: string): string {
    var k := IndexOf('\n', s);
    if k == |s| then s else s[k + 1..]
  }

  function DropClosingFence(blank: char -> bool, rest: string): (r: string)
    ensures r <= rest
  {
    var s := TrimEnd(blank, rest);
    if |s| >= |FENCE| && s[|s| - |FENCE|..] == FENCE then s[..|s| - |FENCE|] else rest
  }

  function StripCodeFence(blank: char -> bool, value: string): string {
    if FENCE <= value then Fenced(blank, value[|FENCE|..]) else value
  }

  /** What is left of the text after an opening fence. */
  function Fenced(blank: char -> bool, rest: string): string {
    Trim(blank, DropClosingFence(blank, BelowFirstLine(rest)))
  }

  /** The object the verdict is read from. */
  function ObjectIn(blank: char -> bool, raw: string): Option<string> { Object(StripCodeFence(blank, Trim(blank, raw))) }

  lemma Associates(a: string, b: string, c: string)
    ensures a + (b + c) == a + b + c
  {
  }

  predicate IsBraced(t: string) { t != "" && t[0] == '{' && t[|t| - 1] == '}' }

  lemma {:induction false} TrimEndKeeps(blank: char -> bool, x: string, post: string)
    requires x != "" && !blank(x[|x| - 1])
    ensures TrimEnd(blank, x + post) == x + TrimEnd(blank, post)
  {
    var s := x + post;
    if post == "" {
      assert s == x;
    } else if blank(post[|post| - 1]) {
      TrimEndKeeps(blank, x, post[..|post| - 1]);
      assert s[..|s| - 1] == x + post[..|post| - 1];
    }
  }

  lemma FromTheFront(pre: string, y: string)
    requires pre != ""
    ensures (pre + y)[0] == pre[0] && (pre + y)[1..] == pre[1..] + y
  {
  }

  lemma {:induction false} TrimStartKeeps(blank: char -> bool, pre: string, y: string)
    requires y != "" && !blank(y[0])
    ensures TrimStart(blank, pre + y) == TrimStart(blank, pre) + y
  {
    if pre == "" {
      assert pre + y == y;
    } else {
      FromTheFront(pre, y);
      if blank(pre[0]) {
        TrimStartKeeps(blank, pre[1..], y);
      }
    }
  }

  lemma TrimKeeps(blank: char -> bool, pre: string, t: string, post: string)
    requires t != "" && !blank(t[0]) && !blank(t[|t| - 1])
    ensures Trim(blank, pre + t + post) == TrimStart(blank, pre) + t + TrimEnd(blank, post)
  {
    var (x, end) := (pre + t, TrimEnd(blank, post));
    assert x[|x| - 1] == t[|t| - 1];
    TrimEndKeeps(blank, x, post);
    Associates(pre, t, end);
    assert (t + end)[0] == t[0];
    TrimStartKeeps(blank, pre, t + end);
    Associates(TrimStart(blank, pre), t, end);
  }

  /** The closing fence is taken off what follows the object, never off the object. */
  lemma DropKeeps(blank: char -> bool, pre: string, t: string, post: string) returns (left: string)
    requires Sensible(blank) && t != "" && t[|t| - 1] == '}'
    ensures DropClosingFence(blank, pre + t + post) == pre + t + left && left <= post
  {
    var (x, end) := (pre + t, TrimEnd(blank, post));
    var s := x + end;
    TrimEndKeeps(blank, x, post);
    assert x[|x| - 1] == s[|x| - 1] == '}';
    left := post;
    assert |end| < |FENCE| <= |s| ==> s[|s| - |FENCE|..][|FENCE| - 1 - |end|] == s[|x| - 1];
    if |s| >= |FENCE| && s[|s| - |FENCE|..] == FENCE {
      left := end[..|end| - |FENCE|];
      assert s[..|s| - |FENCE|] == x + left;
    }
  }

  /** The fence is stripped without touching an object that begins below its first line. */
  lemma StripKeeps(blank: char -> bool, pre: string, t: string, post: string) returns (before: string, left: string)
    requires Sensible(blank) && IsBraced(t) && '{' !in pre
    ensures Trim(blank, DropClosingFence(blank, pre + t + post)) == before + t + left && '{' !in before
  {
    left := DropKeeps(blank, pre, t, post);
    TrimKeeps(blank, pre, t, left);
    before, left := TrimStart(blank, pre), TrimEnd(blank, left);
  }

  lemma LineInFirst(a: string, b: string)
    requires '\n' in a
    ensures BelowFirstLine(a + b) == BelowFirstLine(a) + b
  {
    var m := IndexOf('\n', a);
    assert (a + b)[..m] == a[..m];
    IndexIs('\n', a + b, m);
    assert (a + b)[m + 1..] == a[m + 1..] + b;
  }

  lemma NoLine(s: string)
    requires '\n' !in s
    ensures BelowFirstLine(s) == s
  {
    assert s[..|s|] == s;
    IndexIs('\n', s, |s|);
  }

  lemma LineInSecond(a: string, b: string) returns (k: nat)
    requires '\n' !in a && '\n' in b
    ensures |a| < k <= |a + b| && BelowFirstLine(a + b) == (a + b)[k..]
  {
    var j := IndexOf('\n', b);
    assert b[..|b|] == b;
    assert (a + b)[..|a| + j] == a + b[..j];
    IndexIs('\n', a + b, |a| + j);
    k := |a| + j + 1;
  }

  /** Where the answer opens with a fence, and how much of it the stripping takes away. */
  ghost predicate Survives(blank: char -> bool, pre: string, t: string, post: string) {
    var lead := TrimStart(blank, pre);
    FENCE <= lead ==> '\n' in lead[|FENCE|..] || '\n' !in t + TrimEnd(blank, post)
  }

  lemma FencedSurvives(blank: char -> bool, rest: string, t: string, post: string) returns (before: string, left: string)
    requires Sensible(blank) && IsBraced(t) && '{' !in rest && ('\n' in rest || '\n' !in t + post)
    ensures Fenced(blank, rest + (t + post)) == before + t + left && '{' !in before
  {
    var below := rest;
    if '\n' in rest {
      LineInFirst(rest, t + post);
      below := BelowFirstLine(rest);
    } else {
      NoLine(rest + (t + post));
    }
    Associates(below, t, post);
    before, left := StripKeeps(blank, below, t, post);
  }

  /** A part of the answer that starts after the object does is not where it is found. */
  lemma NotBelow(pre: string, t: string, post: string, a: nat, b: nat)
    requires t != "" && t[|t| - 1] == '}' && '}' !in post && |pre| < a <= b <= |pre + t + post|
    ensures Object((pre + t + post)[a..b]) != Some(t)
  {
    var part := (pre + t + post)[a..b];
    assert forall p | |pre + t| - a <= p < |part| :: p >= 0 ==> part[p] == post[a + p - |pre + t|];
    if Object(part) == Some(t) {
      var p := EndOfObject(part, t);
    }
  }

  lemma EndOfObject(part: string, t: string) returns (p: nat)
    requires Object(part) == Some(t) && t != ""
    ensures |t| - 1 <= p < |part| && part[p] == t[|t| - 1]
  {
    FoundIsEmbedded(part, t);
    var k := IndexOf('{', part);
    p := k + |t| - 1;
    assert part[k..][|t| - 1] == t[|t| - 1];
  }

  /** The first line break is in the object or after it, so what is below it starts after the object does. */
  lemma BelowStartsLater(blank: char -> bool, rest: string, after: string) returns (a: nat, b: nat)
    requires '\n' !in rest && '\n' in after
    ensures |rest| < a <= b <= |rest + after| && Fenced(blank, rest + after) == (rest + after)[a..b]
  {
    var k := LineInSecond(rest, after);
    a, b := Inside(blank, rest + after, k, BelowFirstLine(rest + after));
  }

  lemma Inside(blank: char -> bool, text: string, cut: nat, below: string) returns (a: nat, b: nat)
    requires cut <= |text| && below == text[cut..]
    ensures cut <= a <= b <= |text| && Trim(blank, DropClosingFence(blank, below)) == text[a..b]
  {
    var ended := TrimEnd(blank, DropClosingFence(blank, below));
    assert ended <= below;
    b := cut + |ended|;
    a := b - |TrimStart(blank, ended)|;
    assert ended == text[cut..b];
  }

  lemma FencedIsLost(blank: char -> bool, rest: string, t: string, post: string)
    requires IsBraced(t) && '}' !in post && '\n' !in rest && '\n' in t + post
    ensures Object(Fenced(blank, rest + (t + post))) != Some(t)
  {
    var a, b := BelowStartsLater(blank, rest, t + post);
    Associates(rest, t, post);
    NotBelow(rest, t, post, a, b);
  }

  lemma Stripped(blank: char -> bool, pre: string, t: string, post: string) returns (lead: string, left: string)
    requires Sensible(blank) && IsBraced(t)
    ensures lead == TrimStart(blank, pre) && left == TrimEnd(blank, post)
    ensures StripCodeFence(blank, Trim(blank, pre + t + post))
         == if FENCE <= lead then Fenced(blank, lead[|FENCE|..] + (t + left)) else lead + (t + left)
  {
    lead, left := TrimStart(blank, pre), TrimEnd(blank, post);
    TrimKeeps(blank, pre, t, post);
    Associates(lead, t, left);
    FenceIsInLead(blank, lead, t + left);
  }

  lemma KeptBySurvivors(blank: char -> bool, pre: string, t: string, post: string) returns (before: string, left: string)
    requires Sensible(blank) && '{' !in pre && IsBraced(t) && Survives(blank, pre, t, post)
    ensures StripCodeFence(blank, Trim(blank, pre + t + post)) == before + t + left && '{' !in before
  {
    before, left := Stripped(blank, pre, t, post);
    if FENCE <= before {
      before, left := FencedSurvives(blank, before[|FENCE|..], t, left);
    } else {
      Associates(before, t, left);
    }
  }

  /** Whatever follows it, braces included, an object that survives the stripping is
      the one the verdict is read from. */
  lemma SurvivorIsRead(blank: char -> bool, pre: string, o: Json, post: string)
    requires Sensible(blank) && '{' !in pre && o.ObjectOf? && ProperJson(o) && Survives(blank, pre, Text(o), post)
    ensures ObjectIn(blank, pre + Text(o) + post) == Some(Text(o))
  {
    var tree := ObjectText(o, post);
    var before, left := KeptBySurvivors(blank, pre, Text(o), post);
    AnyObjectIsFound(before, o, left);
  }

  /** Otherwise the answer opens with a fence and the line break that ends the fence's
      line comes only after the object has begun, so the stripping takes its beginning
      away. What is read is then something else, unless what follows repeats the
      object, which takes a closing brace. */
  lemma ObjectIsReadIff(blank: char -> bool, pre: string, o: Json, post: string)
    requires Sensible(blank) && '{' !in pre && o.ObjectOf? && ProperJson(o)
    ensures Survives(blank, pre, Text(o), post) ==> ObjectIn(blank, pre + Text(o) + post) == Some(Text(o))
    ensures '}' !in post ==> (ObjectIn(blank, pre + Text(o) + post) == Some(Text(o)) <==> Survives(blank, pre, Text(o), post))
  {
    var tree := ObjectText(o, post);
    if Survives(blank, pre, Text(o), post) {
      SurvivorIsRead(blank, pre, o, post);
    } else if '}' !in post {
      var lead, left := Stripped(blank, pre, Text(o), post);
      FencedIsLost(blank, lead[|FENCE|..], Text(o), left);
    }
  }

  /** Whatever follows, nothing of the answer up to and with the object's opening
      brace is left to be scanned: this object is not read. */
  lemma BeginningIsCutOff(blank: char -> bool, pre: string, t: string, post: string) returns (a: nat, b: nat)
    requires Sensible(blank) && IsBraced(t) && !Survives(blank, pre, t, post)
    ensures 0 < a <= b <= |t + post| && StripCodeFence(blank, Trim(blank, pre + t + post)) == (t + post)[a..b]
  {
    var lead, left := Stripped(blank, pre, t, post);
    var rest := lead[|FENCE|..];
    var i, j := BelowStartsLater(blank, rest, t + left);
    a, b := SliceAfter(rest, t + left, i, j);
    SliceWithin(t, left, post, a, b);
  }

  lemma SliceAfter(rest: string, after: string, i: nat, j: nat) returns (a: nat, b: nat)
    requires |rest| < i <= j <= |rest + after|
    ensures 0 < a <= b <= |after| && (rest + after)[i..j] == after[a..b]
  {
    a, b := i - |rest|, j - |rest|;
  }

  lemma SliceWithin(t: string, left: string, post: string, a: nat, b: nat)
    requires left <= post && a <= b <= |t + left|
    ensures b <= |t + post| && (t + left)[a..b] == (t + post)[a..b]
  {
    assert (t + post)[..|t + left|] == t + left;
  }

  lemma FenceIsInLead(blank: char -> bool, lead: string, s: string)
    requires s != "" && s[0] == '{'
    ensures StripCodeFence(blank, lead + s) == if FENCE <= lead then Fenced(blank, lead[|FENCE|..] + s) else lead + s
  {
    assert (lead + s)[|lead|] == '{';
    assert |lead| >= |FENCE| ==> (lead + s)[..|FENCE|] == lead[..|FENCE|];
    if FENCE <= lead {
      assert (lead + s)[|FENCE|..] == lead[|FENCE|..] + s;
    }
  }

  lemma FenceStays(blank: char -> bool)
    requires !blank('`')
    ensures TrimStart(blank, FENCE) == FENCE && TrimEnd(blank, FENCE) == FENCE
  {
  }

  /** The shortest answer that shows it: an object opened on the fence's own line. */
  lemma FenceLineTakesTheObject(blank: char -> bool)
    requires Sensible(blank) && !blank('`')
    ensures var o := ObjectOf("\n", NoMember);
            ProperJson(o) && Text(o) == "{\n}" && ObjectIn(blank, FENCE + Text(o) + FENCE) != Some(Text(o))
  {
    var o := ObjectOf("\n", NoMember);
    assert Text(o) == "{" + ("\n" + ("}" + "")) == "{\n}";
    FenceStays(blank);
    LineBreakLoses(blank, o, FENCE);
  }

  lemma {:induction false} LineBreakLoses(blank: char -> bool, o: Json, fence: string)
    requires Sensible(blank) && o.ObjectOf? && ProperJson(o) && |Text(o)| > 1 && Text(o)[1] == '\n'
    requires fence == FENCE && TrimStart(blank, fence) == fence && TrimEnd(blank, fence) == fence
    ensures ObjectIn(blank, fence + Text(o) + fence) != Some(Text(o))
  {
    FencedLineBreak(blank, Text(o));
    Unread(blank, fence, o, fence);
  }

  lemma Unread(blank: char -> bool, pre: string, o: Json, post: string)
    requires Sensible(blank) && '{' !in pre && '}' !in post && o.ObjectOf? && ProperJson(o) && !Survives(blank, pre, Text(o), post)
    ensures ObjectIn(blank, pre + Text(o) + post) != Some(Text(o))
  {
    ObjectIsReadIff(blank, pre, o, post);
  }

  lemma FencedLineBreak(blank: char -> bool, t: string)
    requires |t| > 1 && t[1] == '\n' && TrimStart(blank, FENCE) == FENCE && TrimEnd(blank, FENCE) == FENCE
    ensures !Survives(blank, FENCE, t, FENCE)
  {
    assert FENCE[|FENCE|..] == "" && (t + FENCE)[1] == '\n';
  }
}
