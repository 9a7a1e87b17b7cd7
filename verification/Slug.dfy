/** Names made safe for a vault (`slugify` and `safe_component` in
    `src/obsidian.rs`). Lower-casing is the library's; what comes out of it is
    the input here. */
module Slug {
  import Cut
  import opened Decimal

  const MAX_SLUG_LENGTH := 60

  predicate Alphanumeric(c: char) { 'a' <= c <= 'z' || 'A' <= c <= 'Z' || '0' <= c <= '9' }

  /** The letters and digits of a text, in order. */
  function Kept(s: string): string {
    if s == [] then [] else if Alphanumeric(s[0]) then [s[0]] + Kept(s[1..]) else Kept(s[1..])
  }

  /** Letters and digits, and between them single dashes. */
  ghost predicate Hyphenated(s: string) {
    && (forall i | 0 <= i < |s| :: Alphanumeric(s[i]) || s[i] == '-')
    && forall i | 0 < i < |s| :: s[i - 1] != '-' || s[i] != '-'
  }

  /** Where a text starts once these characters are trimmed from its front. */
  function Start(s: string, chars: set<char>): (k: nat)
    ensures k <= |s| && (k < |s| ==> s[k] !in chars)
    ensures forall i | 0 <= i < k :: s[i] in chars
  {
    if s != [] && s[0] in chars then
      var k := 1 + Start(s[1..], chars);
      assert forall i | 1 <= i < k :: s[i] == s[1..][i - 1];
      k
    else 0
  }

  /** Where it ends once they are trimmed from its back. */
  function End(s: string, chars: set<char>): (k: nat)
    ensures k <= |s| && (k > 0 ==> s[k - 1] !in chars)
    ensures forall i | k <= i < |s| :: s[i] in chars
    decreases |s|
  {
    if s != [] && s[|s| - 1] in chars then End(s[..|s| - 1], chars) else |s|
  }

  function TrimLeft(s: string, chars: set<char>): string { s[Start(s, chars)..] }

  function TrimRight(s: string, chars: set<char>): string { s[..End(s, chars)] }

  function Prefix(s: string, n: nat): string { if |s| <= n then s else s[..n] }

  /** A name somebody can cut back into its parts: no dash at either end, none
      doubled, nothing but letters, digits and dashes. */
  ghost predicate Stem(s: string) {
    Hyphenated(s) && |s| <= MAX_SLUG_LENGTH && (s != [] ==> s[0] != '-' && s[|s| - 1] != '-')
  }

  /** Every run of other characters becomes one dash. */
  function Dashed(s: string): string {
    if s == [] then []
    else
      var (d, c) := (Dashed(s[..|s| - 1]), s[|s| - 1]);
      if Alphanumeric(c) then d + [c]
      else if d == [] || d[|d| - 1] != '-' then d + ['-']
      else d
  }

  function StemOf(title: string): string {
    TrimRight(Prefix(TrimRight(TrimLeft(Dashed(title), {'-'}), {'-'}), MAX_SLUG_LENGTH), {'-'})
  }

  method Slugify(title: string, id: int) returns (name: string)
    ensures name == NoteName(title, id)
  {
    var slug := DashRuns(title);
    slug := TrimRight(TrimLeft(slug, {'-'}), {'-'});
    slug := Prefix(slug, MAX_SLUG_LENGTH);
    slug := PopDashes(slug);
    if slug == [] {
      return "observation-" + Signed(id);
    }
    return slug + "-" + Signed(id);
  }

  method DashRuns(title: string) returns (slug: string)
    ensures slug == Dashed(title)
  {
    slug := "";
    var previousWasSeparator := false;
    for i := 0 to |title|
      invariant slug == Dashed(title[..i])
      invariant previousWasSeparator <==> slug != [] && slug[|slug| - 1] == '-'
    {
      assert title[..i + 1][..i] == title[..i];
      if Alphanumeric(title[i]) {
        slug := slug + [title[i]];
        previousWasSeparator := false;
      } else if !previousWasSeparator {
        slug := slug + ['-'];
        previousWasSeparator := true;
      }
    }
    assert title[..|title|] == title;
  }

  method PopDashes(slug: string) returns (popped: string)
    ensures popped == TrimRight(slug, {'-'})
  {
    var n := |slug|;
    while n > 0 && slug[n - 1] == '-'
      invariant End(slug, {'-'}) <= n <= |slug|
    {
      n := n - 1;
    }
    return slug[..n];
  }

  function NoteStem(title: string): string { if StemOf(title) == [] then "observation" else StemOf(title) }

  /** The name of a note: always the observation's own, whatever it is titled. */
  function NoteName(title: string, id: int): string {
    NoteStem(title) + "-" + Signed(id)
  }

  lemma {:induction false} DashedIsHyphenated(s: string)
    ensures Hyphenated(Dashed(s)) && Kept(Dashed(s)) == Kept(s) && |Dashed(s)| <= |s|
    decreases |s|
  {
    if s != [] {
      var (front, c) := (s[..|s| - 1], s[|s| - 1]);
      DashedIsHyphenated(front);
      assert s == front + [c];
      KeptThen(front, c);
      KeptThen(Dashed(front), if Alphanumeric(c) then c else '-');
    }
  }

  /** A word is kept as it is, and whatever is between two words becomes one dash: with the
      trims, the cut and these two laws the stem is what it is. */
  lemma {:induction false} WordsAreKept(a: string, word: string)
    requires forall i | 0 <= i < |word| :: Alphanumeric(word[i])
    ensures Dashed(a + word) == Dashed(a) + word
  {
    if word == [] {
      assert a + word == a;
    } else {
      var (front, c) := (word[..|word| - 1], word[|word| - 1]);
      WordsAreKept(a, front);
      assert (a + word)[..|a + word| - 1] == a + front && word == front + [c];
      assert Dashed(a) + front + [c] == Dashed(a) + (front + [c]);
    }
  }

  lemma {:induction false} GapsAreDashes(a: string, gap: string)
    requires a != [] && Alphanumeric(a[|a| - 1]) && gap != [] && forall i | 0 <= i < |gap| :: !Alphanumeric(gap[i])
    ensures Dashed(a + gap) == Dashed(a) + ['-']
  {
    var front := gap[..|gap| - 1];
    assert (a + gap)[..|a + gap| - 1] == a + front;
    if front == [] {
      assert a + front == a && Dashed(a) != [] && Dashed(a)[|Dashed(a)| - 1] == a[|a| - 1];
    } else {
      GapsAreDashes(a, front);
    }
  }

  lemma HyphenatedSlice(s: string, lo: nat, hi: nat)
    requires Hyphenated(s) && lo <= hi <= |s|
    ensures Hyphenated(s[lo..hi])
  {
    forall i | 0 < i < hi - lo ensures s[lo..hi][i - 1] != '-' || s[lo..hi][i] != '-' {
      assert s[lo + i - 1] != '-' || s[lo + i] != '-';
    }
  }

  lemma TrimmedIsClean(s: string)
    requires Hyphenated(s)
    ensures var t := TrimRight(TrimLeft(s, {'-'}), {'-'});
            && Hyphenated(t) && Kept(t) == Kept(s) && |t| <= |s|
            && (t != [] ==> t[0] != '-' && t[|t| - 1] != '-')
  {
    var left := TrimLeft(s, {'-'});
    TrimLeftKeeps(s, {'-'});
    TrimRightKeeps(left, {'-'});
    HyphenatedSlice(s, Start(s, {'-'}), |s|);
    HyphenatedSlice(left, 0, End(left, {'-'}));
    assert s[Start(s, {'-'})..|s|] == left && left[0..End(left, {'-'})] == TrimRight(left, {'-'});
  }

  lemma CutIsClean(t: string)
    requires Hyphenated(t) && (t != [] ==> t[0] != '-' && t[|t| - 1] != '-')
    ensures var c := TrimRight(Prefix(t, MAX_SLUG_LENGTH), {'-'});
            && Stem(c) && Kept(c) <= Kept(t) && (c == [] <==> t == [])
            && (|t| <= MAX_SLUG_LENGTH ==> Kept(c) == Kept(t))
  {
    var cut := Prefix(t, MAX_SLUG_LENGTH);
    assert cut == t[0..|cut|] == t[..|cut|];
    HyphenatedSlice(t, 0, |cut|);
    KeptOfPrefix(t, |cut|);
    TrimmedEndIsClean(cut);
  }

  lemma TrimmedEndIsClean(cut: string)
    requires Hyphenated(cut) && (cut != [] ==> cut[0] != '-')
    ensures var c := TrimRight(cut, {'-'});
            && Hyphenated(c) && |c| <= |cut| && Kept(c) == Kept(cut) && (c == [] <==> cut == [])
            && (c != [] ==> c[0] != '-' && c[|c| - 1] != '-')
  {
    var c := TrimRight(cut, {'-'});
    TrimRightKeeps(cut, {'-'});
    assert c == cut[0..|c|];
    HyphenatedSlice(cut, 0, |c|);
    KeptStarts(cut);
  }

  /** A stem is clean, short, and made of the letters and digits of the title's
      beginning, all of them when the title is short. */
  lemma StemIsClean(title: string)
    ensures Stem(StemOf(title))
    ensures Kept(StemOf(title)) <= Kept(title)
    ensures StemOf(title) == [] <==> Kept(title) == []
    ensures |title| <= MAX_SLUG_LENGTH ==> Kept(StemOf(title)) == Kept(title)
  {
    DashedIsHyphenated(title);
    TrimmedIsClean(Dashed(title));
    var t := TrimRight(TrimLeft(Dashed(title), {'-'}), {'-'});
    CutIsClean(t);
    KeptStarts(t);
  }

  lemma KeptStarts(s: string)
    requires Hyphenated(s) && (s != [] ==> s[0] != '-')
    ensures Kept(s) == [] <==> s == []
  {
  }

  /** A note name is one component of a path: letters, digits and dashes. */
  lemma NoteNameIsSafe(title: string, id: int)
    ensures SafeText(NoteName(title, id)) && '.' !in NoteName(title, id)
  {
    StemIsPlain(title);
    SignedIsPlain(id);
    assert Plain(NoteStem(title) + "-");
    assert Plain(NoteName(title, id));
  }

  predicate PlainChar(c: char) { Alphanumeric(c) || c == '-' }

  predicate Plain(s: string) { forall i | 0 <= i < |s| :: PlainChar(s[i]) }

  lemma StemIsPlain(title: string)
    ensures Plain(NoteStem(title))
  {
    StemIsClean(title);
  }

  lemma SignedIsPlain(id: int)
    ensures Plain(Signed(id))
  {
    var digits := Digits(if id < 0 then -id else id);
    forall i | 0 <= i < |digits| ensures PlainChar(digits[i]) {
      assert IsDigit(digits[i]);
    }
  }

  /** Whatever the titles and whatever the sign of the identifiers, one note name
      is one observation's. */
  lemma NoteNamesAreApart(title: string, id: int, other: string, otherId: int)
    requires NoteName(title, id) == NoteName(other, otherId)
    ensures id == otherId
  {
    NoteStemEnds(title);
    NoteStemEnds(other);
    NamedApart(NoteStem(title), id, NoteStem(other), otherId);
  }

  lemma NoteStemEnds(title: string)
    ensures NoteStem(title) != [] && NoteStem(title)[|NoteStem(title)| - 1] != '-'
  {
    StemIsClean(title);
  }

  /** The minus sign of an identifier cannot be mistaken for the end of a stem. */
  function Sign(id: int): string { if id < 0 then "-" else "" }

  lemma SignBeforeDash(stem: string, id: int)
    ensures stem + "-" + Signed(id) == (stem + Sign(id)) + ['-'] + Digits(if id < 0 then -id else id)
  {
  }

  lemma NamedApart(stem: string, id: int, other: string, otherId: int)
    requires stem != [] && stem[|stem| - 1] != '-' && other != [] && other[|other| - 1] != '-'
    requires stem + "-" + Signed(id) == other + "-" + Signed(otherId)
    ensures id == otherId
  {
    var (m, n) := (if id < 0 then -id else id, if otherId < 0 then -otherId else otherId);
    SignBeforeDash(stem, id);
    SignBeforeDash(other, otherId);
    Cut.AtLast(stem + Sign(id), Digits(m), other + Sign(otherId), Digits(n), '-');
    ValueOfDigits(m);
    ValueOfDigits(n);
    LastOf(stem, Sign(id));
    LastOf(other, Sign(otherId));
  }

  lemma LastOf(stem: string, sign: string)
    requires stem != [] && sign in {"", "-"}
    ensures (stem + sign)[|stem + sign| - 1] == if sign == "" then stem[|stem| - 1] else '-'
  {
  }

  /// Components

  function Replaced(value: string): (r: string)
    ensures |r| == |value|
    ensures forall i | 0 <= i < |value| :: r[i] == if Alphanumeric(value[i]) || value[i] in {'-', '_', '.'} then value[i] else '-'
  {
    seq(|value|, i requires 0 <= i < |value| => if Alphanumeric(value[i]) || value[i] in {'-', '_', '.'} then value[i] else '-')
  }

  function SafeComponent(value: string): string {
    var safe := TrimRight(TrimLeft(Replaced(value), {'.', '-'}), {'.', '-'});
    if safe == [] then "unnamed" else Prefix(safe, MAX_SLUG_LENGTH)
  }

  predicate SafeText(s: string) {
    forall i | 0 <= i < |s| :: Alphanumeric(s[i]) || s[i] in {'-', '_', '.'}
  }

  /** One component of a path and never a way out of the directory: no separator,
      not empty, and not starting with a dot. */
  lemma SafeComponentIsSafe(value: string)
    ensures var safe := SafeComponent(value);
            0 < |safe| <= MAX_SLUG_LENGTH && safe[0] !in {'.', '-'} && SafeText(safe)
  {
    SafeSlice(Replaced(value), Start(Replaced(value), {'.', '-'}), |value|);
    var left := TrimLeft(Replaced(value), {'.', '-'});
    assert left == Replaced(value)[Start(Replaced(value), {'.', '-'})..|value|];
    SafeSlice(left, 0, |Prefix(TrimRight(left, {'.', '-'}), MAX_SLUG_LENGTH)|);
    assert Prefix(TrimRight(left, {'.', '-'}), MAX_SLUG_LENGTH) == left[0..|Prefix(TrimRight(left, {'.', '-'}), MAX_SLUG_LENGTH)|];
  }

  lemma SafeSlice(s: string, lo: nat, hi: nat)
    requires SafeText(s) && lo <= hi <= |s|
    ensures SafeText(s[lo..hi])
  {
  }

  lemma {:induction false} KeptThen(s: string, c: char)
    ensures Kept(s + [c]) == Kept(s) + if Alphanumeric(c) then [c] else []
  {
    if s == [] {
      assert s + [c] == [c];
    } else {
      KeptThen(s[1..], c);
      assert (s + [c])[1..] == s[1..] + [c];
    }
  }

  lemma {:induction false} KeptOfPrefix(s: string, n: nat)
    requires n <= |s|
    ensures Kept(s[..n]) <= Kept(s)
    decreases n
  {
    if n > 0 {
      KeptOfPrefix(s[1..], n - 1);
      assert s[..n][1..] == s[1..][..n - 1];
    }
  }

  lemma {:induction false} KeptJoins(a: string, b: string)
    ensures Kept(a + b) == Kept(a) + Kept(b)
  {
    if a == [] {
      assert a + b == b;
    } else {
      KeptJoins(a[1..], b);
      assert (a + b)[1..] == a[1..] + b;
    }
  }

  lemma {:induction false} KeptNothing(s: string)
    requires forall i | 0 <= i < |s| :: !Alphanumeric(s[i])
    ensures Kept(s) == []
  {
    if s != [] { KeptNothing(s[1..]); }
  }

  lemma TrimLeftKeeps(s: string, chars: set<char>)
    requires forall c | c in chars :: !Alphanumeric(c)
    ensures Kept(TrimLeft(s, chars)) == Kept(s)
  {
    var k := Start(s, chars);
    KeptNothing(s[..k]);
    KeptJoins(s[..k], s[k..]);
    assert s == s[..k] + s[k..];
  }

  lemma TrimRightKeeps(s: string, chars: set<char>)
    requires forall c | c in chars :: !Alphanumeric(c)
    ensures Kept(TrimRight(s, chars)) == Kept(s)
  {
    var k := End(s, chars);
    KeptNothing(s[k..]);
    KeptJoins(s[..k], s[k..]);
    assert s == s[..k] + s[k..];
  }
}
