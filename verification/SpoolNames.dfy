/** What the spool's file names say (`src/hooks/spool.rs`): their order is the
    order of writing, their first field is the time, and only captures end in
    `.json`. */
module SpoolNames {
  import Cut
  import opened Decimal
  import opened Sorting
  import opened Text
  import opened Wrappers

  const SPOOL_CAP := 1_000
  const RETENTION_MILLIS := 7 * 24 * 60 * 60 * 1_000
  const MIN_I64 := -0x8000_0000_0000_0000
  const MAX_I64 := 0x7FFF_FFFF_FFFF_FFFF

  /// The names

  function EntryName(millis: nat, pid: nat, counter: nat): string {
    Padded(millis, 13) + "-" + Writer(pid, counter)
  }

  /** The part of the name that tells two writes of one millisecond apart. */
  function Writer(pid: nat, counter: nat): string {
    Padded(pid, 10) + "-" + (Padded(counter, 6) + ".json")
  }

  function TemporaryName(name: string): string { name + ".tmp" }

  function MarkerName(name: string): string { name + ".claim" }

  function ClaimedName(name: string, pid: nat): string { name + (".claimed-" + Digits(pid)) }

  predicate EndsWith(s: string, suffix: string) {
    |s| >= |suffix| && s[|s| - |suffix|..] == suffix
  }

  predicate IsEntry(name: string) { EndsWith(name, ".json") }

  /** The text before the first dash, all of it if there is none. */
  function FirstField(name: string): string {
    if name == [] || name[0] == '-' then [] else [name[0]] + FirstField(name[1..])
  }

  /** `str::parse::<i64>`. */
  function ParseI64(s: string): Option<int> {
    var digits := if s != [] && s[0] in ['+', '-'] then s[1..] else s;
    if digits == [] || !AllDigits(digits) then None
    else
      var v: int := if s[0] == '-' then 0 - Value(digits) else Value(digits);
      if MIN_I64 <= v <= MAX_I64 then Some(v) else None
  }

  function EntryMillis(name: string): Option<int> { ParseI64(FirstField(name)) }

  /// Reading the time back

  lemma {:induction false} FirstFieldOf(field: string, rest: string)
    requires '-' !in field
    ensures FirstField(field + "-" + rest) == field
  {
    var s := field + "-" + rest;
    if field != [] {
      assert s[1..] == field[1..] + "-" + rest;
      FirstFieldOf(field[1..], rest);
    }
  }

  /** Whatever is appended to an entry's name, its time is read back. */
  lemma MillisReadBack(millis: nat, pid: nat, counter: nat, suffix: string)
    requires millis <= MAX_I64
    ensures EntryMillis(EntryName(millis, pid, counter) + suffix) == Some(millis)
  {
    var (field, rest) := (Padded(millis, 13), Writer(pid, counter));
    ThenSuffix(field, rest, suffix);
    FirstFieldOf(field, rest + suffix);
    ParsesPadded(millis, 13);
  }

  lemma ParsesPadded(n: nat, width: nat)
    requires n <= MAX_I64
    ensures ParseI64(Padded(n, width)) == Some(n)
  {
    ValueOfPadded(n, width);
  }

  lemma ThenSuffix(field: string, rest: string, suffix: string)
    ensures (field + "-" + rest) + suffix == field + "-" + (rest + suffix)
  {
  }

  lemma NoSuffix(s: string)
    ensures s + "" == s
  {
  }

  /** An entry's own name, and each name made from it. */
  lemma EveryFormKeepsItsTime(millis: nat, pid: nat, counter: nat, claimer: nat)
    requires millis <= MAX_I64
    ensures var name := EntryName(millis, pid, counter);
            && EntryMillis(name) == Some(millis)
            && EntryMillis(TemporaryName(name)) == Some(millis)
            && EntryMillis(MarkerName(name)) == Some(millis)
            && EntryMillis(ClaimedName(name, claimer)) == Some(millis)
  {
    var name := EntryName(millis, pid, counter);
    assert name + "" == name by { NoSuffix(name); }
    MillisReadBack(millis, pid, counter, "");
    MillisReadBack(millis, pid, counter, ".tmp");
    MillisReadBack(millis, pid, counter, ".claim");
    MillisReadBack(millis, pid, counter, ".claimed-" + Digits(claimer));
  }

  lemma EndsAsWritten(s: string, suffix: string)
    requires suffix != []
    ensures (s + suffix)[|s| + |suffix| - 1] == suffix[|suffix| - 1] && EndsWith(s + suffix, suffix)
  {
  }

  lemma NotAnEntry(name: string)
    requires name != [] && name[|name| - 1] != 'n'
    ensures !IsEntry(name)
  {
    var json := ".json";
    if |name| >= 5 {
      assert name[|name| - 5..][4] != json[4];
    }
  }

  /** A drain enumerates entries and nothing made from one. */
  lemma OnlyEntriesAreEntries(millis: nat, pid: nat, counter: nat, name: string, claimer: nat)
    ensures IsEntry(EntryName(millis, pid, counter))
    ensures !IsEntry(TemporaryName(name)) && !IsEntry(MarkerName(name)) && !IsEntry(ClaimedName(name, claimer))
  {
    EndsInJson(Padded(millis, 13), Padded(pid, 10), Padded(counter, 6));
    EndsAsWritten(name, ".tmp");
    NotAnEntry(TemporaryName(name));
    EndsAsWritten(name, ".claim");
    NotAnEntry(MarkerName(name));
    EndsAsWritten(".claimed-", Digits(claimer));
    EndsAsWritten(name, ".claimed-" + Digits(claimer));
    NotAnEntry(ClaimedName(name, claimer));
  }

  lemma EndsInJson(a: string, b: string, c: string)
    ensures IsEntry(a + "-" + (b + "-" + (c + ".json")))
  {
    var s := a + "-" + (b + "-" + (c + ".json"));
    assert s[|s| - 5..] == ".json";
  }

  lemma SameBeforeSuffix(a: string, b: string, suffix: string)
    requires a + suffix == b + suffix
    ensures a == b
  {
    assert |a| == |b|;
    assert a == (a + suffix)[..|a|] && b == (b + suffix)[..|b|];
  }

  lemma PaddedApart(m: nat, n: nat, width: nat)
    requires Padded(m, width) == Padded(n, width)
    ensures m == n
  {
    ValueOfPadded(m, width);
    ValueOfPadded(n, width);
  }

  lemma WritersAreApart(p: nat, k: nat, q: nat, l: nat)
    requires Writer(p, k) == Writer(q, l)
    ensures p == q && k == l
  {
    Cut.AtFirst(Padded(p, 10), Padded(k, 6) + ".json", Padded(q, 10), Padded(l, 6) + ".json", '-');
    SameBeforeSuffix(Padded(k, 6), Padded(l, 6), ".json");
    PaddedApart(p, q, 10);
    PaddedApart(k, l, 6);
  }

  /** No two writes share a name, whatever the fields run to. */
  lemma EntryNamesAreApart(m: nat, p: nat, k: nat, n: nat, q: nat, l: nat)
    requires EntryName(m, p, k) == EntryName(n, q, l)
    ensures m == n && p == q && k == l
  {
    Cut.AtFirst(Padded(m, 13), Writer(p, k), Padded(n, 13), Writer(q, l), '-');
    PaddedApart(m, n, 13);
    WritersAreApart(p, k, q, l);
  }

  /// The order of the names

  lemma TenTimes(d: nat, p: nat, v: nat, last: nat)
    ensures 10 * (d * p + v) + last == d * (10 * p) + (10 * v + last)
  {
    assert 10 * (d * p) == d * (10 * p);
  }

  lemma {:induction false} ValueFromTheFront(s: string)
    requires s != [] && AllDigits(s)
    ensures Value(s) == (s[0] - '0') as nat * Pow10(|s| - 1) + Value(s[1..])
    decreases |s|
  {
    if |s| > 1 {
      var front := s[..|s| - 1];
      ValueFromTheFront(front);
      assert s[1..][..|s| - 2] == front[1..];
      TenTimes((s[0] - '0') as nat, Pow10(|s| - 2), Value(front[1..]), (s[|s| - 1] - '0') as nat);
    }
  }

  /** Numbers of one width sort as text the way they sort as numbers. */
  lemma {:induction false} WidthOrders(s: string, t: string, x: string, y: string)
    requires AllDigits(s) && AllDigits(t) && |s| == |t| && Value(s) < Value(t)
    ensures Le(s + x, t + y) && s + x != t + y
    decreases |s|
  {
    ValueFromTheFront(s);
    ValueFromTheFront(t);
    ValueIsSmall(s[1..]);
    ValueIsSmall(t[1..]);
    var (c, d, p) := ((s[0] - '0') as nat, (t[0] - '0') as nat, Pow10(|s| - 1));
    assert (s + x)[0] == s[0] && (t + y)[0] == t[0];
    if c > d {
      MulStep(d, c, p);
      assert false;
    } else if c == d {
      WidthOrders(s[1..], t[1..], x, y);
      assert (s + x)[1..] == s[1..] + x && (t + y)[1..] == t[1..] + y;
    }
  }

  lemma MulStep(d: nat, c: nat, p: nat)
    requires d < c
    ensures d * p + p <= c * p
  {
    assert (d + 1) * p <= c * p;
  }

  /** Sorting the names of one millisecond era is sorting by time. */
  lemma NamesSortByTime(m: nat, p: nat, k: nat, n: nat, q: nat, l: nat)
    requires m < n < Pow10(13)
    ensures Le(EntryName(m, p, k), EntryName(n, q, l)) && EntryName(m, p, k) != EntryName(n, q, l)
  {
    PaddedWidth(m, 13);
    PaddedWidth(n, 13);
    PaddedFirst(Padded(m, 13), Padded(n, 13), Writer(p, k), Writer(q, l));
  }

  /** Where a number first needs another digit. */
  lemma {:induction false} LeadingDigits(k: nat)
    requires k >= 1
    ensures |Digits(Pow10(k))| == k + 1 && Digits(Pow10(k))[0] == '1'
    ensures |Digits(Pow10(k) - 1)| == k && Digits(Pow10(k) - 1)[0] == '9'
  {
    if k > 1 {
      LeadingDigits(k - 1);
      PowerSteps(k);
      OneMoreDigit(Pow10(k));
      OneMoreDigit(Pow10(k) - 1);
    } else {
      assert Pow10(1) == 10 && Digits(10) == Digits(1) + [Digit(0)];
    }
  }

  lemma PowerSteps(k: nat)
    requires k > 1
    ensures Pow10(k) > 10 && Pow10(k) / 10 == Pow10(k - 1) && (Pow10(k) - 1) / 10 == Pow10(k - 1) - 1
  {
    assert Pow10(k) == 10 * Pow10(k - 1) && Pow10(k - 1) == 10 * Pow10(k - 2);
  }

  lemma {:induction false} OneMoreDigit(n: nat)
    requires n >= 10
    ensures |Digits(n)| == |Digits(n / 10)| + 1 && Digits(n)[0] == Digits(n / 10)[0]
  {
  }

  ghost predicate SortsByTime(era: nat) {
    forall m: nat, p: nat, k: nat, n: nat, q: nat, l: nat | m < n < era :: Le(EntryName(m, p, k), EntryName(n, q, l))
  }

  lemma UnsortedAfter(era: nat)
    requires era > Pow10(13)
    ensures !SortsByTime(era)
  {
    var last: nat := Pow10(13) - 1;
    EraEnds(13);
    assert last < last + 1 < era;
  }

  /** The thirteen digits of padding are good until the clock needs a fourteenth,
      and not a millisecond longer. */
  lemma SortsByTimeIff(era: nat)
    ensures SortsByTime(era) <==> era <= Pow10(13)
  {
    if era <= Pow10(13) {
      forall m: nat, p: nat, k: nat, n: nat, q: nat, l: nat | m < n < era
        ensures Le(EntryName(m, p, k), EntryName(n, q, l))
      {
        NamesSortByTime(m, p, k, n, q, l);
      }
    } else {
      UnsortedAfter(era);
    }
  }

  lemma EraEnds(width: nat)
    requires width >= 13
    ensures !Le(EntryName(Pow10(width) - 1, 0, 0), EntryName(Pow10(width), 0, 0))
  {
    var n := Pow10(width);
    LeadingDigits(width);
    FirstCharacters(n - 1, n);
  }

  lemma FirstCharacters(m: nat, n: nat)
    requires |Digits(m)| >= 13 && |Digits(n)| >= 13 && Digits(m)[0] > Digits(n)[0]
    ensures !Le(EntryName(m, 0, 0), EntryName(n, 0, 0))
  {
    assert EntryName(m, 0, 0)[0] == Digits(m)[0] && EntryName(n, 0, 0)[0] == Digits(n)[0];
  }

  lemma PaddedWidth(m: nat, width: nat)
    requires width >= 1 && m < Pow10(width)
    ensures |Padded(m, width)| == width && Value(Padded(m, width)) == m
  {
    DigitsFit(m, width);
    ValueOfPadded(m, width);
  }

  lemma PaddedFirst(s: string, t: string, x: string, y: string)
    requires AllDigits(s) && AllDigits(t) && |s| == |t| && Value(s) < Value(t)
    ensures Le(s + "-" + x, t + "-" + y) && s + "-" + x != t + "-" + y
  {
    WidthOrders(s, t, "-" + x, "-" + y);
    assert s + "-" + x == s + ("-" + x) && t + "-" + y == t + ("-" + y);
  }

  /// The directory

  function SaturatingSub(a: int, b: int): int {
    var d := a - b;
    if d < MIN_I64 then MIN_I64 else if d > MAX_I64 then MAX_I64 else d
  }

  /** The age `sweep` goes by: the name's own time, the file's where the name has none. */
  function Age(name: string, modified: Option<int>, now: int): Option<int> {
    if EntryMillis(name).Some? then Some(SaturatingSub(now, EntryMillis(name).value))
    else if modified.Some? then Some(SaturatingSub(now, modified.value))
    else None
  }

  predicate TooOld(name: string, modified: Option<int>, now: int) {
    Age(name, modified, now).Some? && Age(name, modified, now).value > RETENTION_MILLIS
  }

  /** What a time is written as reads back, and nothing past 64 bits does. */
  lemma ParsesIff(i: int)
    ensures ParseI64(Signed(i)) == if MIN_I64 <= i <= MAX_I64 then Some(i) else None
  {
    if i < 0 { ParsesNegative(-i); } else { ParsesPositive(i); }
  }

  lemma {:induction false} ParsesNegative(n: nat)
    ensures ParseI64("-" + Digits(n)) == if n <= 0x8000_0000_0000_0000 then Some(0 - n) else None
  {
    var s := "-" + Digits(n);
    ValueOfDigits(n);
    assert s[0] == '-' && s[1..] == Digits(n);
  }

  lemma {:induction false} ParsesPositive(n: nat)
    ensures ParseI64(Digits(n)) == if n <= MAX_I64 then Some(n) else None
  {
    ValueOfDigits(n);
    assert IsDigit(Digits(n)[0]);
  }

  /** A week and no longer: by its name's own time for all that is made from an entry,
      by the file's for anything else, and never what has neither. */
  lemma SweptIff(name: string, modified: Option<int>, now: int)
    requires MIN_I64 <= now <= MAX_I64
    ensures TooOld(name, modified, now) <==>
              if EntryMillis(name).Some? then now - EntryMillis(name).value > 604_800_000
              else modified.Some? && now - modified.value > 604_800_000
  {
  }

  /** A marker left behind is swept when its entry is, whenever either was written last. */
  lemma AgesWithItsMarker(millis: nat, pid: nat, counter: nat, modified: Option<int>, markerModified: Option<int>, now: int)
    requires millis <= MAX_I64
    ensures var name := EntryName(millis, pid, counter); TooOld(MarkerName(name), markerModified, now) <==> TooOld(name, modified, now)
  {
    EveryFormKeepsItsTime(millis, pid, counter, 0);
  }

  /** Oldest first: the names of the entries, sorted. */
  ghost predicate Listing(files: map<string, Option<int>>, listed: seq<string>) {
    && Sorted(Le, listed) && Distinct(listed)
    && forall n :: n in listed <==> n in files && IsEntry(n)
  }

  class Directory {
    /** Each file with the time the file system says it was last changed. */
    var files: map<string, Option<int>>

    constructor ()
      ensures files == map[]
    {
      files := map[];
    }

    method Entries() returns (found: seq<string>)
      ensures Listing(files, found)
    {
      found := [];
      var left := files.Keys;
      while left != {}
        invariant left <= files.Keys && Distinct(found)
        invariant forall n :: n in found <==> n in files && n !in left && IsEntry(n)
        decreases left
      {
        var n :| n in left;
        if IsEntry(n) {
          found := found + [n];
        }
        left := left - {n};
      }
      LeIsAnOrder();
      SortByIsSorted(Le, found);
      found := SortBy(Le, found);
    }

    /** Removes what is past its retention, entries, markers and claimed litter
        alike, and nothing else. */
    method Sweep(now: int)
      modifies this
      ensures files == map n | n in old(files) && !TooOld(n, old(files)[n], now) :: old(files)[n]
    {
      var left := files.Keys;
      while left != {}
        invariant left <= files.Keys
        invariant files == map n | n in old(files) && (n in left || !TooOld(n, old(files)[n], now)) :: old(files)[n]
        decreases left
      {
        var n :| n in left;
        if TooOld(n, files[n], now) {
          files := files - {n};
        }
        left := left - {n};
      }
    }

    /** Drops the oldest entries past the cap: the newest thousand stay, each
        of them after every entry that went, and nothing else is touched. */
    method EnforceCap()
      modifies this
      ensures forall n | n in files :: n in old(files) && files[n] == old(files)[n]
      ensures forall n | n in old(files) && !IsEntry(n) :: n in files
      ensures forall g, k | g in old(files) && g !in files && k in files && IsEntry(k) :: Le(g, k) && g != k
      ensures forall listed :: old(Listing(files, listed)) ==>
                Listing(files, if |listed| <= 1000 then listed else listed[|listed| - 1000..])
    {
      var entries := Entries();
      ghost var before := files;
      if |entries| > SPOOL_CAP {
        RemoveFirst(entries, |entries| - SPOOL_CAP);
        Trimmed(before, entries, |entries| - SPOOL_CAP);
      }
      forall listed | Listing(before, listed) ensures listed == entries {
        OneListing(before, listed, entries);
      }
    }

    /** `drain` of the oldest: the first `n` of these names go. */
    method RemoveFirst(entries: seq<string>, n: nat)
      requires n <= |entries|
      modifies this
      ensures files == old(files) - (set j | 0 <= j < n :: entries[j])
    {
      for i := 0 to n
        invariant files == old(files) - (set j | 0 <= j < i :: entries[j])
      {
        files := files - {entries[i]};
      }
    }
  }

  lemma OneListing(files: map<string, Option<int>>, listed: seq<string>, other: seq<string>)
    requires Listing(files, listed) && Listing(files, other)
    ensures listed == other
  {
    LeIsAntisymmetric(listed);
    SortedIsUnique(Le, listed, other);
  }

  lemma Trimmed(files: map<string, Option<int>>, listed: seq<string>, n: nat)
    requires Listing(files, listed) && n <= |listed|
    ensures var after := files - (set j | 0 <= j < n :: listed[j]);
            && Listing(after, listed[n..])
            && forall g, k | g in files && g !in after && k in after && IsEntry(k) :: Le(g, k) && g != k
  {
  }
}
