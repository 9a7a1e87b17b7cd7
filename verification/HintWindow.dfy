/** What a conversation remembers between prompts (`src/hooks/nudge.rs`): which
    memories the hint has already named, and when the reminder last fired. */
module HintWindow {
  import opened Sorting
  import opened Wrappers

  const RECALL_LIMIT := 3
  const LONGEST_CONVERSATION_PROMPTS := 400
  const MAX_REMEMBERED := RECALL_LIMIT * LONGEST_CONVERSATION_PROMPTS

  const NUDGE_COOLDOWN_MINUTES := 15
  const NUDGE_WARMUP_MINUTES := 5

  /** A memory that matches a prompt, and whether something is said against it. */
  datatype Match = Match(id: int, caveated: bool)

  /** What the reminder looks at, in seconds; `Mute` when reminders are off or the
      session cannot be read. */
  datatype Clock = Mute | Reading(now: int, startedAt: int, lastSave: Option<int>)

  /** Matches are `None` when the search fails. */
  datatype Event = Prompt(matches: Option<seq<Match>>, clock: Clock) | Compaction

  datatype Memory = Memory(shown: seq<int>, lastNudge: Option<int>)

  /// The two decisions

  function Pushed(shown: seq<int>, ids: seq<int>): (r: seq<int>)
    ensures shown <= r && |r| <= |shown| + |ids|
  {
    if ids == [] then shown
    else
      var front := Pushed(shown, ids[..|ids| - 1]);
      if ids[|ids| - 1] in front then front else front + [ids[|ids| - 1]]
  }

  function Newest(s: seq<int>, n: nat): seq<int> { if |s| > n then s[|s| - n..] else s }

  function Remembered(shown: seq<int>, ids: seq<int>): seq<int> { Newest(Pushed(shown, ids), MAX_REMEMBERED) }

  function Retained(matches: seq<Match>, shown: seq<int>): (r: seq<Match>)
    ensures |r| <= |matches| && forall m :: m in r <==> m in matches && (m.id !in shown || m.caveated)
  {
    if matches == [] then []
    else
      var (front, last) := (Retained(matches[..|matches| - 1], shown), matches[|matches| - 1]);
      assert matches == matches[..|matches| - 1] + [last];
      if last.id !in shown || last.caveated then front + [last] else front
  }

  /** What is kept stays in the order it was found. */
  lemma {:induction false} KeptInOrder(a: seq<Match>, b: seq<Match>, shown: seq<int>)
    ensures Retained(a + b, shown) == Retained(a, shown) + Retained(b, shown)
  {
    if b == [] {
      assert a + b == a;
    } else {
      var (front, last) := (b[..|b| - 1], b[|b| - 1]);
      var kept := if last.id !in shown || last.caveated then [last] else [];
      KeptInOrder(a, front, shown);
      assert (a + b)[..|a + b| - 1] == a + front;
      assert Retained(b, shown) == Retained(front, shown) + kept;
      assert Retained(a, shown) + (Retained(front, shown) + kept) == Retained(a, shown) + Retained(front, shown) + kept;
    }
  }

  function Ids(named: seq<Match>): (r: seq<int>)
    ensures |r| == |named| && forall i | 0 <= i < |r| :: r[i] == named[i].id
  {
    seq(|named|, i requires 0 <= i < |named| => named[i].id)
  }

  /** Whole minutes, towards zero. */
  function Minutes(seconds: int): int { if seconds >= 0 then seconds / 60 else -(-seconds / 60) }

  predicate Due(clock: Clock, lastNudge: Option<int>) {
    && clock.Reading?
    && Minutes(clock.now - clock.startedAt) >= NUDGE_WARMUP_MINUTES
    && (var since := if clock.lastSave.Some? && clock.lastSave.value > clock.startedAt then clock.lastSave.value else clock.startedAt;
        Minutes(clock.now - since) >= NUDGE_COOLDOWN_MINUTES)
    && (lastNudge.Some? ==> Minutes(clock.now - lastNudge.value) >= NUDGE_COOLDOWN_MINUTES)
  }

  /** In seconds: five minutes into the session, a quarter of an hour after its start and
      after anything saved since, and a quarter of an hour after the last reminder. */
  lemma DueIff(now: int, startedAt: int, lastSave: Option<int>, lastNudge: Option<int>)
    ensures Due(Reading(now, startedAt, lastSave), lastNudge) <==>
              && now - startedAt >= 900
              && (lastSave.Some? && lastSave.value > startedAt ==> now - lastSave.value >= 900)
              && (lastNudge.Some? ==> now - lastNudge.value >= 900)
    ensures !Due(Mute, lastNudge)
  {
    forall x: int ensures Minutes(x) >= 15 <==> x >= 900 { QuarterHour(x); }
    assert now - startedAt >= 900 ==> Minutes(now - startedAt) >= 5;
  }

  lemma QuarterHour(x: int)
    ensures Minutes(x) >= 15 <==> x >= 900
  {
  }

  /** Whole minutes of a time to come are counted down to, not away from, zero. */
  lemma MinutesRoundToZero(x: int)
    ensures Minutes(-x) == -Minutes(x) && (x >= 0 ==> 60 * Minutes(x) <= x < 60 * Minutes(x) + 60)
  {
  }

  /// The code

  class SessionState {
    var shown: seq<int>
    var lastNudge: Option<int>

    constructor ()
      ensures Value() == Memory([], None)
    {
      shown, lastNudge := [], None;
    }

    ghost function Value(): Memory
      reads this
    {
      Memory(shown, lastNudge)
    }

    method Remember(ids: seq<int>)
      modifies this`shown
      ensures shown == Remembered(old(shown), ids)
    {
      for i := 0 to |ids|
        invariant shown == Pushed(old(shown), ids[..i])
      {
        assert ids[..i + 1][..i] == ids[..i];
        if ids[i] !in shown {
          shown := shown + [ids[i]];
        }
      }
      assert ids[..|ids|] == ids;
      if |shown| > MAX_REMEMBERED {
        shown := shown[|shown| - MAX_REMEMBERED..];
      }
    }

    /** The reminder, stamped on this state when it fires. */
    method SaveNudge(clock: Clock) returns (fired: bool)
      modifies this`lastNudge
      ensures fired <==> Due(clock, old(lastNudge))
      ensures lastNudge == if fired then Some(clock.now) else old(lastNudge)
    {
      if clock == Mute {
        return false;
      }
      if Minutes(clock.now - clock.startedAt) < NUDGE_WARMUP_MINUTES {
        return false;
      }
      var since := clock.startedAt;
      if clock.lastSave.Some? && clock.lastSave.value > since {
        since := clock.lastSave.value;
      }
      if Minutes(clock.now - since) < NUDGE_COOLDOWN_MINUTES {
        return false;
      }
      if lastNudge.Some? && Minutes(clock.now - lastNudge.value) < NUDGE_COOLDOWN_MINUTES {
        return false;
      }
      lastNudge := Some(clock.now);
      return true;
    }

    method UserPromptSubmit(matches: Option<seq<Match>>, clock: Clock) returns (named: seq<Match>, reminded: bool)
      modifies this
      ensures named == Named(old(Value()), Prompt(matches, clock)) && (reminded <==> Due(clock, old(lastNudge)))
      ensures Value() == Next(old(Value()), Prompt(matches, clock))
    {
      named := PromptRecall(matches, shown);
      Remember(Ids(named));
      reminded := SaveNudge(clock);
    }

    /** Clears what was named, and leaves the reminder's clock alone. */
    method PostCompaction()
      modifies this`shown
      ensures Value() == Next(old(Value()), Compaction)
    {
      if shown != [] {
        shown := [];
      }
    }
  }

  method PromptRecall(matches: Option<seq<Match>>, alreadyShown: seq<int>) returns (named: seq<Match>)
    ensures named == if matches.Some? then Retained(matches.value, alreadyShown) else []
  {
    named := [];
    if matches == None {
      return;
    }
    var all := matches.value;
    for i := 0 to |all|
      invariant named == Retained(all[..i], alreadyShown)
    {
      assert all[..i + 1][..i] == all[..i];
      if all[i].id !in alreadyShown || all[i].caveated {
        named := named + [all[i]];
      }
    }
    assert all[..|all|] == all;
  }

  /// A whole conversation

  function Named(m: Memory, e: Event): seq<Match> {
    if e.Prompt? && e.matches.Some? then Retained(e.matches.value, m.shown) else []
  }

  predicate Reminded(m: Memory, e: Event) { e.Prompt? && Due(e.clock, m.lastNudge) }

  function Next(m: Memory, e: Event): Memory {
    match e
    case Compaction => Memory([], m.lastNudge)
    case Prompt(_, clock) =>
      Memory(Remembered(m.shown, Ids(Named(m, e))), if Due(clock, m.lastNudge) then Some(clock.now) else m.lastNudge)
  }

  /** What is remembered after a conversation so far. */
  function After(run: seq<Event>): Memory {
    if run == [] then Memory([], None) else Next(After(run[..|run| - 1]), run[|run| - 1])
  }

  /** A prompt has at most three matches. */
  predicate Proper(e: Event) { e.Prompt? && e.matches.Some? ==> |e.matches.value| <= RECALL_LIMIT }

  lemma {:induction false} PushedIsDistinct(shown: seq<int>, ids: seq<int>)
    requires Distinct(shown)
    ensures Distinct(Pushed(shown, ids)) && forall id | id in ids :: id in Pushed(shown, ids)
  {
    if ids != [] {
      PushedIsDistinct(shown, ids[..|ids| - 1]);
      assert ids == ids[..|ids| - 1] + [ids[|ids| - 1]];
    }
  }

  /** Over any conversation the list holds no id twice, and never more than 1200. */
  lemma {:induction false} ShownIsBounded(run: seq<Event>)
    ensures Distinct(After(run).shown) && |After(run).shown| <= MAX_REMEMBERED == 1200
  {
    if run != [] {
      var m := After(run[..|run| - 1]);
      ShownIsBounded(run[..|run| - 1]);
      PushedIsDistinct(m.shown, Ids(Named(m, run[|run| - 1])));
    }
  }

  /** The id that `age` others were pushed after. */
  predicate Aged(shown: seq<int>, id: int, age: nat) { age < |shown| && shown[|shown| - 1 - age] == id }

  lemma Ages(shown: seq<int>, ids: seq<int>, id: int, age: nat) returns (older: nat)
    requires Aged(shown, id, age) && age + |ids| < MAX_REMEMBERED
    ensures older <= age + |ids| && Aged(Remembered(shown, ids), id, older)
  {
    var all := Pushed(shown, ids);
    older := age + |all| - |shown|;
    assert all[|shown| - 1 - age] == id;
  }

  lemma InPrefix(shown: seq<int>, all: seq<int>, i: nat)
    requires shown <= all && i < |all|
    ensures i < |shown| ==> all[i] in shown
  {
  }

  lemma Enters(shown: seq<int>, ids: seq<int>, id: int) returns (age: nat)
    requires id !in shown && id in ids && |ids| <= RECALL_LIMIT && Distinct(shown)
    ensures age < |ids| && Aged(Remembered(shown, ids), id, age)
  {
    PushedIsDistinct(shown, ids);
    var all := Pushed(shown, ids);
    var i :| 0 <= i < |all| && all[i] == id;
    InPrefix(shown, all, i);
    age := |all| - 1 - i;
  }

  ghost predicate NamedPlainly(run: seq<Event>, i: nat, id: int)
    requires i < |run|
  {
    Match(id, false) in Named(After(run[..i]), run[i])
  }

  /** At prompt `i` the id enters the list, with a caveat or without. */
  ghost predicate EntersAt(run: seq<Event>, i: nat, id: int)
    requires i < |run|
  {
    id !in After(run[..i]).shown && id in Ids(Named(After(run[..i]), run[i]))
  }

  /** Naming a memory plainly is how one without a caveat enters. */
  lemma NamedPlainlyEnters(run: seq<Event>, i: nat, id: int)
    requires i < |run| && NamedPlainly(run, i, id)
    ensures EntersAt(run, i, id)
  {
    var named := Named(After(run[..i]), run[i]);
    var k :| 0 <= k < |named| && named[k] == Match(id, false);
    assert Ids(named)[k] == id;
  }

  lemma NextEnters(m: Memory, e: Event, id: int) returns (age: nat)
    requires Proper(e) && Distinct(m.shown) && id !in m.shown && id in Ids(Named(m, e))
    ensures age < RECALL_LIMIT && Aged(Next(m, e).shown, id, age)
  {
    age := Enters(m.shown, Ids(Named(m, e)), id);
  }

  lemma NextAges(m: Memory, e: Event, id: int, age: nat) returns (older: nat)
    requires e.Prompt? && Proper(e) && Aged(m.shown, id, age) && age + RECALL_LIMIT < MAX_REMEMBERED
    ensures older <= age + RECALL_LIMIT && Aged(Next(m, e).shown, id, older)
  {
    older := Ages(m.shown, Ids(Named(m, e)), id, age);
  }

  lemma AfterNext(run: seq<Event>, j: nat)
    requires j < |run|
    ensures After(run[..j + 1]) == Next(After(run[..j]), run[j])
  {
    assert run[..j + 1][..j] == run[..j];
  }

  /** Since an id entered at prompt `i`, each prompt has pushed it back by at most three. */
  lemma {:induction false} StaysRemembered(run: seq<Event>, i: nat, j: nat, id: int) returns (age: nat)
    requires i < j <= |run| && j - i <= LONGEST_CONVERSATION_PROMPTS && Prompts(run, i, j)
    requires EntersAt(run, i, id)
    ensures age < RECALL_LIMIT * (j - i) && Aged(After(run[..j]).shown, id, age)
    decreases j
  {
    AfterNext(run, j - 1);
    if j == i + 1 {
      ShownIsBounded(run[..i]);
      age := NextEnters(After(run[..i]), run[i], id);
    } else {
      age := StaysRemembered(run, i, j - 1, id);
      age := NextAges(After(run[..j - 1]), run[j - 1], id, age);
    }
  }

  /** From `i` up to `j` there are prompts only, and no compaction. */
  predicate Prompts(run: seq<Event>, i: nat, j: nat)
    requires i <= j <= |run|
  {
    forall k | i <= k < j :: run[k].Prompt? && Proper(run[k])
  }

  /** A memory that entered the list, with a caveat or without, is not named without
      one for the next 400 prompts, short of a compaction. */
  lemma NotNamedAgain(run: seq<Event>, i: nat, j: nat, id: int)
    requires i < j < |run| && Prompts(run, i, j)
    requires EntersAt(run, i, id) && NamedPlainly(run, j, id)
    ensures j - i > LONGEST_CONVERSATION_PROMPTS
  {
    if j - i <= LONGEST_CONVERSATION_PROMPTS {
      var age := StaysRemembered(run, i, j, id);
    }
  }

  /** A compaction lets everything be named again, and does not touch the reminder's clock. */
  lemma CompactionForgets(run: seq<Event>, matches: seq<Match>, clock: Clock)
    ensures Named(After(run + [Compaction]), Prompt(Some(matches), clock)) == matches
    ensures After(run + [Compaction]).lastNudge == After(run).lastNudge
  {
    assert (run + [Compaction])[..|run|] == run;
    RetainsAll(matches, []);
  }

  lemma {:induction false} RetainsAll(matches: seq<Match>, shown: seq<int>)
    requires forall m | m in matches :: m.id !in shown
    ensures Retained(matches, shown) == matches
  {
    if matches != [] {
      assert matches == matches[..|matches| - 1] + [matches[|matches| - 1]];
      RetainsAll(matches[..|matches| - 1], shown);
    }
  }

  lemma {:induction false} PushesAll(shown: seq<int>, ids: seq<int>)
    requires Distinct(ids) && forall id | id in ids :: id !in shown
    ensures Pushed(shown, ids) == shown + ids
  {
    if ids != [] {
      var front := ids[..|ids| - 1];
      assert ids == front + [ids[|ids| - 1]];
      PushesAll(shown, front);
    }
  }

  /// Four hundred is exact

  function Fresh(n: nat): Event { Prompt(Some([Match(3 * n, false), Match(3 * n + 1, false), Match(3 * n + 2, false)]), Mute) }

  /** Prompts that each match three memories never met before. */
  function FreshRun(n: nat): (run: seq<Event>)
    ensures |run| == n && forall k | 0 <= k < n :: run[k] == Fresh(k)
  {
    if n == 0 then [] else FreshRun(n - 1) + [Fresh(n - 1)]
  }

  function Range(from: int, n: nat): (s: seq<int>)
    ensures |s| == n && forall i | 0 <= i < n :: s[i] == from + i
  {
    seq(n, i => from + i)
  }

  lemma FreshNext(m: Memory, n: nat)
    requires m.shown == Range(0, 3 * n)
    ensures Named(m, Fresh(n)) == Fresh(n).matches.value
    ensures Next(m, Fresh(n)).shown == Newest(Range(0, 3 * n + 3), MAX_REMEMBERED)
  {
    var all := Fresh(n).matches.value;
    var ids := [3 * n, 3 * n + 1, 3 * n + 2];
    RetainsAll(all, m.shown);
    assert Ids(all) == ids;
    PushesAll(m.shown, ids);
    assert m.shown + ids == Range(0, 3 * n + 3);
  }

  lemma FreshStays(m: Memory, n: nat)
    requires m.shown == Range(0, 3 * n) && n < LONGEST_CONVERSATION_PROMPTS
    ensures Next(m, Fresh(n)).shown == Range(0, 3 * (n + 1))
  {
    FreshNext(m, n);
  }

  lemma {:induction false} FreshRunFills(run: seq<Event>, n: nat)
    requires n <= |run| && n <= LONGEST_CONVERSATION_PROMPTS && forall k | 0 <= k < n :: run[k] == Fresh(k)
    ensures After(run[..n]).shown == Range(0, 3 * n)
  {
    if n > 0 {
      FreshRunFills(run, n - 1);
      AfterNext(run, n - 1);
      FreshStays(After(run[..n - 1]), n - 1);
    }
  }

  /** 400 more prompts with three new memories each leave the first three behind. */
  lemma FreshRunForgets(run: seq<Event>, n: nat)
    requires n < |run| && n == LONGEST_CONVERSATION_PROMPTS && forall k | 0 <= k <= n :: run[k] == Fresh(k)
    ensures After(run[..n + 1]).shown == Range(3, MAX_REMEMBERED)
  {
    FreshRunFills(run, n);
    AfterNext(run, n);
    FreshFalls(After(run[..n]), n);
  }

  lemma FreshFalls(m: Memory, n: nat)
    requires n == LONGEST_CONVERSATION_PROMPTS && m.shown == Range(0, 3 * n)
    ensures Next(m, Fresh(n)).shown == Range(3, MAX_REMEMBERED)
  {
    FreshNext(m, n);
    assert Range(0, 3 * n + 3)[3..] == Range(3, 3 * n);
  }

  lemma FreshIsNamed(run: seq<Event>, i: nat, n: nat)
    requires i < |run| && run[i] == Fresh(0) && After(run[..i]).shown == Range(3, n)
    ensures NamedPlainly(run, i, 0)
  {
    var all := Fresh(0).matches.value;
    RetainsAll(all, Range(3, n));
    assert all[0] == Match(0, false);
  }

  lemma FreshIsProper(run: seq<Event>, k: nat)
    requires k < |run| && (run[k] == Fresh(k) || run[k] == Fresh(0))
    ensures run[k].Prompt? && Proper(run[k])
  {
  }

  /** The window is no longer than that: after 400 prompts with three new memories
      each, the next may name the memory again. */
  lemma NamedAgainAt401() returns (run: seq<Event>)
    ensures |run| == LONGEST_CONVERSATION_PROMPTS + 2 && Prompts(run, 0, |run|)
    ensures NamedPlainly(run, 0, 0) && NamedPlainly(run, LONGEST_CONVERSATION_PROMPTS + 1, 0)
  {
    run := FreshRun(LONGEST_CONVERSATION_PROMPTS + 1) + [Fresh(0)];
    FreshThenFirst(run, LONGEST_CONVERSATION_PROMPTS);
  }

  lemma FreshThenFirst(run: seq<Event>, n: nat)
    requires n == LONGEST_CONVERSATION_PROMPTS && |run| == n + 2
    requires run[n + 1] == Fresh(0) && forall k | 0 <= k <= n :: run[k] == Fresh(k)
    ensures Prompts(run, 0, |run|) && NamedPlainly(run, 0, 0) && NamedPlainly(run, n + 1, 0)
  {
    forall k | 0 <= k < |run| ensures run[k].Prompt? && Proper(run[k]) {
      FreshIsProper(run, k);
    }
    FreshAtStart(run);
    FreshRunForgets(run, n);
    FreshIsNamed(run, n + 1, MAX_REMEMBERED);
  }

  lemma FreshAtStart(run: seq<Event>)
    requires run != [] && run[0] == Fresh(0)
    ensures NamedPlainly(run, 0, 0)
  {
    assert run[..0] == [];
    FreshIsNamed(run, 0, 0);
  }

  /** Within `n` prompts of entering, no conversation names a memory plainly again. */
  ghost predicate NeverAgainWithin(n: nat) {
    forall run: seq<Event>, i: nat, j: nat, id | i < j < |run| && j - i <= n && Prompts(run, i, j) && EntersAt(run, i, id) ::
      !NamedPlainly(run, j, id)
  }

  /** The window the list covers is 400 prompts, no more and no less. */
  lemma WindowIsExact(n: nat)
    ensures NeverAgainWithin(n) <==> n <= LONGEST_CONVERSATION_PROMPTS
  {
    if n <= LONGEST_CONVERSATION_PROMPTS {
      forall run: seq<Event>, i: nat, j: nat, id | i < j < |run| && j - i <= n && Prompts(run, i, j) && EntersAt(run, i, id)
        ensures !NamedPlainly(run, j, id)
      {
        if NamedPlainly(run, j, id) {
          NotNamedAgain(run, i, j, id);
        }
      }
    } else {
      var run := NamedAgainAt401();
      NamedPlainlyEnters(run, 0, 0);
      assert Prompts(run, 0, LONGEST_CONVERSATION_PROMPTS + 1);
    }
  }

  /// The reminder

  lemma {:induction false} LastNudgeIsTheLastReminder(run: seq<Event>, i: nat)
    requires i < |run| && Reminded(After(run[..i]), run[i])
    ensures var last := After(run).lastNudge; last.Some? && run[i].clock.now <= last.value
    decreases |run|
  {
    var front := run[..|run| - 1];
    if i < |run| - 1 {
      assert front[..i] == run[..i];
      LastNudgeIsTheLastReminder(front, i);
    }
  }

  /** Any two reminders of one conversation are a quarter of an hour apart, compactions
      in between or not, and none comes within that of the session's start or its last save. */
  lemma RemindersAreSpaced(run: seq<Event>, i: nat, j: nat)
    requires i < j < |run| && Reminded(After(run[..i]), run[i]) && Reminded(After(run[..j]), run[j])
    ensures run[j].clock.now - run[i].clock.now >= 60 * NUDGE_COOLDOWN_MINUTES
    ensures run[j].clock.now - run[j].clock.startedAt >= 60 * NUDGE_COOLDOWN_MINUTES
    ensures run[j].clock.lastSave.Some? ==> run[j].clock.now - run[j].clock.lastSave.value >= 60 * NUDGE_COOLDOWN_MINUTES
  {
    assert run[..j][..i] == run[..i];
    LastNudgeIsTheLastReminder(run[..j], i);
  }
}
