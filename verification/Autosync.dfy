/** The replication client of `src/cloud/autosync.rs` over one store, with every
    step's fate, every answer of the cloud and every other writer chosen by an
    adversary. */
module Autosync {
  import opened Backoff
  import opened Journal
  import opened Wrappers

  const MAX_BATCH := 100

  /** The longest wait the duration type holds: 64-bit milliseconds. */
  const LONGEST_WAIT: nat := 0x7FFF_FFFF_FFFF_FFFF * 1_000_000

  /** The last instant the calendar has, at the end of the year 262142; adding past
      it panics. */
  const LAST_CALENDAR: nat := 8_210_266_876_800 * 1_000_000_000 - 1

  /** The last instant whose text reads back, at the end of the year 9999. */
  const LAST_INSTANT: nat := 253_402_300_800 * 1_000_000_000 - 1

  /** What the clock can say, in nanoseconds since 1970. */
  type Instant = t: nat | t <= LAST_CALENDAR

  /** What a deadline written to the store reads as. */
  function ReadBack(until: int): Option<int> { if until <= LAST_INSTANT then Some(until) else None }

  datatype Error =
    | StoreError
    | PayloadError
    | Refused(status: nat)
    | OtherRemote
    | Short
    | EmptyWithMore
    | Unordered
    | Stuck
    | WaitTooLong

  datatype Outcome = Done | Failed(error: Error) | Cut

  datatype Phase = Idle | Waiting | Pushing | Pulling | Healthy | Unauthorized | Denied

  /// Configuration

  datatype Config = Config(
    targetKey: string, leaseOwner: string, allowedProjects: seq<string>,
    pushBatch: nat, pullBatch: nat,
    leaseTtl: Duration, pollInterval: Duration, base: Duration, maximum: Duration)

  /** `validate`: what `new` insists on before any of the loops below can run. */
  predicate ValidConfig(c: Config) {
    && !Blank(c.targetKey) && !Blank(c.leaseOwner) && c.allowedProjects != []
    && 1 <= c.pushBatch <= MAX_BATCH && 1 <= c.pullBatch <= MAX_BATCH
    && c.leaseTtl > 0 && c.pollInterval > 0 && 0 < c.base <= c.maximum
  }

  /** Nothing but what Unicode calls white space. */
  predicate Blank(s: string) { s == "" || (IsWhite(s[0]) && Blank(s[1..])) }

  lemma {:induction false} BlankIff(s: string)
    ensures Blank(s) <==> forall i | 0 <= i < |s| :: IsWhite(s[i])
  {
    if s != "" {
      BlankIff(s[1..]);
      assert forall i | 1 <= i < |s| :: s[i] == s[1..][i - 1];
      assert forall i | 0 <= i < |s| - 1 :: s[1..][i] == s[i + 1];
    }
  }

  predicate IsWhite(c: char) {
    || '\t' <= c <= '\r' || c == ' ' || c == '\U{85}' || c == '\U{A0}' || c == '\U{1680}' || '\U{2000}' <= c <= '\U{200A}'
    || c == '\U{2028}' || c == '\U{2029}' || c == '\U{202F}' || c == '\U{205F}' || c == '\U{3000}'
  }

  /** A server refusing this caller rather than failing to answer. */
  predicate StandingRefusal(error: Error) {
    error.Refused? && error.status in {401, 403, 409}
  }

  /// The world

  datatype Fate = Go | StoreRefuses | Dies

  datatype PushAnswer = Accepted(count: nat) | PushFailed(status: nat) | PushLost

  /** What happens at each tick of the run: whether the step about to be taken
      succeeds, what the cloud answers, what other processes write and how late
      it is. */
  datatype World = World(
    fate: nat -> Fate,
    pull: (nat, int, nat) -> PullAnswer,
    push: (nat, seq<Row>) -> PushAnswer,
    writes: nat -> seq<NewRow>,
    lease: nat -> bool,
    time: nat -> Instant,
    ghost log: seq<Mutation>,
    ghost published: nat -> nat)

  /** Nothing fails, nobody is killed, every batch is taken whole. */
  ghost predicate Benign(w: World) {
    && (forall t :: w.fate(t) == Go)
    && (forall t, rows :: w.push(t, rows) == Accepted(|rows|))
  }

  /** From `moment` on nobody else writes. */
  ghost predicate QuietFrom(w: World, moment: nat) {
    forall t | t >= moment :: w.writes(t) == []
  }

  /** No push outlasts `moment` for ever: a step fails there, or from there on nobody
      else writes. */
  ghost predicate StopsAt(w: World, moment: nat) { w.fate(moment) != Go || QuietFrom(w, moment) }

  ghost predicate EndsAfter(w: World, t: nat) { exists moment :: moment >= t && StopsAt(w, moment) }

  /** Every push comes to an end. */
  ghost predicate Ends(w: World) { forall t :: EndsAfter(w, t) }

  /** The same world, killed at `moment`. */
  ghost function Killed(w: World, moment: nat): World {
    w.(fate := (t: nat) => if t < moment then w.fate(t) else Dies)
  }

  /** Whatever the world does, a run up to any moment of it is a run of one in which
      every push ends: what is said of those at every cut is said of all. */
  lemma EveryMomentIsReached(w: World, moment: nat)
    ensures Ends(Killed(w, moment)) && (forall t: nat | t < moment :: Killed(w, moment).fate(t) == w.fate(t))
    ensures var k := Killed(w, moment);
            && k.pull == w.pull && k.push == w.push && k.writes == w.writes && k.lease == w.lease && k.time == w.time
            && k.log == w.log && k.published == w.published
    ensures (Faithful(w) <==> Faithful(Killed(w, moment))) && (ClockForward(w) <==> ClockForward(Killed(w, moment)))
  {
    forall t: nat ensures EndsAfter(Killed(w, moment), t) {
      assert StopsAt(Killed(w, moment), if t < moment then moment else t);
    }
  }

  /** Leteo's own server: one ordered log, published a growing prefix at a time. */
  ghost predicate Faithful(w: World) {
    && Ascending(w.log) && (forall m | m in w.log :: m.number > 0)
    && (forall t :: w.published(t) <= |w.log|)
    && (forall s, t | s <= t :: w.published(s) <= w.published(t))
    && (forall t, c, l :: w.pull(t, c, l).Page? ==>
          w.published(t) <= |w.log| && w.pull(t, c, l) == Serve(w.log[..w.published(t)], c, l))
  }

  ghost predicate ClockForward(w: World) {
    forall s, t | s <= t :: w.time(s) <= w.time(t)
  }

  /// The store

  class Store {
    var queue: seq<Row>
    var cursor: int
    var applied: seq<Mutation>
    var failures: nat
    /** The deadline as it reads back. */
    var backoffUntil: Option<int>

    ghost predicate Valid()
      reads this
    {
      && Numbered(queue) && AckedFirst(queue)
      && 0 <= cursor <= MAX_NUMBER
      && Ascending(applied) && (applied != [] ==> applied[|applied| - 1].number <= cursor)
    }

    constructor ()
      ensures Valid() && queue == [] && applied == [] && cursor == 0 && failures == 0 && backoffUntil == None
    {
      queue, applied, cursor, failures, backoffUntil := [], [], 0, 0, None;
    }

    /** One transaction: the mutation and the cursor together. */
    method ApplyPulled(mutation: Mutation) returns (result: Applied)
      requires Valid()
      modifies this`cursor, this`applied
      ensures Valid()
      ensures result == if mutation.number <= 0 then Invalid else if mutation.number <= old(cursor) then AlreadySeen else Stored
      ensures if result == Stored then applied == old(applied) + [mutation] && cursor == mutation.number
              else applied == old(applied) && cursor == old(cursor)
    {
      if mutation.number <= 0 {
        return Invalid;
      }
      if mutation.number <= cursor {
        return AlreadySeen;
      }
      applied := applied + [mutation];
      cursor := mutation.number;
      return Stored;
    }

    /** One transaction: every row of the batch, whoever else already did it. */
    method Ack(numbers: set<int>)
      modifies this`queue
      ensures queue == Acked(old(queue), numbers)
    {
      queue := Acked(queue, numbers);
    }

    method MarkFailure(until: int)
      modifies this`failures, this`backoffUntil
      ensures failures == old(failures) + 1 && backoffUntil == ReadBack(until)
    {
      failures, backoffUntil := failures + 1, ReadBack(until);
    }

    method MarkHealthy()
      modifies this`failures, this`backoffUntil
      ensures failures == 0 && backoffUntil == None
    {
      failures, backoffUntil := 0, None;
    }
  }

  datatype Applied = Stored | AlreadySeen | Invalid

  /** The attempts so far kept their distance, and the last failure is what the
      store still waits for. A failure whose deadline does not read back is not
      among them: nothing waits for it. */
  ghost predicate OnSchedule(c: Config, w: World, trace: seq<Attempt>, failures: nat, until: Option<int>, clock: nat) {
    && failures >= Streak(trace)
    && (ClockForward(w) ==> Spaced(c.base, c.maximum, trace) && WaitedFor(c, trace, until, w.time(clock)))
  }

  function Due(c: Config, trace: seq<Attempt>): int
    requires trace != []
  {
    trace[|trace| - 1].end + Wait(c.base, c.maximum, trace)
  }

  /** The wait of the last failure is over. */
  predicate Over(c: Config, trace: seq<Attempt>, now: int) {
    trace != [] && trace[|trace| - 1].failed ==> now >= Due(c, trace)
  }

  predicate WaitedFor(c: Config, trace: seq<Attempt>, until: Option<int>, now: int) {
    Over(c, trace, now) || (trace != [] && until.Some? && until.value >= Due(c, trace))
  }

  lemma ScheduleLater(c: Config, w: World, trace: seq<Attempt>, failures: nat, until: Option<int>, clock: nat)
    requires OnSchedule(c, w, trace, failures, until, clock)
    ensures OnSchedule(c, w, trace, failures, until, clock + 1)
  {
    assert ClockForward(w) ==> w.time(clock) <= w.time(clock + 1);
  }

  /** A cycle that goes on begins when the wait of the last failure is over. */
  lemma GoesOnWhenOver(c: Config, w: World, trace: seq<Attempt>, failures: nat, until: Option<int>, clock: nat)
    requires OnSchedule(c, w, trace, failures, until, clock) && ClockForward(w)
    requires until.Some? ==> until.value <= w.time(clock)
    ensures Over(c, trace, w.time(clock))
  {
  }

  /** What keeps a batch from being acknowledged, if anything does. */
  function Trouble(answer: PushAnswer, size: nat, fate: Fate): (r: Option<Outcome>)
    ensures r == None <==> answer == Accepted(size) && fate == Go
    ensures r != Some(Done)
  {
    if answer == PushLost || fate == Dies then Some(Cut)
    else if answer.PushFailed? then Some(Failed(Refused(answer.status)))
    else if answer.count != size then Some(Failed(Short))
    else if fate == StoreRefuses then Some(Failed(StoreError))
    else
      assert answer.Accepted? && fate.Go?;
      None
  }

  /** The wait after an error: the longest one at once when the cloud refuses this
      caller, a rung of the ladder otherwise. */
  function WaitAfter(c: Config, error: Error, failures: int): Duration {
    if StandingRefusal(error) then c.maximum else ComputeBackoff(c.base, c.maximum, failures)
  }

  /** A batch as it was sent. */
  datatype Sent = Sent(tick: nat, batch: seq<Row>)

  /** The rows of the batches sent that the cloud took whole, and those acknowledged
      at the start. */
  ghost function TakenWhole(w: World, history: seq<Sent>, start: set<int>): set<int> {
    if history == [] then start
    else
      var last := history[|history| - 1];
      TakenWhole(w, history[..|history| - 1], start)
      + if w.push(last.tick, last.batch) == Accepted(|last.batch|) then Numbers(last.batch) else {}
  }

  /** Since `t` others at most appended to the queue. */
  ghost predicate OnlyAppended(w: World, t: nat, before: seq<Row>, after: seq<Row>) {
    && before <= after && (QuietFrom(w, t) ==> after == before)
    && (Parses(w, before) ==> Parses(w, after))
  }

  lemma AppendedOn(w: World, s: nat, t: nat, a: seq<Row>, b: seq<Row>, c: seq<Row>)
    requires s <= t && OnlyAppended(w, s, a, b) && OnlyAppended(w, t, b, c)
    ensures OnlyAppended(w, s, a, c)
  {
  }

  /** What a turn of the push did to what was pending, when nobody else writes. */
  ghost predicate TurnedAlone(w: World, before: seq<Row>, turn: Turn, after: seq<Row>) {
    && (turn == Stop(Done) ==> after == [])
    && (Benign(w) ==> if turn == Again then AllSendable(after) <==> AllSendable(before) else turn == Stop(Done) <==> AllSendable(before))
  }

  /** What turns since `t` did to the queue. */
  ghost predicate Turned(w: World, t: nat, before: seq<Row>, turn: Turn, after: seq<Row>) {
    && (QuietFrom(w, t) ==> TurnedAlone(w, Pending(before), turn, Pending(after)))
    && (Parses(w, before) ==> Parses(w, after) && (Benign(w) ==> turn in {Again, Stop(Done)}))
  }

  lemma PushEnds(w: World, t: nat, before: seq<Row>, outcome: Outcome, after: seq<Row>)
    requires Turned(w, t, before, Stop(outcome), after)
    ensures outcome == Done && QuietFrom(w, t) ==> Pending(after) == []
    ensures Benign(w) && QuietFrom(w, t) ==> (outcome == Done <==> AllSendable(Pending(before)))
    ensures Parses(w, before) ==> Parses(w, after) && (Benign(w) ==> outcome == Done)
  {
  }

  /** Either the moment is still to come, or nobody else writes any more. */
  ghost predicate NotPast(w: World, moment: nat, clock: nat) { clock <= moment || QuietFrom(w, moment) }

  ghost predicate BothGo(w: World, t: nat) { w.fate(t) == Go && w.fate(t + 1) == Go }

  /** A turn that goes on does not go past it. */
  lemma StillNotPast(w: World, moment: nat, t: nat)
    requires StopsAt(w, moment) && NotPast(w, moment, t)
    ensures BothGo(w, t) ==> NotPast(w, moment, t + 2) && (t >= moment ==> QuietFrom(w, t))
  {
  }

  lemma TurnsOn(w: World, s: nat, t: nat, a: seq<Row>, b: seq<Row>, turn: Turn, c: seq<Row>)
    requires s <= t && Turned(w, s, a, Again, b) && Turned(w, t, b, turn, c)
    ensures Turned(w, s, a, turn, c)
  {
  }

  /** From `c0` on, since `t`: the cursor and what was applied only grew, by an exact
      stretch if the log is ordered, and up to `t` by `all` there was. */
  ghost predicate PulledFrom(w: World, t: nat, c0: int, a0: seq<Mutation>, c1: int, a1: seq<Mutation>, all: bool) {
    && c0 <= c1 && a0 <= a1
    && (Faithful(w) ==> Handed(w.log, c0, a0, c1, a1) && (all ==> CaughtUp(w, t, c1)))
  }

  lemma PulledOn(w: World, s: nat, t: nat, c0: int, a0: seq<Mutation>, c1: int, a1: seq<Mutation>, c2: int, a2: seq<Mutation>, all: bool)
    requires s <= t && PulledFrom(w, s, c0, a0, c1, a1, false) && PulledFrom(w, t, c1, a1, c2, a2, all)
    ensures PulledFrom(w, s, c0, a0, c2, a2, all)
  {
    if Faithful(w) {
      HandedComposes(w.log, c0, a0, c1, a1, c2, a2);
      if all { CaughtUpBefore(w, s, t, c2); }
    }
  }

  lemma PulledNothing(w: World, t: nat, c: int, a: seq<Mutation>)
    ensures PulledFrom(w, t, c, a, c, a, false)
  {
  }

  lemma TakenMore(w: World, history: seq<Sent>, start: set<int>, last: Sent)
    ensures TakenWhole(w, history + [last], start)
         == TakenWhole(w, history, start) + if w.push(last.tick, last.batch) == Accepted(|last.batch|) then Numbers(last.batch) else {}
  {
    assert (history + [last])[..|history|] == history;
  }

  /** Batches are sent one after the other, all of them before `clock`. */
  ghost predicate Dated(history: seq<Sent>, clock: nat) {
    && (forall k | 0 <= k < |history| :: history[k].tick < clock)
    && forall j, k | 0 <= j < k < |history| :: history[j].tick < history[k].tick
  }

  lemma SentKeeps(w: World, history: seq<Sent>, start: set<int>, last: Sent, queue: seq<Row>)
    requires AckedWithin(queue, TakenWhole(w, history, start)) && Dated(history, last.tick)
    ensures AckedWithin(queue, TakenWhole(w, history + [last], start)) && Dated(history + [last], last.tick + 1)
    ensures w.push(last.tick, last.batch) == Accepted(|last.batch|) ==> Numbers(last.batch) <= TakenWhole(w, history + [last], start)
  {
    TakenMore(w, history, start, last);
  }

  /** None of the first `n` rows waits to be pushed. */
  ghost predicate NoneWaiting(queue: seq<Row>, n: nat) {
    forall i | 0 <= i < |queue| && i < n :: !Journal.Waiting(queue[i])
  }

  /// The client

  class Autosync {
    const config: Config
    const world: World
    const store: Store
    var clock: nat
    var phase: Phase
    /** Every batch sent, and when. */
    ghost var history: seq<Sent>
    /** Every page asked for, and when. */
    ghost var asked: seq<Asked>
    /** The rows acknowledged before this client began. */
    ghost const start: set<int>
    ghost var trace: seq<Attempt>

    ghost predicate Valid()
      reads this, store
    {
      && ValidConfig(config) && store.Valid()
      && AckedWithin(store.queue, TakenWhole(world, history, start)) && Dated(history, clock)
      && OnSchedule(config, world, trace, store.failures, store.backoffUntil, clock)
    }

    /** A failure is still being waited for at the next tick. */
    ghost predicate StillWaiting()
      reads this, store
    {
      store.backoffUntil.Some? && store.backoffUntil.value > world.time(clock)
    }

    constructor (config: Config, world: World, store: Store)
      requires ValidConfig(config) && store.Valid()
      ensures Valid() && this.config == config && this.world == world && this.store == store
      ensures clock == 0 && trace == [] && history == [] && asked == [] && phase == Idle
      ensures this.start == set r | r in store.queue && r.acked :: r.number
    {
      this.config, this.world, this.store := config, world, store;
      clock, phase := 0, Idle;
      start := set r | r in store.queue && r.acked :: r.number;
      history, asked, trace := [], [], [];
    }

    /** One step of the run: time passes, others write, and the step about to be
        taken succeeds, is refused by the store, or never happens. */
    method Step() returns (fate: Fate)
      requires Valid()
      modifies this`clock, store`queue
      ensures Valid()
      ensures clock == old(clock) + 1 && fate == world.fate(old(clock))
      ensures store.queue == Appended(old(store.queue), world.writes(old(clock)))
      ensures OnlyAppended(world, old(clock), old(store.queue), store.queue)
    {
      fate := world.fate(clock);
      AppendKeeps(world, store.queue, clock, TakenWhole(world, history, start));
      ScheduleLater(config, world, trace, store.failures, store.backoffUntil, clock);
      store.queue := Appended(store.queue, world.writes(clock));
      clock := clock + 1;
    }

    /// Pushing

    /** At least once and in order: a row is acknowledged only after the cloud
        took a batch holding it whole, the acknowledged rows come first among
        those that may be pushed, and a push that says it is done leaves nothing
        waiting that was there. When nothing fails and nobody else writes, it is
        done exactly when every pending payload parses: one that does not stops
        every push. */
    method PushPending() returns (outcome: Outcome)
      requires Valid() && Ends(world)
      modifies this`clock, this`phase, this`history, store`queue
      ensures Valid() && clock >= old(clock)
      ensures old(history) <= history && |store.queue| >= |old(store.queue)|
      ensures outcome == Done ==> NoneWaiting(store.queue, |old(store.queue)|)
      ensures outcome == Done && QuietFrom(world, old(clock)) ==> Pending(store.queue) == []
      ensures Benign(world) && QuietFrom(world, old(clock)) ==> (outcome == Done <==> AllSendable(Pending(old(store.queue))))
      ensures Benign(world) && Parses(world, old(store.queue)) ==> outcome == Done
      ensures Parses(world, old(store.queue)) ==> Parses(world, store.queue)
      ensures PushRefusalsEnd(world, history, |old(history)|, Some(outcome), clock)
      ensures Explained(world, old(clock), clock, outcome == Cut, outcome == Failed(StoreError))
    {
      phase := Pushing;
      assert EndsAfter(world, clock);
      ghost var moment: nat :| moment >= clock && StopsAt(world, moment);
      var turn := Again;
      while turn == Again
        invariant Valid() && clock >= old(clock) && old(history) <= history && |store.queue| >= |old(store.queue)|
        invariant turn == Again ==> NotPast(world, moment, clock)
        invariant turn == Stop(Done) ==> NoneWaiting(store.queue, |old(store.queue)|)
        invariant PushRefusalsEnd(world, history, |old(history)|, Ending(turn), clock)
        invariant Explained(world, old(clock), clock, turn == Stop(Cut), turn == Stop(Failed(StoreError)))
        invariant Turned(world, old(clock), old(store.queue), turn, store.queue)
        decreases turn == Again, if clock < moment then moment - clock else 0, |Pending(store.queue)|
      {
        ghost var (t, queue, sent) := (clock, store.queue, history);
        turn := PushOnce();
        TurnsOn(world, old(clock), t, old(store.queue), queue, turn, store.queue);
        StillNotPast(world, moment, t);
        PushRefusalsNext(world, |old(history)|, sent, t, history, turn, clock);
        ExplainedFrom(world, old(clock), t, clock, clock, turn == Stop(Cut), turn == Stop(Failed(StoreError)));
      }
      PushEnds(world, old(clock), old(store.queue), turn.outcome, store.queue);
      return turn.outcome;
    }

    /** One turn of the loop: list, send, wait for the answer, acknowledge. A turn
        that ends the push well leaves nothing waiting that was there when it began. */
    method PushOnce() returns (turn: Turn)
      requires Valid()
      modifies this`clock, this`history, store`queue
      ensures Valid() && clock > old(clock)
      ensures old(history) <= history && |store.queue| >= |old(store.queue)|
      ensures turn == Again ==> clock == old(clock) + 2 && BothGo(world, old(clock))
      ensures turn == Stop(Done) ==> NoneWaiting(store.queue, |old(store.queue)|)
      ensures turn == Again && QuietFrom(world, old(clock)) ==> |Pending(store.queue)| < |Pending(old(store.queue))|
      ensures history == old(history)
           || (|history| == |old(history)| + 1 && history[|old(history)|].tick + 1 == clock && AsTaken(world, history[|old(history)|], turn))
      ensures Explained(world, old(clock), clock, turn == Stop(Cut), turn == Stop(Failed(StoreError)))
      ensures Turned(world, old(clock), old(store.queue), turn, store.queue)
    {
      var ending, pending := ListPending();
      ExplainedStep(world, old(clock), world.fate(old(clock)));
      if ending.Some? {
        ListingEnds(world, old(clock), old(store.queue), store.queue, config.pushBatch, world.fate(old(clock)));
        return Stop(ending.value);
      }
      ghost var (sent, listed) := (clock, store.queue);
      turn := FinishTurn(pending);
      ExplainedFrom(world, old(clock), sent, clock, clock, turn == Stop(Cut), turn == Stop(Failed(StoreError)));
      ListedThenTurned(world, old(clock), sent, old(store.queue), listed, turn, store.queue);
    }

    /** The second half: send what was listed, and stop when that was the last of it. */
    method FinishTurn(pending: seq<Row>) returns (turn: Turn)
      requires Valid() && pending == Batch(store.queue, config.pushBatch) && pending != [] && AllSendable(pending)
      modifies this`clock, this`history, store`queue
      ensures Valid() && clock == old(clock) + 1
      ensures old(history) <= history && |store.queue| >= |old(store.queue)|
      ensures turn == Again ==> world.fate(old(clock)) == Go
      ensures turn == Stop(Done) ==> NoneWaiting(store.queue, |old(store.queue)|)
      ensures turn == Again && QuietFrom(world, old(clock)) ==> |Pending(store.queue)| < |Pending(old(store.queue))|
      ensures |history| == |old(history)| + 1 && history[|old(history)|].tick == old(clock) && AsTaken(world, history[|old(history)|], turn)
      ensures Explained(world, old(clock), clock, turn == Stop(Cut), turn == Stop(Failed(StoreError)))
      ensures Turned(world, old(clock), old(store.queue), turn, store.queue)
    {
      ListedBatch(world, store.queue, config.pushBatch);
      turn := Deliver(pending);
      TakenExplained(world, Sent(old(clock), pending), turn);
      if turn == Again && |pending| < config.pushBatch {
        turn := Stop(Done);
      }
      TurnEnds(world, old(store.queue), old(clock), config.pushBatch, turn, store.queue);
    }

    /** The first half of a turn: a batch to send, or the end of the push. */
    method ListPending() returns (ending: Option<Outcome>, pending: seq<Row>)
      requires Valid()
      modifies this`clock, store`queue
      ensures Valid() && clock == old(clock) + 1
      ensures OnlyAppended(world, old(clock), old(store.queue), store.queue)
      ensures pending == Batch(store.queue, config.pushBatch)
      ensures ending == Unlisted(pending, world.fate(old(clock)))
      ensures world.fate(old(clock)) == Go ==>
                && (ending == Some(Done) <==> pending == [])
                && (ending == Some(Failed(PayloadError)) <==> exists i | 0 <= i < |pending| :: !pending[i].sendable)
    {
      var fate := Step();
      pending := Batch(store.queue, config.pushBatch);
      ending := Unlisted(pending, fate);
    }

    /** Sends a batch, and acknowledges it exactly when the cloud took all of it and
        the store goes along; otherwise the queue only grows. */
    method Deliver(pending: seq<Row>) returns (turn: Turn)
      requires Valid() && |pending| <= |Pending(store.queue)| && pending == Pending(store.queue)[..|pending|]
      modifies this`clock, this`history, store`queue
      ensures Valid() && clock == old(clock) + 1 && turn != Stop(Done)
      ensures history == old(history) + [Sent(old(clock), pending)]
      ensures turn == Again <==> world.push(old(clock), pending) == Accepted(|pending|) && world.fate(old(clock)) == Go
      ensures AsTaken(world, Sent(old(clock), pending), turn)
      ensures var grown := Appended(old(store.queue), world.writes(old(clock)));
              store.queue == if turn == Again then Acked(grown, Numbers(pending)) else grown
      ensures Parses(world, old(store.queue)) ==> Parses(world, store.queue)
    {
      ghost var listed := store.queue;
      var trouble := Send(pending);
      turn := if trouble == None then Again else Stop(trouble.value);
      if trouble == None {
        Acknowledge(pending, listed);
      }
    }

    /** One transaction over a batch the cloud took whole. */
    method Acknowledge(pending: seq<Row>, ghost listed: seq<Row>)
      requires Valid() && listed <= store.queue && |pending| <= |Pending(listed)| && pending == Pending(listed)[..|pending|]
      requires Numbers(pending) <= TakenWhole(world, history, start)
      modifies store`queue
      ensures Valid() && store.queue == Acked(old(store.queue), Numbers(pending))
      ensures Parses(world, old(store.queue)) ==> Parses(world, store.queue)
    {
      AckKeeps(world, listed, store.queue, |pending|, TakenWhole(world, history, start));
      store.Ack(Numbers(pending));
    }

    /** The request itself: whatever comes of it, the batch was sent. */
    method Send(pending: seq<Row>) returns (trouble: Option<Outcome>)
      requires Valid()
      modifies this`clock, this`history, store`queue
      ensures Valid() && clock == old(clock) + 1 && trouble != Some(Done)
      ensures trouble == None <==> world.push(old(clock), pending) == Accepted(|pending|) && world.fate(old(clock)) == Go
      ensures AsTaken(world, Sent(old(clock), pending), if trouble == None then Again else Stop(trouble.value))
      ensures history == old(history) + [Sent(old(clock), pending)]
      ensures trouble == None ==> Numbers(pending) <= TakenWhole(world, history, start)
      ensures store.queue == Appended(old(store.queue), world.writes(old(clock)))
      ensures Parses(world, old(store.queue)) ==> Parses(world, store.queue)
    {
      var answer := world.push(clock, pending);
      ghost var sent := Sent(clock, pending);
      var fate := Step();
      trouble := Trouble(answer, |pending|, fate);
      TroubleTaken(world, sent);
      Note(sent);
    }

    /** The batch goes into the history, under the tick it was sent at. */
    ghost method Note(sent: Sent)
      requires Valid() && clock == sent.tick + 1 && Dated(history, sent.tick)
      modifies this`history
      ensures Valid() && history == old(history) + [sent]
      ensures world.push(sent.tick, sent.batch) == Accepted(|sent.batch|) ==> Numbers(sent.batch) <= TakenWhole(world, history, start)
    {
      SentKeeps(world, history, start, sent, store.queue);
      history := history + [sent];
    }

    /// Pulling

    /** Against any server each turn moves the cursor or ends the pull, so it
        terminates; against Leteo's own, everything published is handed to the
        store in order, from wherever it was left, and a pull that says it is done
        has handed over all of it. */
    method PullRemote() returns (outcome: Outcome)
      requires Valid()
      modifies this`clock, this`phase, this`asked, store`queue, store`cursor, store`applied
      ensures Valid() && clock >= old(clock)
      ensures PulledFrom(world, old(clock), old(store.cursor), old(store.applied), store.cursor, store.applied, outcome == Done)
      ensures Faithful(world) && Unhurt(world) && Answering(world) ==> outcome == Done
      ensures old(asked) <= asked && PullTold(world, old(clock), |old(asked)|, asked, Stop(outcome), clock)
      ensures OnlyAppended(world, old(clock), old(store.queue), store.queue)
    {
      phase := Pulling;
      var fate := Step();
      PulledNothing(world, old(clock), store.cursor, store.applied);
      if fate != Go {
        NothingAsked(world, old(clock), asked);
        return if fate == Dies then Cut else Failed(StoreError);
      }
      ghost var (t, queue) := (clock, store.queue);
      outcome := PullPages();
      AppendedOn(world, old(clock), t, old(store.queue), queue, store.queue);
      PulledOn(world, old(clock), t, old(store.cursor), old(store.applied), old(store.cursor), old(store.applied),
               store.cursor, store.applied, outcome == Done);
      PullToldFrom(world, old(clock), t, |old(asked)|, asked, outcome, clock);
    }

    /** The loop over pages. */
    method PullPages() returns (outcome: Outcome)
      requires Valid()
      modifies this`clock, this`asked, store`queue, store`cursor, store`applied
      ensures Valid() && clock >= old(clock) && old(asked) <= asked
      ensures PulledFrom(world, old(clock), old(store.cursor), old(store.applied), store.cursor, store.applied, outcome == Done)
      ensures Faithful(world) && Unhurt(world) && Answering(world) ==> outcome == Done
      ensures PullTold(world, old(clock), |old(asked)|, asked, Stop(outcome), clock)
      ensures OnlyAppended(world, old(clock), old(store.queue), store.queue)
    {
      PulledNothing(world, clock, store.cursor, store.applied);
      var turn := Again;
      while turn == Again
        invariant Valid() && clock >= old(clock) && old(asked) <= asked
        invariant PulledFrom(world, old(clock), old(store.cursor), old(store.applied), store.cursor, store.applied, turn == Stop(Done))
        invariant Faithful(world) && Unhurt(world) && Answering(world) ==> turn in {Again, Stop(Done)}
        invariant PullTold(world, old(clock), |old(asked)|, asked, turn, clock)
        invariant OnlyAppended(world, old(clock), old(store.queue), store.queue)
        decreases turn == Again, MAX_NUMBER - store.cursor
      {
        ghost var (t, c, a, q, before) := (clock, store.cursor, store.applied, store.queue, asked);
        turn := PullOnce();
        AppendedOn(world, old(clock), t, old(store.queue), q, store.queue);
        PullToldNext(world, old(clock), |old(asked)|, before, t, Asked(t, c, config.pullBatch), turn, store.cursor, clock);
        PulledOn(world, old(clock), t, old(store.cursor), old(store.applied), c, a, store.cursor, store.applied, turn == Stop(Done));
      }
      return turn.outcome;
    }

    /** One turn of the loop: ask, wait, check, apply. */
    method PullOnce() returns (turn: Turn)
      requires Valid()
      modifies this`clock, this`asked, store`queue, store`cursor, store`applied
      ensures Valid() && clock > old(clock)
      ensures PulledFrom(world, old(clock), old(store.cursor), old(store.applied), store.cursor, store.applied, turn == Stop(Done))
      ensures turn == Again ==> store.cursor > old(store.cursor)
      ensures Faithful(world) && Unhurt(world) && Answering(world) ==> turn in {Again, Stop(Done)}
      ensures asked == old(asked) + [Asked(old(clock), old(store.cursor), config.pullBatch)]
      ensures var answer := world.pull(old(clock), old(store.cursor), config.pullBatch);
              && AsAnswered(world, old(clock), answer, old(store.cursor), turn, store.cursor)
              && (world.fate(old(clock)) != Dies && answer.PullFailed? ==> clock == old(clock) + 1)
      ensures Explained(world, old(clock), clock, turn == Stop(Cut), turn == Stop(Failed(StoreError)))
      ensures OnlyAppended(world, old(clock), old(store.queue), store.queue)
    {
      var answer := world.pull(clock, store.cursor, config.pullBatch);
      asked := asked + [Asked(clock, store.cursor, config.pullBatch)];
      var fate := Step();
      LostExplained(world, old(clock), store.cursor, config.pullBatch);
      var trouble := PullTrouble(answer, fate);
      if trouble.Some? {
        NoTrouble(world, old(clock), store.cursor, config.pullBatch, fate);
        TroubleAnswered(world, old(clock), answer, store.cursor);
        PulledNothing(world, old(clock), store.cursor, store.applied);
        return Stop(trouble.value);
      }
      ghost var (t, q) := (clock, store.queue);
      var before := store.cursor;
      var outcome, read := ApplyPage(answer.mutations);
      ExplainedFrom(world, old(clock), t, clock, clock, outcome == Cut, outcome == Failed(StoreError));
      AppendedOn(world, old(clock), t, old(store.queue), q, store.queue);
      PageApplied(world, old(clock), before, config.pullBatch, read, old(store.applied), store.cursor, store.applied);
      PageAnswered(world, old(clock), answer, before, outcome, store.cursor);
      if outcome != Done {
        return Stop(outcome);
      }
      return ContinuePulling(answer.hasMore, before, store.cursor);
    }

    /** One page: what is applied is exactly the part of its ordered beginning
        that is above the cursor, and only a page out of order is an error. */
    method ApplyPage(page: seq<Mutation>) returns (outcome: Outcome, ghost read: nat)
      requires Valid()
      modifies this`clock, store`queue, store`cursor, store`applied
      ensures Valid() && clock >= old(clock)
      ensures read <= AscendingPrefix(page) && store.cursor >= old(store.cursor)
      ensures AppliedFrom(page, read, old(store.cursor), old(store.applied), store.cursor, store.applied)
      ensures outcome == Done ==> read == |page|
      ensures outcome.Failed? ==> outcome.error == StoreError || (outcome.error == Unordered && read == AscendingPrefix(page) < |page|)
      ensures Unhurt(world) ==> outcome == if AscendingPrefix(page) == |page| then Done else Failed(Unordered)
      ensures Explained(world, old(clock), clock, outcome == Cut, outcome == Failed(StoreError))
      ensures OnlyAppended(world, old(clock), old(store.queue), store.queue)
    {
      ghost var (start, before) := (store.cursor, store.applied);
      for i := 0 to |page|
        invariant Valid() && clock >= old(clock)
        invariant ReadTo(page, i, start, before, store.cursor, store.applied, None, Unhurt(world))
        invariant OnlyAppended(world, old(clock), old(store.queue), store.queue)
      {
        ghost var (t, q) := (clock, store.queue);
        var ending := ReadEntry(page, i, start, before);
        WentOn(world, old(clock), t, clock, old(store.queue), q, store.queue, ending == Some(Cut), ending == Some(Failed(StoreError)));
        if ending.Some? {
          PageEnds(page, i, start, before, store.cursor, store.applied, ending, Unhurt(world));
          return ending.value, i;
        }
      }
      PageEnds(page, |page|, start, before, store.cursor, store.applied, None, Unhurt(world));
      return Done, |page|;
    }

    /** One entry of a page: refused if it does not ascend, passed over if it was
        already seen, applied otherwise. */
    method ReadEntry(page: seq<Mutation>, i: nat, ghost start: int, ghost before: seq<Mutation>) returns (ending: Option<Outcome>)
      requires Valid() && i < |page| && ReadTo(page, i, start, before, store.cursor, store.applied, None, Unhurt(world))
      modifies this`clock, store`queue, store`cursor, store`applied
      ensures Valid() && clock >= old(clock)
      ensures ReadTo(page, if ending == None then i + 1 else i, start, before, store.cursor, store.applied, ending, Unhurt(world))
      ensures Explained(world, old(clock), clock, ending == Some(Cut), ending == Some(Failed(StoreError)))
      ensures OnlyAppended(world, old(clock), old(store.queue), store.queue)
    {
      if i > 0 && page[i].number <= page[i - 1].number {
        OutOfOrderAt(page, i);
        return Some(Failed(Unordered));
      }
      ReadOne(page, i, start, before, store.cursor, store.applied);
      if page[i].number > store.cursor {
        var fate := ApplyOne(page[i]);
        ExplainedStep(world, old(clock), fate);
        if fate != Go {
          return Some(if fate == Dies then Cut else Failed(StoreError));
        }
      }
      return None;
    }

    method ApplyOne(mutation: Mutation) returns (fate: Fate)
      requires Valid() && mutation.number > store.cursor
      modifies this`clock, store`queue, store`cursor, store`applied
      ensures Valid() && clock == old(clock) + 1 && fate == world.fate(old(clock))
      ensures fate == Go ==> store.applied == old(store.applied) + [mutation] && store.cursor == mutation.number
      ensures fate != Go ==> store.applied == old(store.applied) && store.cursor == old(store.cursor)
      ensures OnlyAppended(world, old(clock), old(store.queue), store.queue)
    {
      fate := Step();
      if fate == Go {
        var result := store.ApplyPulled(mutation);
      }
    }

    /// Cycles

    method SyncOnce() returns (outcome: Outcome)
      requires Valid() && Ends(world)
      modifies this`clock, this`phase, this`history, this`asked, store`queue, store`cursor, store`applied
      ensures Valid() && clock >= old(clock) && old(history) <= history && |store.queue| >= |old(store.queue)|
      ensures PulledFrom(world, old(clock), old(store.cursor), old(store.applied), store.cursor, store.applied, outcome == Done)
      ensures old(asked) <= asked && CycleTold(world, old(clock), |old(history)|, history, |old(asked)|, asked, outcome, clock)
      ensures outcome == Done ==> NoneWaiting(store.queue, |old(store.queue)|)
      ensures outcome == Done && QuietFrom(world, old(clock)) ==> Pending(store.queue) == []
      ensures Friendly(world) && QuietFrom(world, old(clock)) ==> (outcome == Done <==> AllSendable(Pending(old(store.queue))))
      ensures Friendly(world) && Parses(world, old(store.queue)) ==> outcome == Done
    {
      outcome := PushPending();
      if outcome != Done {
        PulledNothing(world, old(clock), store.cursor, store.applied);
        return;
      }
      ghost var (pushed, queue) := (clock, store.queue);
      outcome := PullRemote();
      PulledNothing(world, old(clock), old(store.cursor), old(store.applied));
      PulledOn(world, old(clock), pushed, old(store.cursor), old(store.applied), old(store.cursor), old(store.applied),
               store.cursor, store.applied, outcome == Done);
      PullToldFrom(world, old(clock), pushed, |old(asked)|, asked, outcome, clock);
      PushRefusalsNone(world, history, |old(history)|, pushed, outcome, clock);
      NoneWaitingStays(queue, store.queue, |old(store.queue)|);
    }

    /** The beginning of a cycle: it goes on only when no failure is waited for
        and nobody else holds the lease. */
    method Begin() returns (early: Option<Result>)
      requires Valid()
      modifies this`clock, this`phase, store`queue
      ensures Valid() && clock > old(clock)
      ensures old(StillWaiting()) ==> early in {Some(Skipped), Some(CutShort), Some(Errored(StoreError))}
      ensures early.Some? ==> early.value in {Skipped, CutShort, Errored(StoreError)}
      ensures !world.lease(old(clock) + 1) ==> early.Some?
      ensures early == None && ClockForward(world) ==>
                world.time(old(clock)) <= world.time(clock) && Over(config, trace, world.time(old(clock)))
      ensures Unhurt(world) && !old(StillWaiting()) && (forall t :: world.lease(t)) ==> early == None
      ensures Explained(world, old(clock), clock, early == Some(CutShort), early == Some(Errored(StoreError)))
      ensures early == Some(Skipped) ==> phase in {Waiting, Idle}
      ensures OnlyAppended(world, old(clock), old(store.queue), store.queue)
    {
      early := CheckWait();
      if early == None {
        ghost var queue := store.queue;
        early := AcquireLease();
        ExplainedFrom(world, old(clock), old(clock) + 1, clock, clock, early == Some(CutShort), early == Some(Errored(StoreError)));
        AppendedOn(world, old(clock), old(clock) + 1, old(store.queue), queue, store.queue);
      }
    }

    /** Nothing is done while a failure is still waited for. */
    method CheckWait() returns (early: Option<Result>)
      requires Valid()
      modifies this`clock, this`phase, store`queue
      ensures Valid() && clock == old(clock) + 1
      ensures early in {None, Some(Skipped), Some(CutShort), Some(Errored(StoreError))}
      ensures old(StillWaiting()) ==> early.Some?
      ensures early == None && ClockForward(world) ==> Over(config, trace, world.time(old(clock)))
      ensures Unhurt(world) && !old(StillWaiting()) ==> early == None
      ensures Explained(world, old(clock), clock, early == Some(CutShort), early == Some(Errored(StoreError)))
      ensures early == Some(Skipped) ==> phase == Waiting
      ensures OnlyAppended(world, old(clock), old(store.queue), store.queue)
    {
      var now := world.time(clock);
      if ClockForward(world) && !StillWaiting() {
        GoesOnWhenOver(config, world, trace, store.failures, store.backoffUntil, clock);
      }
      var fate := Step();
      ExplainedStep(world, old(clock), fate);
      if fate != Go {
        return Some(if fate == Dies then CutShort else Errored(StoreError));
      }
      if store.backoffUntil.Some? && store.backoffUntil.value > now {
        phase := Waiting;
        return Some(Skipped);
      }
      return None;
    }

    method AcquireLease() returns (early: Option<Result>)
      requires Valid()
      modifies this`clock, this`phase, store`queue
      ensures Valid() && clock == old(clock) + 1
      ensures early in {None, Some(Skipped), Some(CutShort), Some(Errored(StoreError))}
      ensures early == None <==> world.lease(old(clock)) && world.fate(old(clock)) == Go
      ensures Explained(world, old(clock), clock, early == Some(CutShort), early == Some(Errored(StoreError)))
      ensures early == Some(Skipped) ==> phase == Idle
      ensures OnlyAppended(world, old(clock), old(store.queue), store.queue)
    {
      var acquired := world.lease(clock);
      var fate := Step();
      ExplainedStep(world, old(clock), fate);
      if fate != Go {
        return Some(if fate == Dies then CutShort else Errored(StoreError));
      }
      if !acquired {
        phase := Idle;
        return Some(Skipped);
      }
      return None;
    }

    /** The end of a cycle that was not cut: its outcome is recorded. A failure is
        waited for exactly when its deadline is one that reads back; past that it is
        recorded and nothing waits, and past the calendar the program panics. */
    method Record(ghost now: int, failures: nat, outcome: Outcome) returns (result: Result)
      requires Valid() && outcome != Cut && failures == store.failures
      requires ClockForward(world) ==> now <= world.time(clock) && Over(config, trace, now)
      modifies this`clock, this`phase, this`trace, store`queue, store`failures, store`backoffUntil
      ensures Valid() && clock >= old(clock)
      ensures old(trace) <= trace && |trace| <= |old(trace)| + 1
      ensures result == Synced ==> outcome == Done && store.failures == 0 && store.backoffUntil == None && phase == Healthy
      ensures world.fate(old(clock)) == Go && outcome == Done ==> result == Synced
      ensures outcome.Failed? && world.fate(old(clock)) == Go ==>
                FailureRecorded(outcome.error, world.time(old(clock)), failures, |trace| - |old(trace)|, old(store.backoffUntil), result)
      ensures Explained(world, old(clock), clock, result == CutShort, Surprised(result, outcome))
      ensures OnlyAppended(world, old(clock), old(store.queue), store.queue)
    {
      if outcome.Failed? {
        result := RecordError(now, failures, outcome.error);
      } else {
        result := RecordSuccess(now);
      }
    }

    /** What becomes of a failure recorded at that time: one more attempt to keep the
        distance from exactly when the end of its wait reads back. */
    ghost predicate FailureRecorded(error: Error, at: int, failures: nat, waited: int, before: Option<int>, result: Result)
      reads this, store
    {
      var until := at + WaitAfter(config, error, failures + 1);
      && (waited == 1 <==> until <= LAST_INSTANT)
      && (until <= LAST_CALENDAR ==> result == Errored(error) && OnRecord(error, until, failures))
      && (until > LAST_CALENDAR ==> store.failures == failures && store.backoffUntil == before)
      && (until > LAST_CALENDAR ==> result == if until - at > LONGEST_WAIT then Errored(WaitTooLong) else Panicked)
    }

    method RecordError(ghost now: int, failures: nat, error: Error) returns (result: Result)
      requires Valid() && failures == store.failures
      requires ClockForward(world) ==> now <= world.time(clock) && Over(config, trace, now)
      modifies this`clock, this`phase, this`trace, store`queue, store`failures, store`backoffUntil
      ensures Valid() && clock >= old(clock) && result != Synced
      ensures old(trace) <= trace && |trace| <= |old(trace)| + 1
      ensures world.fate(old(clock)) == Go ==>
                FailureRecorded(error, world.time(old(clock)), failures, |trace| - |old(trace)|, old(store.backoffUntil), result)
      ensures Explained(world, old(clock), clock, result == CutShort, Surprised(result, Failed(error)))
      ensures OnlyAppended(world, old(clock), old(store.queue), store.queue)
    {
      var wait := WaitAfter(config, error, failures + 1);
      if wait > LONGEST_WAIT {
        return Errored(WaitTooLong);
      }
      if world.time(clock) + wait > LAST_CALENDAR {
        return Panicked;
      }
      result := RecordFailure(now, failures, error, world.time(clock) + wait);
    }

    method RecordSuccess(ghost now: int) returns (result: Result)
      requires Valid()
      requires ClockForward(world) ==> now <= world.time(clock) && Over(config, trace, now)
      modifies this`clock, this`phase, this`trace, store`queue, store`failures, store`backoffUntil
      ensures Valid() && clock > old(clock)
      ensures trace == old(trace) || trace == old(trace) + [Attempt(now, world.time(old(clock)), false, false)]
      ensures result == Synced ==> store.failures == 0 && store.backoffUntil == None && phase == Healthy
      ensures result in {Synced, CutShort, Errored(StoreError)} && (result.Errored? ==> trace == old(trace))
      ensures world.fate(old(clock)) == Go ==> result == Synced
      ensures Explained(world, old(clock), clock, result == CutShort, Surprised(result, Done))
      ensures OnlyAppended(world, old(clock), old(store.queue), store.queue)
    {
      ghost var attempt := Attempt(now, world.time(clock), false, false);
      var fate := Step();
      ExplainedStep(world, old(clock), fate);
      if fate != Go {
        return if fate == Dies then CutShort else Errored(StoreError);
      }
      assert ClockForward(world) ==> attempt.end <= world.time(clock);
      MarkSuccess(attempt);
      return Synced;
    }

    /** One transaction: no failures, nothing waited for. */
    method MarkSuccess(ghost attempt: Attempt)
      requires Valid() && !attempt.failed
      requires ClockForward(world) ==> attempt.start <= attempt.end <= world.time(clock) && Over(config, trace, attempt.start)
      modifies this`phase, this`trace, store`failures, store`backoffUntil
      ensures Valid() && trace == old(trace) + [attempt]
      ensures store.failures == 0 && store.backoffUntil == None && phase == Healthy
    {
      SuccessKeepsSchedule(config, world, trace, attempt, store.failures, clock);
      store.MarkHealthy();
      trace := trace + [attempt];
      phase := Healthy;
    }

    method RecordFailure(ghost now: int, failures: nat, error: Error, until: int) returns (result: Result)
      requires Valid() && failures == store.failures && until == world.time(clock) + WaitAfter(config, error, failures + 1)
      requires ClockForward(world) ==> now <= world.time(clock) && Over(config, trace, now)
      modifies this`clock, this`phase, this`trace, store`queue, store`failures, store`backoffUntil
      ensures Valid() && clock > old(clock)
      ensures result in {CutShort, Errored(StoreError), Errored(error)} && old(trace) <= trace && |trace| <= |old(trace)| + 1
      ensures if world.fate(old(clock)) == Go
              then result == Errored(error) && OnRecord(error, until, failures)
                && |trace| == |old(trace)| + if until <= LAST_INSTANT then 1 else 0
              else trace == old(trace)
      ensures Explained(world, old(clock), clock, result == CutShort, Surprised(result, Failed(error)))
      ensures OnlyAppended(world, old(clock), old(store.queue), store.queue)
    {
      ghost var attempt := Attempt(now, world.time(clock), true, StandingRefusal(error));
      var fate := Step();
      ExplainedStep(world, old(clock), fate);
      if fate != Go {
        return if fate == Dies then CutShort else Errored(StoreError);
      }
      assert ClockForward(world) ==> attempt.end <= world.time(clock);
      MarkFailure(attempt, failures, error, until);
      return Errored(error);
    }

    /** One transaction: the failure and its deadline. */
    method MarkFailure(ghost attempt: Attempt, failures: nat, error: Error, until: int)
      requires Valid() && failures == store.failures && attempt.failed && attempt.refused == StandingRefusal(error)
      requires until == attempt.end + WaitAfter(config, error, failures + 1)
      requires ClockForward(world) ==> attempt.start <= attempt.end <= world.time(clock) && Over(config, trace, attempt.start)
      modifies this`phase, this`trace, store`failures, store`backoffUntil
      ensures Valid() && OnRecord(error, until, failures) && trace == old(trace) + WaitedAfter(attempt, until)
    {
      MarkedKeepsSchedule(config, world, trace, attempt, failures, store.backoffUntil, clock, until);
      trace := trace + WaitedAfter(attempt, until);
      store.MarkFailure(until);
      phase := if error == Refused(401) then Unauthorized else if StandingRefusal(error) then Denied else Waiting;
    }

    /** A failure is on record: one more in a row, waited for until then if that
        reads back. */
    ghost predicate OnRecord(error: Error, until: int, failures: nat)
      reads this, store
    {
      && store.failures == failures + 1 && store.backoffUntil == ReadBack(until)
      && phase == if error == Refused(401) then Unauthorized else if StandingRefusal(error) then Denied else Waiting
    }

    /** Every refusal since is on record, if the store took it. */
    ghost predicate RefusalsRecorded(sent: nat, pulled: nat, failures: nat, result: Result)
      reads this, store
    {
      forall tick: nat, status: nat | PushTurnedDown(world, history, sent, tick, status) || PullTurnedDown(world, asked, pulled, tick, status) ::
        RefusalRecorded(world, config, tick, status, failures, result, store.failures, store.backoffUntil)
    }

    /** One cycle: nothing while a failure is still waited for or somebody else
        holds the lease, otherwise push, pull and record how it went. */
    method RunCycle() returns (result: Result)
      requires Valid() && Ends(world)
      modifies this`clock, this`phase, this`history, this`asked, this`trace, store
      ensures Valid() && clock > old(clock) && old(history) <= history && old(trace) <= trace && |trace| <= |old(trace)| + 1
      ensures PulledFrom(world, old(clock), old(store.cursor), old(store.applied), store.cursor, store.applied, result == Synced)
      ensures result == Synced ==> NoneWaiting(store.queue, |old(store.queue)|) && |store.queue| >= |old(store.queue)|
      ensures result == Synced && QuietFrom(world, old(clock)) ==> Pending(store.queue) == []
      ensures old(asked) <= asked && RefusalsRecorded(|old(history)|, |old(asked)|, old(store.failures), result)
      ensures Explained(world, old(clock), clock, result == CutShort, result == Errored(StoreError))
      ensures result == Synced ==> SaysNoMore(world, asked)
      ensures result == Synced ==> store.failures == 0 && store.backoffUntil == None && phase == Healthy
      ensures old(StillWaiting()) || !world.lease(old(clock) + 1) ==>
                result != Synced && trace == old(trace) && store.cursor == old(store.cursor) && history == old(history)
      ensures Friendly(world) && (forall t :: world.lease(t)) && !old(StillWaiting()) ==>
                && (QuietFrom(world, old(clock)) ==> (result == Synced <==> AllSendable(Pending(old(store.queue)))))
                && (Parses(world, old(store.queue)) ==> result == Synced)
    {
      PulledNothing(world, clock, store.cursor, store.applied);
      ghost var now := world.time(clock);
      var failures := store.failures;
      var early := Begin();
      if early.Some? {
        return early.value;
      }
      ghost var begun := clock;
      result := SyncAndRecord(now, failures);
      ExplainedFrom(world, old(clock), begun, clock, clock, result == CutShort, result == Errored(StoreError));
      PulledOn(world, old(clock), begun, old(store.cursor), old(store.applied), old(store.cursor), old(store.applied),
               store.cursor, store.applied, result == Synced);
    }

    /** The rest of a cycle that goes on. */
    method SyncAndRecord(ghost now: int, failures: nat) returns (result: Result)
      requires Valid() && Ends(world) && failures == store.failures
      requires ClockForward(world) ==> now <= world.time(clock) && Over(config, trace, now)
      modifies this`clock, this`phase, this`history, this`asked, this`trace, store
      ensures Valid() && clock >= old(clock) && old(history) <= history && old(trace) <= trace && |trace| <= |old(trace)| + 1
      ensures PulledFrom(world, old(clock), old(store.cursor), old(store.applied), store.cursor, store.applied, result == Synced)
      ensures result == Synced ==> NoneWaiting(store.queue, |old(store.queue)|) && |store.queue| >= |old(store.queue)|
      ensures result == Synced && QuietFrom(world, old(clock)) ==> Pending(store.queue) == []
      ensures old(asked) <= asked && RefusalsRecorded(|old(history)|, |old(asked)|, old(store.failures), result)
      ensures Explained(world, old(clock), clock, result == CutShort, result == Errored(StoreError))
      ensures result == Synced ==> SaysNoMore(world, asked)
      ensures result == Synced ==> store.failures == 0 && store.backoffUntil == None && phase == Healthy
      ensures Friendly(world) && QuietFrom(world, old(clock)) ==> (result == Synced <==> AllSendable(Pending(old(store.queue))))
      ensures Friendly(world) && Parses(world, old(store.queue)) ==> result == Synced
    {
      var outcome := SyncOnce();
      if outcome == Cut {
        CutRefusesNothing(world, old(clock), |old(history)|, history, |old(asked)|, asked, clock);
        return CutShort;
      }
      ghost var queue := store.queue;
      assert ClockForward(world) ==> world.time(old(clock)) <= world.time(clock);
      result := EndCycle(now, failures, outcome, old(clock), |old(history)|, |old(asked)|);
      if outcome == Done { NoneWaitingStays(queue, store.queue, |old(store.queue)|); }
    }

    /** The outcome is recorded, and with it whatever was refused. */
    method EndCycle(ghost now: int, failures: nat, outcome: Outcome, ghost begun: nat, ghost sent: nat, ghost pulled: nat) returns (result: Result)
      requires Valid() && outcome != Cut && failures == store.failures && begun <= clock
      requires ClockForward(world) ==> now <= world.time(clock) && Over(config, trace, now)
      requires CycleTold(world, begun, sent, history, pulled, asked, outcome, clock)
      modifies this`clock, this`phase, this`trace, store`queue, store`failures, store`backoffUntil
      ensures Valid() && clock >= old(clock) && old(trace) <= trace && |trace| <= |old(trace)| + 1
      ensures RefusalsRecorded(sent, pulled, failures, result)
      ensures Explained(world, begun, clock, result == CutShort, result == Errored(StoreError))
      ensures result == Synced ==> outcome == Done && store.failures == 0 && store.backoffUntil == None && phase == Healthy
      ensures world.fate(old(clock)) == Go && outcome == Done ==> result == Synced
      ensures OnlyAppended(world, old(clock), old(store.queue), store.queue)
    {
      result := Record(now, failures, outcome);
      ExplainedCycle(world, begun, old(clock), clock, outcome, result);
      RefusalsAreRecorded(world, config, begun, sent, history, pulled, asked, outcome, old(clock), failures, result,
                          store.failures, store.backoffUntil);
    }

    /** The background loop: any number of cycles, any of them cut anywhere, until the
        program panics. */
    method Run(cycles: nat) returns (panicked: bool)
      requires Valid() && Ends(world)
      modifies this`clock, this`phase, this`history, this`asked, this`trace, store
      ensures Valid() && old(history) <= history
      ensures clock >= old(clock) && (!panicked ==> clock >= old(clock) + cycles)
      ensures PulledFrom(world, old(clock), old(store.cursor), old(store.applied), store.cursor, store.applied, false)
      ensures old(trace) <= trace && (ClockForward(world) ==> Spaced(config.base, config.maximum, trace))
      ensures AckedFirst(store.queue) && AckedWithin(store.queue, TakenWhole(world, history, start)) && Dated(history, clock)
    {
      PulledNothing(world, clock, store.cursor, store.applied);
      for i := 0 to cycles
        invariant Valid() && clock >= old(clock) + i && old(history) <= history && old(trace) <= trace
        invariant PulledFrom(world, old(clock), old(store.cursor), old(store.applied), store.cursor, store.applied, false)
      {
        ghost var (t, c, a) := (clock, store.cursor, store.applied);
        var result := RunCycle();
        PulledOn(world, old(clock), t, old(store.cursor), old(store.applied), c, a, store.cursor, store.applied, false);
        if result == Panicked {
          return true;
        }
      }
      return false;
    }
  }

  /** `new`: a client only for a configuration that is valid. */
  method New(config: Config, world: World, store: Store) returns (client: Option<Autosync>)
    requires store.Valid()
    ensures client.Some? <==>
              && (exists i | 0 <= i < |config.targetKey| :: !IsWhite(config.targetKey[i]))
              && (exists i | 0 <= i < |config.leaseOwner| :: !IsWhite(config.leaseOwner[i]))
              && |config.allowedProjects| > 0
              && 1 <= config.pushBatch <= 100 && 1 <= config.pullBatch <= 100
              && config.leaseTtl > 0 && config.pollInterval > 0 && 0 < config.base <= config.maximum
    ensures client.Some? ==> fresh(client.value) && client.value.Valid() && client.value.store == store
  {
    BlankIff(config.targetKey);
    BlankIff(config.leaseOwner);
    if !ValidConfig(config) {
      return None;
    }
    var made := new Autosync(config, world, store);
    return Some(made);
  }

  /** An attempt begun once the wait was over keeps the trace spaced. */
  lemma SpacedMore(c: Config, trace: seq<Attempt>, attempt: Attempt)
    requires Spaced(c.base, c.maximum, trace) && attempt.start <= attempt.end && Over(c, trace, attempt.start)
    ensures Spaced(c.base, c.maximum, trace + [attempt])
  {
    var after := trace + [attempt];
    forall i, j | 0 <= i < j < |after| && j == i + 1 && after[i].failed
      ensures after[j].start >= after[i].end + Wait(c.base, c.maximum, after[..j])
    {
      assert after[..j] == trace[..j];
      assert trace[..|trace|] == trace;
    }
  }

  lemma SuccessKeepsSchedule(c: Config, w: World, trace: seq<Attempt>, attempt: Attempt, failures: nat, clock: nat)
    requires ClockForward(w) ==> Spaced(c.base, c.maximum, trace)
    requires ClockForward(w) ==> attempt.start <= attempt.end && Over(c, trace, attempt.start)
    requires !attempt.failed
    ensures OnSchedule(c, w, trace + [attempt], 0, None, clock)
  {
    if ClockForward(w) { SpacedMore(c, trace, attempt); }
  }

  /** The wait the program computes is at least the one the trace asks for. */
  lemma {:induction false} FailureKeepsSchedule(c: Config, w: World, trace: seq<Attempt>, attempt: Attempt, failures: nat, clock: nat, next: int)
    requires failures >= Streak(trace) && attempt.failed && (ClockForward(w) ==> Spaced(c.base, c.maximum, trace))
    requires ClockForward(w) ==> attempt.start <= attempt.end && Over(c, trace, attempt.start)
    requires next == attempt.end + if attempt.refused then c.maximum else ComputeBackoff(c.base, c.maximum, failures + 1)
    ensures OnSchedule(c, w, trace + [attempt], failures + 1, Some(next), clock)
  {
    if ClockForward(w) { SpacedMore(c, trace, attempt); }
    NextWait(c, trace, attempt, failures);
  }

  lemma {:induction false} NextWait(c: Config, trace: seq<Attempt>, attempt: Attempt, failures: nat)
    requires failures >= Streak(trace) && attempt.failed
    ensures Streak(trace + [attempt]) == Streak(trace) + 1
    ensures Wait(c.base, c.maximum, trace + [attempt])
         <= if attempt.refused then c.maximum else ComputeBackoff(c.base, c.maximum, failures + 1)
  {
    assert (trace + [attempt])[..|trace|] == trace;
    BackoffIsMonotone(c.base, c.maximum, Streak(trace) + 1, failures + 1);
  }

  /** A failure joins those waited for when its deadline reads back. */
  ghost function WaitedAfter(attempt: Attempt, until: int): seq<Attempt> {
    if until <= LAST_INSTANT then [attempt] else []
  }

  lemma MarkedKeepsSchedule(c: Config, w: World, trace: seq<Attempt>, attempt: Attempt, failures: nat, until: Option<int>, clock: nat, next: int)
    requires OnSchedule(c, w, trace, failures, until, clock) && attempt.failed
    requires ClockForward(w) ==> attempt.start <= attempt.end <= w.time(clock) && Over(c, trace, attempt.start)
    requires next == attempt.end + if attempt.refused then c.maximum else ComputeBackoff(c.base, c.maximum, failures + 1)
    ensures OnSchedule(c, w, trace + WaitedAfter(attempt, next), failures + 1, ReadBack(next), clock)
  {
    if next <= LAST_INSTANT {
      FailureKeepsSchedule(c, w, trace, attempt, failures, clock, next);
    } else {
      UnreadKeepsSchedule(c, w, trace, attempt.start, failures, until, clock);
      assert trace + [] == trace;
    }
  }

  /** A failure nothing waits for leaves the others where they were. */
  lemma UnreadKeepsSchedule(c: Config, w: World, trace: seq<Attempt>, now: int, failures: nat, until: Option<int>, clock: nat)
    requires OnSchedule(c, w, trace, failures, until, clock)
    requires ClockForward(w) ==> now <= w.time(clock) && Over(c, trace, now)
    ensures OnSchedule(c, w, trace, failures + 1, None, clock)
  {
  }

  /// How long a configuration may wait

  /** What a caller can check before: at a given instant the wait after any error
      reads back, however many failures came before, exactly when the longest wait
      does. `validate` does not check it. */
  lemma EveryWaitReadsBackIff(c: Config, now: Instant)
    requires ValidConfig(c)
    ensures (forall error: Error, failures: int :: ReadBack(now + WaitAfter(c, error, failures)).Some?) <==> now + c.maximum <= LAST_INSTANT
  {
    if now + c.maximum <= LAST_INSTANT {
      forall error: Error, failures: int ensures ReadBack(now + WaitAfter(c, error, failures)).Some? {
        BackoffIsBounded(c.base, c.maximum, failures);
      }
    } else {
      assert ReadBack(now + WaitAfter(c, Refused(401), 1)) == None;
    }
  }

  const SECOND: nat := 1_000_000_000
  const YEAR: nat := 31_556_952 * SECOND
  const YEAR_2000: nat := 946_684_800 * SECOND

  function Patient(maximum: Duration): Config {
    Config("cloud", "owner", ["project"], 100, 100, 60 * SECOND, 30 * SECOND, SECOND, maximum)
  }

  /** Two configurations `validate` accepts: after a refusal one of them waits for
      nothing, and the other brings the program down. */
  lemma AcceptedAndNotWaitedFor(now: Instant)
    requires YEAR_2000 <= now <= LAST_INSTANT
    ensures var c := Patient(8_000 * YEAR);
            ValidConfig(c) && LAST_INSTANT < now + WaitAfter(c, Refused(401), 1) <= LAST_CALENDAR
    ensures var c := Patient(1_000_000 * YEAR);
            ValidConfig(c) && WaitAfter(c, Refused(401), 1) <= LONGEST_WAIT && now + WaitAfter(c, Refused(401), 1) > LAST_CALENDAR
  {
    assert !Blank("cloud") && !Blank("owner") by {
      assert "cloud"[0] == 'c' && "owner"[0] == 'o';
    }
  }

  datatype Result = Skipped | Synced | Errored(error: Error) | CutShort | Panicked

  function ContinuePulling(hasMore: bool, before: int, after: int): Turn {
    if !hasMore then Stop(Done)
    else if after <= before then Stop(Failed(Stuck))
    else Again
  }

  /** What ends a pull before a page is looked at. */
  function PullTrouble(answer: PullAnswer, fate: Fate): (r: Option<Outcome>)
    ensures r == None ==> answer.Page?
    ensures r != Some(Done)
  {
    if answer == PullLost || fate == Dies then Some(Cut)
    else if answer.PullFailed? then Some(Failed(Refused(answer.status)))
    else if answer.hasMore && answer.mutations == [] then Some(Failed(EmptyWithMore))
    else None
  }

  lemma NoTrouble(w: World, t: nat, cursor: int, limit: nat, fate: Fate)
    requires cursor >= 0 && 1 <= limit <= MAX_BATCH && fate == w.fate(t)
    ensures Faithful(w) && Unhurt(w) && Answering(w) ==> PullTrouble(w.pull(t, cursor, limit), fate) == None
  {
    if Faithful(w) && Unhurt(w) && Answering(w) { ServedPage(w, t, cursor, limit); }
  }

  /** What a page of any server does to the store, and one of Leteo's own. */
  lemma PageApplied(w: World, t: nat, cursor: int, limit: nat, read: nat, a0: seq<Mutation>, c1: int, a1: seq<Mutation>)
    requires cursor >= 0 && 1 <= limit <= MAX_BATCH && w.pull(t, cursor, limit).Page? && cursor <= c1
    requires AppliedFrom(w.pull(t, cursor, limit).mutations, read, cursor, a0, c1, a1)
    ensures var answer := w.pull(t, cursor, limit);
            && PulledFrom(w, t, cursor, a0, c1, a1, !answer.hasMore && read == |answer.mutations|)
            && (Faithful(w) ==> AscendingPrefix(answer.mutations) == |answer.mutations|)
            && (Faithful(w) && read == |answer.mutations| && answer.hasMore ==> c1 > cursor)
  {
    if Faithful(w) { ServedPageApplied(w, t, cursor, limit, read, a0, c1, a1); }
  }

  /** Nothing fails, and the cloud is Leteo's own and answers. */
  ghost predicate Friendly(w: World) { Benign(w) && Faithful(w) && Answering(w) }

  /** The cloud answers every request for a page. */
  ghost predicate Answering(w: World) {
    forall t, c, l :: w.pull(t, c, l).Page?
  }

  /** Nothing published by `t` is still above the cursor. */
  ghost predicate CaughtUp(w: World, t: nat, cursor: int) {
    w.published(t) <= |w.log| && Above(w.log[..w.published(t)], cursor) == []
  }

  lemma CaughtUpBefore(w: World, s: nat, t: nat, cursor: int)
    requires Faithful(w) && s <= t && CaughtUp(w, t, cursor)
    ensures CaughtUp(w, s, cursor)
  {
    var (p, q) := (w.published(s), w.published(t));
    assert p <= q;
    assert w.log[..q] == w.log[..p] + w.log[p..q];
    AboveSplits(w.log[..p], w.log[p..q], cursor);
  }

  /** What is above a cursor in an ordered log is ordered, and each of it alone is above. */
  lemma RowsAbove(log: seq<Mutation>, cursor: int)
    requires Ascending(log)
    ensures Ascending(Above(log, cursor))
    ensures forall i | 0 <= i < |Above(log, cursor)| :: Above(log, cursor)[i].number > cursor
  {
    var k := AboveIsSuffix(log, cursor);
    assert forall i | 0 <= i < |log| - k :: log[k..][i] == log[k + i];
  }

  /** A page of Leteo's own server is the next stretch of the log: ordered, all
      of it above the cursor, and the last one unless it says there is more. */
  lemma ServedPage(w: World, t: nat, cursor: int, limit: nat)
    requires Faithful(w) && cursor >= 0 && 1 <= limit <= MAX_BATCH && w.pull(t, cursor, limit).Page?
    ensures var page := w.pull(t, cursor, limit).mutations;
            var rows := Above(w.log[..w.published(t)], cursor);
            && page <= rows <= Above(w.log, cursor)
            && AscendingPrefix(page) == |page|
            && (if w.pull(t, cursor, limit).hasMore then |page| > 0 else page == rows)
            && forall i | 0 <= i < |page| :: page[i].number > cursor
  {
    var p := w.published(t);
    var rows := Above(w.log[..p], cursor);
    assert w.pull(t, cursor, limit) == Serve(w.log[..p], cursor, limit);
    assert w.log == w.log[..p] + w.log[p..];
    AboveSplits(w.log[..p], w.log[p..], cursor);
    RowsAbove(w.log[..p], cursor);
    AscendsThroughout(rows, w.pull(t, cursor, limit).mutations);
  }

  lemma AscendsThroughout(rows: seq<Mutation>, page: seq<Mutation>)
    requires Ascending(rows) && page <= rows
    ensures AscendingPrefix(page) == |page|
  {
    assert page[..|page|] == page;
    AscendingPrefixIsLongest(page, |page|);
  }

  lemma {:induction false} AboveAll(page: seq<Mutation>, cursor: int)
    requires forall i | 0 <= i < |page| :: page[i].number > cursor
    ensures Above(page, cursor) == page
  {
    if page != [] {
      AboveAll(page[1..], cursor);
    }
  }

  /** `read` entries of a page were applied. */
  ghost predicate AppliedFrom(page: seq<Mutation>, read: nat, c0: int, a0: seq<Mutation>, c1: int, a1: seq<Mutation>) {
    read <= |page| && a1 == a0 + Above(page[..read], c0) && c1 == CursorAfter(c0, Above(page[..read], c0))
  }

  lemma PrefixHanded(log: seq<Mutation>, page: seq<Mutation>, read: nat, c0: int, a0: seq<Mutation>, c1: int, a1: seq<Mutation>)
    requires page <= Above(log, c0) && forall i | 0 <= i < |page| :: page[i].number > c0
    requires AppliedFrom(page, read, c0, a0, c1, a1)
    ensures Handed(log, c0, a0, c1, a1)
  {
    AboveAll(page[..read], c0);
    assert page[..read] == Above(log, c0)[..read];
  }

  lemma AllAppliedCatchesUp(log: seq<Mutation>, read: nat, c0: int, a0: seq<Mutation>, c1: int, a1: seq<Mutation>)
    requires Ascending(log) && read == |Above(log, c0)| && AppliedFrom(Above(log, c0), read, c0, a0, c1, a1)
    ensures Above(log, c1) == []
  {
    var rows := Above(log, c0);
    assert rows[..|rows|] == rows;
    RowsAbove(log, c0);
    AboveAll(rows, c0);
    AboveAdvances(log, c0, |rows|);
  }

  lemma ServedPageApplied(w: World, t: nat, cursor: int, limit: nat, read: nat,
                          a0: seq<Mutation>, c1: int, a1: seq<Mutation>)
    requires Faithful(w) && cursor >= 0 && 1 <= limit <= MAX_BATCH && w.pull(t, cursor, limit).Page?
    requires AppliedFrom(w.pull(t, cursor, limit).mutations, read, cursor, a0, c1, a1)
    ensures Handed(w.log, cursor, a0, c1, a1)
    ensures var answer := w.pull(t, cursor, limit);
            && AscendingPrefix(answer.mutations) == |answer.mutations|
            && (read == |answer.mutations| ==> if answer.hasMore then c1 > cursor else CaughtUp(w, t, c1))
  {
    ServedPage(w, t, cursor, limit);
    var page := w.pull(t, cursor, limit).mutations;
    PrefixHanded(w.log, page, read, cursor, a0, c1, a1);
    if read == |page| {
      if w.pull(t, cursor, limit).hasMore {
        assert page[..read] == page;
        AboveAll(page, cursor);
      } else {
        AllAppliedCatchesUp(w.log[..w.published(t)], read, cursor, a0, c1, a1);
      }
    }
  }

  /** No step fails and nobody is killed. */
  ghost predicate Unhurt(w: World) {
    forall t :: w.fate(t) == Go
  }

  /** What has been read of a page, where the cursor stands and what was applied. */
  ghost predicate Reading(page: seq<Mutation>, i: nat, start: int, before: seq<Mutation>, cursor: int, applied: seq<Mutation>)
    requires i <= |page|
  {
    && i <= AscendingPrefix(page)
    && AppliedFrom(page, i, start, before, cursor, applied)
    && cursor >= start >= 0
    && (i > 0 ==> page[i - 1].number <= cursor)
    && (cursor == start || (i > 0 && cursor == page[i - 1].number))
  }

  /** How a page can end before its last entry. */
  ghost predicate EndsAt(page: seq<Mutation>, i: nat, outcome: Outcome) {
    outcome in {Cut, Failed(StoreError)} || (outcome == Failed(Unordered) && i == AscendingPrefix(page) < |page|)
  }

  /** The first `i` entries have been read, and the page may have ended there. */
  ghost predicate ReadTo(page: seq<Mutation>, i: nat, start: int, before: seq<Mutation>, cursor: int, applied: seq<Mutation>,
                         ending: Option<Outcome>, unhurt: bool)
    requires i <= |page|
  {
    && Reading(page, i, start, before, cursor, applied)
    && (ending.Some? ==> EndsAt(page, i, ending.value) && (unhurt ==> ending.value == Failed(Unordered)))
  }

  lemma PageEnds(page: seq<Mutation>, i: nat, start: int, before: seq<Mutation>, cursor: int, applied: seq<Mutation>,
                 ending: Option<Outcome>, unhurt: bool)
    requires i <= |page| && ReadTo(page, i, start, before, cursor, applied, ending, unhurt) && (i == |page| || ending.Some?)
    ensures AppliedFrom(page, i, start, before, cursor, applied) && i <= AscendingPrefix(page) && cursor >= start
    ensures var outcome := if ending == None then Done else ending.value;
            && (outcome == Done ==> i == |page|)
            && (outcome.Failed? ==> outcome.error == StoreError || (outcome.error == Unordered && i == AscendingPrefix(page) < |page|))
            && (unhurt ==> outcome == if AscendingPrefix(page) == |page| then Done else Failed(Unordered))
  {
  }

  lemma OutOfOrderAt(page: seq<Mutation>, i: nat)
    requires 0 < i <= AscendingPrefix(page) && i < |page| && page[i].number <= page[i - 1].number
    ensures AscendingPrefix(page) == i
  {
    var r := AscendingPrefix(page);
    if i < r {
      AscendingAt(page, r, i - 1);
    }
  }

  lemma ReadOne(page: seq<Mutation>, i: nat, start: int, before: seq<Mutation>, cursor: int, applied: seq<Mutation>)
    requires i < |page| && Reading(page, i, start, before, cursor, applied)
    requires i > 0 ==> page[i - 1].number < page[i].number
    ensures if page[i].number > cursor then Reading(page, i + 1, start, before, page[i].number, applied + [page[i]])
            else Reading(page, i + 1, start, before, cursor, applied)
  {
    assert page[..i + 1] == page[..i] + [page[i]];
    AboveSplits(page[..i], [page[i]], start);
    var one := Above([page[i]], start);
    assert one == if page[i].number > start then [page[i]] else [];
    OneMoreInOrder(page, i);
    assert (before + Above(page[..i], start)) + one == before + (Above(page[..i], start) + one);
  }

  lemma OneMoreInOrder(page: seq<Mutation>, i: nat)
    requires i < |page| && i <= AscendingPrefix(page)
    requires i > 0 ==> page[i - 1].number < page[i].number
    ensures i + 1 <= AscendingPrefix(page)
  {
  }

  predicate AllSendable(rows: seq<Row>) {
    forall i | 0 <= i < |rows| :: rows[i].sendable
  }

  lemma ListedBatch(w: World, queue: seq<Row>, limit: nat)
    requires 1 <= limit <= MAX_BATCH
    ensures var n := |Batch(queue, limit)|;
            && n <= |Pending(queue)| && Batch(queue, limit) == Pending(queue)[..n]
            && (n == 0 ==> Pending(queue) == []) && (n < limit ==> n == |Pending(queue)|)
    ensures Parses(w, queue) ==> AllSendable(Batch(queue, limit))
  {
    PendingMembers(queue);
    forall i | 0 <= i < |Batch(queue, limit)| && Parses(w, queue) ensures Batch(queue, limit)[i].sendable {
      assert Pending(queue)[i] in queue;
    }
  }

  /** What ends a push before anything is sent. */
  function Unlisted(pending: seq<Row>, fate: Fate): Option<Outcome> {
    if fate == Dies then Some(Cut)
    else if fate == StoreRefuses then Some(Failed(StoreError))
    else if pending == [] then Some(Done)
    else if !AllSendable(pending) then Some(Failed(PayloadError))
    else None
  }

  lemma SomeUnsendable(rows: seq<Row>, n: nat)
    requires n <= |rows| && !AllSendable(rows[..n])
    ensures !AllSendable(rows)
  {
    var i :| 0 <= i < n && !rows[..n][i].sendable;
    assert !rows[i].sendable;
  }

  lemma ListingEnds(w: World, t: nat, before: seq<Row>, queue: seq<Row>, limit: nat, fate: Fate)
    requires 1 <= limit <= MAX_BATCH && Unlisted(Batch(queue, limit), fate).Some? && OnlyAppended(w, t, before, queue) && fate == w.fate(t)
    ensures var turn := Stop(Unlisted(Batch(queue, limit), fate).value);
            (turn == Stop(Done) ==> NoneWaiting(queue, |before|)) && Turned(w, t, before, turn, queue)
  {
    ListedBatch(w, queue, limit);
    var batch := Batch(queue, limit);
    if batch == [] {
      NothingPending(queue);
    } else if !AllSendable(batch) {
      SomeUnsendable(Pending(queue), |batch|);
    }
  }

  lemma ListedThenTurned(w: World, s: nat, t: nat, before: seq<Row>, listed: seq<Row>, turn: Turn, after: seq<Row>)
    requires t == s + 1 && OnlyAppended(w, s, before, listed) && Turned(w, t, listed, turn, after)
    ensures Turned(w, s, before, turn, after)
    ensures w.fate(s) == Go && w.fate(t) == Go ==> BothGo(w, s)
    ensures QuietFrom(w, s) ==> QuietFrom(w, t) && listed == before
    ensures NoneWaiting(after, |listed|) ==> NoneWaiting(after, |before|)
  {
  }

  /** Acknowledging all that was listed leaves none of it waiting; nobody else writing,
      what is left is what was not sent. */
  lemma TurnEnds(w: World, listed: seq<Row>, t: nat, limit: nat, turn: Turn, queue: seq<Row>)
    requires Numbered(listed) && 1 <= limit <= MAX_BATCH && Batch(listed, limit) != [] && AllSendable(Batch(listed, limit))
    requires var batch := Batch(listed, limit);
             queue == if turn in {Again, Stop(Done)} then Acked(Appended(listed, w.writes(t)), Numbers(batch)) else Appended(listed, w.writes(t))
    requires turn == Stop(Done) ==> |Batch(listed, limit)| < limit
    requires Benign(w) ==> turn in {Again, Stop(Done)}
    requires Parses(w, listed) ==> Parses(w, queue)
    ensures turn == Stop(Done) ==> NoneWaiting(queue, |listed|)
    ensures Turned(w, t, listed, turn, queue)
    ensures QuietFrom(w, t) && turn == Again ==> |Pending(queue)| < |Pending(listed)|
  {
    var (batch, p) := (Batch(listed, limit), Pending(listed));
    ListedBatch(w, listed, limit);
    if turn == Stop(Done) { AllAcknowledged(listed, batch, Appended(listed, w.writes(t))); }
    if w.writes(t) == [] && turn in {Again, Stop(Done)} {
      AckTakesAPrefix(listed, |batch|);
      SendableParts(p, |batch|);
    }
  }

  lemma SendableParts(rows: seq<Row>, n: nat)
    requires n <= |rows| && AllSendable(rows[..n])
    ensures AllSendable(rows[n..]) <==> AllSendable(rows)
  {
    assert rows == rows[..n] + rows[n..];
  }

  /** What does not wait goes on not waiting when others only append. */
  lemma NoneWaitingStays(queue: seq<Row>, longer: seq<Row>, n: nat)
    requires queue <= longer && n <= |queue| && NoneWaiting(queue, n)
    ensures NoneWaiting(longer, n)
  {
  }

  lemma NothingPending(queue: seq<Row>)
    requires Pending(queue) == []
    ensures NoneWaiting(queue, |queue|)
  {
    PendingMembers(queue);
    forall i | 0 <= i < |queue| ensures !Journal.Waiting(queue[i]) {
      assert queue[i] in queue;
    }
  }

  lemma AllAcknowledged(listed: seq<Row>, pending: seq<Row>, grown: seq<Row>)
    requires pending == Pending(listed) && listed <= grown
    ensures NoneWaiting(Acked(grown, Numbers(pending)), |listed|)
  {
    PendingMembers(listed);
    forall i | 0 <= i < |listed| ensures !Journal.Waiting(Acked(grown, Numbers(pending))[i]) {
      assert grown[i] == listed[i] && listed[i] in listed;
    }
  }

  /** A queue of so many rows waiting to be pushed. */
  function Backlog(n: nat): (r: seq<Row>)
    ensures |r| == n && forall i | 0 <= i < n :: Journal.Waiting(r[i])
  {
    seq(n, i => Row(i + 1, true, true, false, ""))
  }

  lemma {:induction false} AllPending(queue: seq<Row>)
    requires forall i | 0 <= i < |queue| :: Journal.Waiting(queue[i])
    ensures Pending(queue) == queue
  {
    if queue != [] { AllPending(queue[1..]); }
  }

  /** Why `validate` bounds the batch: stopping at a short batch is right for
      every queue exactly when the limit asked for is one the store honours. */
  lemma ShortBatchIsTheLastIff(limit: nat)
    ensures (forall queue :: |Batch(queue, limit)| < limit ==> Batch(queue, limit) == Pending(queue)) <==> limit <= MAX_BATCH
  {
    if limit > MAX_BATCH {
      AllPending(Backlog(limit));
      assert |Batch(Backlog(limit), limit)| < limit;
    }
  }

  datatype Turn = Again | Stop(outcome: Outcome)

  /// What is refused, and why a cycle ends

  /** A request for a page. */
  datatype Asked = Asked(tick: nat, cursor: int, limit: nat)

  /** One of the batches sent since was refused with this status, at this tick. */
  ghost predicate PushTurnedDown(w: World, history: seq<Sent>, from: nat, tick: nat, status: nat) {
    exists k | from <= k < |history| ::
      history[k].tick == tick && w.fate(tick) != Dies && w.push(tick, history[k].batch) == PushFailed(status)
  }

  ghost predicate PullTurnedDown(w: World, asked: seq<Asked>, from: nat, tick: nat, status: nat) {
    exists k | from <= k < |asked| ::
      asked[k].tick == tick && w.fate(tick) != Dies && w.pull(tick, asked[k].cursor, asked[k].limit) == PullFailed(status)
  }

  /** A refusal ends what was going on at once, as the error it is. */
  ghost predicate PushRefusalsEnd(w: World, history: seq<Sent>, from: nat, ending: Option<Outcome>, clock: nat) {
    forall tick: nat, status: nat | PushTurnedDown(w, history, from, tick, status) :: ending == Some(Failed(Refused(status))) && clock == tick + 1
  }

  ghost predicate PullRefusalsEnd(w: World, asked: seq<Asked>, from: nat, ending: Option<Outcome>, clock: nat) {
    forall tick: nat, status: nat | PullTurnedDown(w, asked, from, tick, status) :: ending == Some(Failed(Refused(status))) && clock == tick + 1
  }

  function Ending(turn: Turn): Option<Outcome> { if turn == Again then None else Some(turn.outcome) }

  /** What the cloud says to a batch, and the store to what follows, is how the turn goes. */
  ghost predicate AsTaken(w: World, sent: Sent, turn: Turn) {
    var (answer, fate) := (w.push(sent.tick, sent.batch), w.fate(sent.tick));
    && (answer == PushLost || fate == Dies ==> turn == Stop(Cut))
    && (answer.PushFailed? && fate != Dies ==> turn == Stop(Failed(Refused(answer.status))))
    && (answer.Accepted? && answer.count != |sent.batch| && fate != Dies ==> turn == Stop(Failed(Short)))
    && (answer == Accepted(|sent.batch|) && fate == StoreRefuses ==> turn == Stop(Failed(StoreError)))
    && (answer == Accepted(|sent.batch|) && fate == Go ==> turn in {Again, Stop(Done)})
  }

  /** What the cloud says to a request for a page is how the turn goes. */
  ghost predicate AsAnswered(w: World, t: nat, answer: PullAnswer, before: int, turn: Turn, after: int) {
    && (answer == PullLost || w.fate(t) == Dies ==> turn == Stop(Cut))
    && (answer.PullFailed? && w.fate(t) != Dies ==> turn == Stop(Failed(Refused(answer.status))))
    && (answer == Page([], true) && w.fate(t) != Dies ==> turn == Stop(Failed(EmptyWithMore)))
    && (turn == Stop(Done) ==> answer.Page? && !answer.hasMore)
    && (turn == Again ==> answer.Page? && answer.hasMore)
    && (turn == Stop(Failed(Stuck)) ==> answer.Page? && answer.hasMore && after == before)
    && (Unhurt(w) && answer.Page? && (answer.mutations != [] || !answer.hasMore) ==>
          turn == if AscendingPrefix(answer.mutations) < |answer.mutations| then Stop(Failed(Unordered))
                  else if !answer.hasMore then Stop(Done)
                  else if after == before then Stop(Failed(Stuck))
                  else Again)
  }

  lemma PushRefusalsNext(w: World, from: nat, before: seq<Sent>, t: nat, after: seq<Sent>, turn: Turn, clock: nat)
    requires from <= |before| && PushRefusalsEnd(w, before, from, None, t)
    requires after == before || (before <= after && |after| == |before| + 1 && after[|before|].tick + 1 == clock && AsTaken(w, after[|before|], turn))
    ensures PushRefusalsEnd(w, after, from, Ending(turn), clock)
  {
    assert forall k | 0 <= k < |before| :: after[k] == before[k];
    forall tick: nat, status: nat | PushTurnedDown(w, after, from, tick, status)
      ensures Ending(turn) == Some(Failed(Refused(status))) && clock == tick + 1
    {
      var k :| from <= k < |after| && after[k].tick == tick && w.fate(tick) != Dies && w.push(tick, after[k].batch) == PushFailed(status);
      assert !PushTurnedDown(w, before, from, tick, status);
    }
  }

  /** A push that ended well was refused nothing. */
  lemma PushRefusalsNone(w: World, history: seq<Sent>, from: nat, t: nat, outcome: Outcome, clock: nat)
    requires PushRefusalsEnd(w, history, from, Some(Done), t)
    ensures PushRefusalsEnd(w, history, from, Some(outcome), clock)
  {
  }

  lemma PullRefusalsNext(w: World, from: nat, before: seq<Asked>, t: nat, last: Asked, turn: Turn, c: int, clock: nat)
    requires from <= |before| && PullRefusalsEnd(w, before, from, None, t)
    requires AsAnswered(w, last.tick, w.pull(last.tick, last.cursor, last.limit), last.cursor, turn, c)
    requires w.fate(last.tick) != Dies && w.pull(last.tick, last.cursor, last.limit).PullFailed? ==> last.tick + 1 == clock
    ensures PullRefusalsEnd(w, before + [last], from, Ending(turn), clock)
  {
    var after := before + [last];
    assert forall k | 0 <= k < |before| :: after[k] == before[k];
    forall tick: nat, status: nat | PullTurnedDown(w, after, from, tick, status)
      ensures Ending(turn) == Some(Failed(Refused(status))) && clock == tick + 1
    {
      var k :| from <= k < |after| && after[k].tick == tick && w.fate(tick) != Dies
               && w.pull(tick, after[k].cursor, after[k].limit) == PullFailed(status);
      assert !PullTurnedDown(w, before, from, tick, status);
    }
  }

  /** Something was cut at this tick: the process died, or an answer was lost. */
  ghost predicate CutAt(w: World, t: nat) {
    w.fate(t) == Dies || (exists rows :: w.push(t, rows) == PushLost) || exists c, l :: w.pull(t, c, l) == PullLost
  }

  /** Only what is cut ends as cut, and only what the store refused as refused by it. */
  ghost predicate Explained(w: World, s: nat, t: nat, cut: bool, refused: bool) {
    (cut ==> exists u | s <= u < t :: CutAt(w, u)) && (refused ==> exists u | s <= u < t :: w.fate(u) == StoreRefuses)
  }

  lemma ExplainedFrom(w: World, s: nat, t: nat, u: nat, v: nat, cut: bool, refused: bool)
    requires s <= t && u <= v && Explained(w, t, u, cut, refused)
    ensures Explained(w, s, v, cut, refused)
  {
  }

  lemma TakenExplained(w: World, sent: Sent, turn: Turn)
    requires AsTaken(w, sent, turn)
    ensures Explained(w, sent.tick, sent.tick + 1, turn == Stop(Cut), turn == Stop(Failed(StoreError)))
  {
    assert w.push(sent.tick, sent.batch) == PushLost || w.fate(sent.tick) == Dies ==> CutAt(w, sent.tick);
  }

  lemma LostExplained(w: World, t: nat, cursor: int, limit: nat)
    ensures Explained(w, t, t + 1, w.pull(t, cursor, limit) == PullLost || w.fate(t) == Dies, false)
  {
    assert w.pull(t, cursor, limit) == PullLost || w.fate(t) == Dies ==> CutAt(w, t);
  }

  /** Going on from `t`: what others did and what explains the end. */
  lemma WentOn(w: World, s: nat, t: nat, clock: nat, a: seq<Row>, b: seq<Row>, c: seq<Row>, cut: bool, refused: bool)
    requires s <= t && OnlyAppended(w, s, a, b) && OnlyAppended(w, t, b, c) && Explained(w, t, clock, cut, refused)
    ensures OnlyAppended(w, s, a, c) && Explained(w, s, clock, cut, refused)
  {
    AppendedOn(w, s, t, a, b, c);
  }

  lemma ExplainedStep(w: World, t: nat, fate: Fate)
    requires fate == w.fate(t)
    ensures Explained(w, t, t + 1, fate == Dies, fate == StoreRefuses)
  {
    assert CutAt(w, t) || fate != Dies;
  }

  /** Recording came to an error of the store that is not the one to be recorded. */
  predicate Surprised(result: Result, outcome: Outcome) { result == Errored(StoreError) && outcome != Failed(StoreError) }

  /** The end of a cycle is explained by what it recorded, or by the recording. */
  lemma ExplainedCycle(w: World, s: nat, t: nat, u: nat, outcome: Outcome, result: Result)
    requires s <= t <= u && Explained(w, s, t, outcome == Cut, outcome == Failed(StoreError))
    requires Explained(w, t, u, result == CutShort, Surprised(result, outcome))
    ensures Explained(w, s, u, result == CutShort, result == Errored(StoreError))
  {
  }

  /** The last page asked for came, and said there was no more. */
  ghost predicate SaysNoMore(w: World, asked: seq<Asked>) {
    && asked != []
    && var last := asked[|asked| - 1];
       w.pull(last.tick, last.cursor, last.limit).Page? && !w.pull(last.tick, last.cursor, last.limit).hasMore
  }

  /** Why the pull stands where it stands, going by the answers since. */
  ghost predicate PullTold(w: World, s: nat, from: nat, asked: seq<Asked>, turn: Turn, clock: nat) {
    && PullRefusalsEnd(w, asked, from, Ending(turn), clock)
    && Explained(w, s, clock, turn == Stop(Cut), turn == Stop(Failed(StoreError)))
    && (turn == Stop(Done) ==> SaysNoMore(w, asked))
  }

  lemma NothingAsked(w: World, s: nat, asked: seq<Asked>)
    requires w.fate(s) != Go
    ensures PullTold(w, s, |asked|, asked, Stop(if w.fate(s) == Dies then Cut else Failed(StoreError)), s + 1)
  {
    ExplainedStep(w, s, w.fate(s));
  }

  lemma PullToldFrom(w: World, s: nat, t: nat, from: nat, asked: seq<Asked>, outcome: Outcome, clock: nat)
    requires s <= t && PullTold(w, t, from, asked, Stop(outcome), clock)
    ensures PullTold(w, s, from, asked, Stop(outcome), clock)
  {
  }

  lemma PullToldNext(w: World, s: nat, from: nat, before: seq<Asked>, t: nat, last: Asked, turn: Turn, c: int, clock: nat)
    requires from <= |before| && PullTold(w, s, from, before, Again, t) && s <= t == last.tick < clock
    requires AsAnswered(w, t, w.pull(t, last.cursor, last.limit), last.cursor, turn, c)
    requires w.fate(t) != Dies && w.pull(t, last.cursor, last.limit).PullFailed? ==> t + 1 == clock
    requires Explained(w, t, clock, turn == Stop(Cut), turn == Stop(Failed(StoreError)))
    ensures PullTold(w, s, from, before + [last], turn, clock)
  {
    PullRefusalsNext(w, from, before, t, last, turn, c, clock);
    ExplainedFrom(w, s, t, clock, clock, turn == Stop(Cut), turn == Stop(Failed(StoreError)));
  }

  /** Why a cycle ended as it did, going by the answers since. */
  ghost predicate CycleTold(w: World, s: nat, sent: nat, history: seq<Sent>, pulled: nat, asked: seq<Asked>, outcome: Outcome, clock: nat) {
    && PushRefusalsEnd(w, history, sent, Some(outcome), clock) && PullRefusalsEnd(w, asked, pulled, Some(outcome), clock)
    && Explained(w, s, clock, outcome == Cut, outcome == Failed(StoreError))
    && (outcome == Done ==> SaysNoMore(w, asked))
  }

  /** What was cut had refused nothing. */
  lemma CutRefusesNothing(w: World, s: nat, sent: nat, history: seq<Sent>, pulled: nat, asked: seq<Asked>, clock: nat)
    requires CycleTold(w, s, sent, history, pulled, asked, Cut, clock)
    ensures forall tick: nat, status: nat :: !PushTurnedDown(w, history, sent, tick, status) && !PullTurnedDown(w, asked, pulled, tick, status)
  {
  }

  lemma PageAnswered(w: World, t: nat, answer: PullAnswer, before: int, outcome: Outcome, after: int)
    requires answer.Page? && w.fate(t) != Dies && before <= after && (answer.mutations != [] || !answer.hasMore)
    requires Unhurt(w) ==> outcome == if AscendingPrefix(answer.mutations) == |answer.mutations| then Done else Failed(Unordered)
    requires outcome.Failed? ==> outcome.error in {StoreError, Unordered}
    ensures AsAnswered(w, t, answer, before, if outcome != Done then Stop(outcome) else ContinuePulling(answer.hasMore, before, after), after)
  {
  }

  lemma TroubleTaken(w: World, sent: Sent)
    ensures var trouble := Trouble(w.push(sent.tick, sent.batch), |sent.batch|, w.fate(sent.tick));
            AsTaken(w, sent, if trouble == None then Again else Stop(trouble.value))
  {
  }

  lemma TroubleAnswered(w: World, t: nat, answer: PullAnswer, cursor: int)
    requires PullTrouble(answer, w.fate(t)).Some?
    ensures AsAnswered(w, t, answer, cursor, Stop(PullTrouble(answer, w.fate(t)).value), cursor)
  {
  }

  /** A refusal is on record, if the store takes it: one more failure in a row, and the
      wait it asks for counted from there. */
  ghost predicate RefusalRecorded(w: World, c: Config, tick: nat, status: nat, failures: nat, result: Result, now: nat, deadline: Option<int>) {
    var until := w.time(tick + 1) + RefusalWait(c, status, failures);
    w.fate(tick + 1) == Go && until <= LAST_CALENDAR ==>
      && result == Errored(Refused(status)) && now == failures + 1
      && deadline == if until <= LAST_INSTANT then Some(until) else None
  }

  lemma RefusalsAreRecorded(w: World, c: Config, s: nat, sent: nat, history: seq<Sent>, pulled: nat, asked: seq<Asked>,
                            outcome: Outcome, clock: nat, failures: nat, result: Result, now: nat, deadline: Option<int>)
    requires CycleTold(w, s, sent, history, pulled, asked, outcome, clock)
    requires outcome.Failed? && w.fate(clock) == Go ==>
               var until := w.time(clock) + WaitAfter(c, outcome.error, failures + 1);
               until <= LAST_CALENDAR ==> result == Errored(outcome.error) && now == failures + 1 && deadline == ReadBack(until)
    ensures forall tick: nat, status: nat | PushTurnedDown(w, history, sent, tick, status) || PullTurnedDown(w, asked, pulled, tick, status) ::
              RefusalRecorded(w, c, tick, status, failures, result, now, deadline)
  {
    forall tick: nat, status: nat | PushTurnedDown(w, history, sent, tick, status) || PullTurnedDown(w, asked, pulled, tick, status)
      ensures RefusalRecorded(w, c, tick, status, failures, result, now, deadline)
    {
      RefusalWaits(c, status, failures);
    }
  }

  /** The wait a refusal asks for, spelled out. */
  function RefusalWait(c: Config, status: nat, failures: nat): nat {
    if status in {401, 403, 409} then c.maximum else Ladder(c.base, c.maximum, failures + 1)
  }

  lemma RefusalWaits(c: Config, status: nat, failures: nat)
    ensures WaitAfter(c, Refused(status), failures + 1) == RefusalWait(c, status, failures)
  {
    BackoffIsTheLadder(c.base, c.maximum, failures + 1);
  }

  /** Every acknowledged row is one of these. */
  ghost predicate AckedWithin(queue: seq<Row>, numbers: set<int>) {
    forall i | 0 <= i < |queue| && queue[i].acked :: queue[i].number in numbers
  }

  /** Every row, here or still to be written by somebody else, has a payload that parses. */
  ghost predicate Parses(w: World, queue: seq<Row>) {
    && (forall i | 0 <= i < |queue| :: queue[i].sendable)
    && forall t, i | 0 <= i < |w.writes(t)| :: w.writes(t)[i].sendable
  }

  /** Acknowledging what was listed, after others appended to the queue. */
  lemma AckKeeps(w: World, listed: seq<Row>, queue: seq<Row>, m: nat, accepted: set<int>)
    requires listed <= queue && Numbered(queue) && AckedFirst(queue) && m <= |Pending(listed)|
    requires AckedWithin(queue, accepted) && Numbers(Pending(listed)[..m]) <= accepted
    ensures var after := Acked(queue, Numbers(Pending(listed)[..m]));
            && Numbered(after) && AckedFirst(after) && AckedWithin(after, accepted)
            && (Parses(w, queue) ==> Parses(w, after))
  {
    PendingGrows(listed, queue);
    assert Pending(queue)[..m] == Pending(listed)[..m];
    AckKeepsAckedFirst(queue, m);
  }

  lemma AppendKeeps(w: World, queue: seq<Row>, t: nat, accepted: set<int>)
    requires Numbered(queue) && AckedFirst(queue) && AckedWithin(queue, accepted)
    ensures Numbered(Appended(queue, w.writes(t))) && AckedFirst(Appended(queue, w.writes(t))) && AckedWithin(Appended(queue, w.writes(t)), accepted)
    ensures OnlyAppended(w, t, queue, Appended(queue, w.writes(t)))
  {
    var after := Appended(queue, w.writes(t));
    AppendedIsNumbered(queue, w.writes(t));
    assert forall j | 0 <= j < |after| && after[j].acked :: j < |queue|;
    forall i | 0 <= i < |after| && Parses(w, queue) ensures after[i].sendable {
      if i >= |queue| {
        assert after[|queue| + (i - |queue|)].sendable == w.writes(t)[i - |queue|].sendable;
      }
    }
  }
}
