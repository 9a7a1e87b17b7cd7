/** Several clients on one store at once, as when a lease lapses during a long
    cycle: the lease is not what keeps replication right. */
module SharedSync {
  import opened Journal

  /** Where one client is in its pull. */
  datatype Puller =
    | Resting
    | Asking(cursor: int)
    | Reading(cursor: int, page: seq<Mutation>, next: nat, hasMore: bool)

  /** Where one client is in its push: nowhere, or holding the numbers of a batch
      the cloud may already have taken. */
  datatype Pusher = Quiet | Sent(numbers: set<int>)

  datatype State = State(cursor: int, applied: seq<Mutation>, queue: seq<Row>, published: nat,
                         pullers: map<nat, Puller>, pushers: map<nat, Pusher>)

  datatype Step =
    | Publish(to: nat)
    | Begin(client: nat)
    | Receive(client: nat, limit: nat)
    | Pass(client: nat)
    | Apply(client: nat)
    | EndPage(client: nat)
    | Write(rows: seq<NewRow>)
    | Send(client: nat, limit: nat)
    | Acknowledge(client: nat)
    | Crash(client: nat)

  ghost predicate Initial(s: State) {
    && s.cursor >= 0 && Numbered(s.queue) && AckedFirst(s.queue)
    && (forall p | p in s.pullers :: s.pullers[p] == Resting)
    && (forall p | p in s.pushers :: s.pushers[p] == Quiet)
  }

  predicate ReadingAt(s: State, p: nat) {
    p in s.pullers && s.pullers[p].Reading? && s.pullers[p].next < |s.pullers[p].page|
  }

  /** One step of one client, or of the cloud, or of a local writer. `guarded`
      says the store refuses a mutation its cursor has already passed. */
  predicate Enabled(log: seq<Mutation>, s: State, step: Step) {
    match step
    case Publish(to) => s.published <= to <= |log|
    case Begin(p) => p in s.pullers && s.pullers[p] == Resting
    case Receive(p, limit) => p in s.pullers && s.pullers[p].Asking? && s.published <= |log|
    case Pass(p) => ReadingAt(s, p) && s.pullers[p].page[s.pullers[p].next].number <= s.pullers[p].cursor
    case Apply(p) => ReadingAt(s, p) && s.pullers[p].page[s.pullers[p].next].number > s.pullers[p].cursor
    case EndPage(p) => p in s.pullers && s.pullers[p].Reading? && s.pullers[p].next == |s.pullers[p].page|
    case Write(rows) => true
    case Send(p, limit) => p in s.pushers && s.pushers[p] == Quiet
    case Acknowledge(p) => p in s.pushers && s.pushers[p].Sent?
    case Crash(p) => p in s.pullers && p in s.pushers
  }

  function Take(log: seq<Mutation>, guarded: bool, s: State, step: Step): State
    requires Enabled(log, s, step)
  {
    match step
    case Publish(to) => s.(published := to)
    case Begin(p) => s.(pullers := s.pullers[p := Asking(s.cursor)])
    case Receive(p, limit) =>
      var answer := Serve(log[..s.published], s.pullers[p].cursor, limit);
      s.(pullers := s.pullers[p := Reading(s.pullers[p].cursor, answer.mutations, 0, answer.hasMore)])
    case Pass(p) => s.(pullers := s.pullers[p := s.pullers[p].(next := s.pullers[p].next + 1)])
    case Apply(p) =>
      var m := s.pullers[p].page[s.pullers[p].next];
      var on := s.(pullers := s.pullers[p := s.pullers[p].(cursor := m.number, next := s.pullers[p].next + 1)]);
      if guarded && m.number <= s.cursor then on else on.(cursor := m.number, applied := s.applied + [m])
    case EndPage(p) =>
      s.(pullers := s.pullers[p := if s.pullers[p].hasMore then Asking(s.pullers[p].cursor) else Resting])
    case Write(rows) => s.(queue := Appended(s.queue, rows))
    case Send(p, limit) => s.(pushers := s.pushers[p := Sent(Numbers(Batch(s.queue, limit)))])
    case Acknowledge(p) => s.(queue := Acked(s.queue, s.pushers[p].numbers), pushers := s.pushers[p := Quiet])
    case Crash(p) => s.(pullers := s.pullers[p := Resting], pushers := s.pushers[p := Quiet])
  }

  /** The states a run goes through, the first of them initial. */
  ghost predicate Run(log: seq<Mutation>, guarded: bool, run: seq<State>, steps: seq<Step>) {
    && |run| == |steps| + 1 && Initial(run[0])
    && forall i | 0 <= i < |steps| :: Enabled(log, run[i], steps[i]) && run[i + 1] == Take(log, guarded, run[i], steps[i])
  }

  /// What every client keeps

  /** What a client has left to apply is the next stretch of the log above its
      own cursor, which never passes the store's. */
  ghost predicate PullerOk(log: seq<Mutation>, cursor: int, p: Puller) {
    match p
    case Resting => true
    case Asking(c) => 0 <= c <= cursor
    case Reading(c, page, next, hasMore) => 0 <= c <= cursor && next <= |page| && page[next..] <= Above(log, c)
  }

  /** A batch in flight is all that was pending up to its last row. */
  ghost predicate PusherOk(queue: seq<Row>, p: Pusher) {
    p.Sent? ==>
      && (forall n | n in p.numbers :: exists i | 0 <= i < |queue| :: queue[i].number == n)
      && forall i, j | 0 <= i < j < |queue| && queue[i].allowed && queue[j].number in p.numbers ::
           queue[i].acked || queue[i].number in p.numbers
  }

  ghost predicate Inv(log: seq<Mutation>, c0: int, a0: seq<Mutation>, s: State) {
    && s.cursor >= 0
    && Handed(log, c0, a0, s.cursor, s.applied)
    && (forall p | p in s.pullers :: PullerOk(log, s.cursor, s.pullers[p]))
    && Numbered(s.queue) && AckedFirst(s.queue)
    && (forall p | p in s.pushers :: PusherOk(s.queue, s.pushers[p]))
  }

  /// Each step keeps it

  lemma ServedIsNext(log: seq<Mutation>, published: nat, cursor: int, limit: nat)
    requires published <= |log| && cursor >= 0
    ensures Serve(log[..published], cursor, limit).mutations <= Above(log, cursor)
  {
    assert log == log[..published] + log[published..];
    AboveSplits(log[..published], log[published..], cursor);
  }

  /** The next entry of the log above a client's cursor, when the store's cursor
      is already past it and when it is not. */
  lemma NextAbove(log: seq<Mutation>, c: int, cursor: int)
    requires Ascending(log) && c <= cursor && Above(log, c) != []
    ensures var m := Above(log, c)[0];
            && m.number > c && m in log && Above(log, m.number) == Above(log, c)[1..]
            && (m.number > cursor ==> Above(log, cursor) == Above(log, c))
  {
    var k := AboveIsSuffix(log, c);
    var m := Above(log, c)[0];
    assert m == log[k];
    AboveAdvances(log, c, 1);
    assert Above(log, c)[..1] == [m];
    if m.number > cursor {
      var l := AboveIsSuffix(log, cursor);
      assert l == k by {
        assert log[k].number > cursor;
        if k > 0 { assert log[k - 1].number <= c; }
      }
    }
  }

  lemma ApplyKeeps(log: seq<Mutation>, guarded: bool, c0: int, a0: seq<Mutation>, s: State, p: nat)
    requires Ascending(log) && (guarded || Above(log, 0) == []) && Inv(log, c0, a0, s)
    requires Enabled(log, s, Apply(p)) || Enabled(log, s, Pass(p))
    ensures guarded && Enabled(log, s, Apply(p)) && Inv(log, c0, a0, Take(log, guarded, s, Apply(p)))
  {
    var Reading(c, page, next, hasMore) := s.pullers[p];
    assert page[next..][0] == page[next] == Above(log, c)[0];
    NextAbove(log, c, s.cursor);
    var m := page[next];
    assert guarded by {
      var k := AboveIsSuffix(log, 0);
      var i :| 0 <= i < |log| && log[i] == m;
      assert i >= k;
    }
    assert page[next + 1..] == page[next..][1..] <= Above(log, m.number);
    if m.number > s.cursor {
      assert Above(log, s.cursor)[..1] == [m];
      HandedComposes(log, c0, a0, s.cursor, s.applied, m.number, s.applied + [m]);
    }
  }

  lemma PullStepKeeps(log: seq<Mutation>, guarded: bool, c0: int, a0: seq<Mutation>, s: State, step: Step)
    requires Ascending(log) && (guarded || Above(log, 0) == []) && Inv(log, c0, a0, s) && Enabled(log, s, step)
    requires step.Publish? || step.Begin? || step.Receive? || step.Pass? || step.Apply? || step.EndPage?
    ensures Inv(log, c0, a0, Take(log, guarded, s, step))
  {
    match step {
      case Receive(p, limit) =>
        ServedIsNext(log, s.published, s.pullers[p].cursor, limit);
        var page := Serve(log[..s.published], s.pullers[p].cursor, limit).mutations;
        assert page[0..] == page;
      case Pass(p) => ApplyKeeps(log, guarded, c0, a0, s, p);
      case Apply(p) => ApplyKeeps(log, guarded, c0, a0, s, p);
      case _ =>
    }
  }

  /** Later acknowledgements and new rows leave a batch in flight as it was. */
  lemma QueueMoves(queue: seq<Row>, after: seq<Row>, p: Pusher)
    requires Numbered(queue) && Numbered(after) && |queue| <= |after| && PusherOk(queue, p)
    requires forall i | 0 <= i < |queue| :: after[i].number == queue[i].number && after[i].allowed == queue[i].allowed
    requires forall i | 0 <= i < |queue| && queue[i].acked :: after[i].acked
    ensures PusherOk(after, p)
  {
    if p.Sent? {
      forall n | n in p.numbers ensures exists i | 0 <= i < |after| :: after[i].number == n {
        var i :| 0 <= i < |queue| && queue[i].number == n;
        assert after[i].number == n;
      }
      forall i, j | 0 <= i < j < |after| && after[i].allowed && after[j].number in p.numbers
        ensures after[i].acked || after[i].number in p.numbers
      {
        var k :| 0 <= k < |queue| && queue[k].number == after[j].number;
        assert k == j;
      }
    }
  }

  lemma SentIsOk(queue: seq<Row>, limit: nat)
    requires Numbered(queue)
    ensures PusherOk(queue, Sent(Numbers(Batch(queue, limit))))
  {
    var m := |Batch(queue, limit)|;
    var numbers := Numbers(Pending(queue)[..m]);
    assert Batch(queue, limit) == Pending(queue)[..m];
    PendingMembers(queue);
    forall n | n in numbers ensures exists i | 0 <= i < |queue| :: queue[i].number == n {
      var r :| r in Pending(queue)[..m] && r.number == n;
      assert r in Pending(queue);
    }
    forall i, j | 0 <= i < j < |queue| && queue[i].allowed && queue[j].number in numbers
      ensures queue[i].acked || queue[i].number in numbers
    {
      var r :| r in Pending(queue)[..m] && r.number == queue[j].number;
      assert r in Pending(queue);
      assert r == queue[j];
      PendingAfterAcked(queue, j, m);
    }
  }

  lemma AcknowledgedFirst(queue: seq<Row>, numbers: set<int>)
    requires Numbered(queue) && AckedFirst(queue) && PusherOk(queue, Sent(numbers))
    ensures Numbered(Acked(queue, numbers)) && AckedFirst(Acked(queue, numbers))
  {
  }

  /** The queue moves on, and whoever still has a batch in flight has it as before. */
  lemma QueueKeeps(log: seq<Mutation>, c0: int, a0: seq<Mutation>, s: State, t: State)
    requires Inv(log, c0, a0, s) && t.cursor == s.cursor && t.applied == s.applied
    requires forall p | p in t.pullers :: t.pullers[p] == Resting || (p in s.pullers && t.pullers[p] == s.pullers[p])
    requires Numbered(t.queue) && AckedFirst(t.queue) && |s.queue| <= |t.queue|
    requires forall i | 0 <= i < |s.queue| :: t.queue[i].number == s.queue[i].number && t.queue[i].allowed == s.queue[i].allowed
    requires forall i | 0 <= i < |s.queue| && s.queue[i].acked :: t.queue[i].acked
    requires forall p | p in t.pushers :: PusherOk(t.queue, t.pushers[p]) || (p in s.pushers && t.pushers[p] == s.pushers[p])
    ensures Inv(log, c0, a0, t)
  {
    forall p | p in t.pushers ensures PusherOk(t.queue, t.pushers[p]) {
      if p in s.pushers && t.pushers[p] == s.pushers[p] {
        QueueMoves(s.queue, t.queue, s.pushers[p]);
      }
    }
  }

  lemma WriteKeeps(log: seq<Mutation>, c0: int, a0: seq<Mutation>, s: State, rows: seq<NewRow>)
    requires Inv(log, c0, a0, s)
    ensures Inv(log, c0, a0, s.(queue := Appended(s.queue, rows)))
  {
    var t := s.(queue := Appended(s.queue, rows));
    AppendedIsNumbered(s.queue, rows);
    assert AckedFirst(t.queue);
    QueueKeeps(log, c0, a0, s, t);
  }

  lemma SendKeeps(log: seq<Mutation>, c0: int, a0: seq<Mutation>, s: State, p: nat, limit: nat)
    requires Inv(log, c0, a0, s)
    ensures Inv(log, c0, a0, s.(pushers := s.pushers[p := Sent(Numbers(Batch(s.queue, limit)))]))
  {
    SentIsOk(s.queue, limit);
  }

  lemma AcknowledgeKeeps(log: seq<Mutation>, c0: int, a0: seq<Mutation>, s: State, p: nat)
    requires Inv(log, c0, a0, s) && p in s.pushers && s.pushers[p].Sent?
    ensures Inv(log, c0, a0, s.(queue := Acked(s.queue, s.pushers[p].numbers), pushers := s.pushers[p := Quiet]))
  {
    AcknowledgedFirst(s.queue, s.pushers[p].numbers);
    QueueKeeps(log, c0, a0, s, s.(queue := Acked(s.queue, s.pushers[p].numbers), pushers := s.pushers[p := Quiet]));
  }

  lemma PushStepKeeps(log: seq<Mutation>, guarded: bool, c0: int, a0: seq<Mutation>, s: State, step: Step)
    requires Inv(log, c0, a0, s) && Enabled(log, s, step)
    requires step.Write? || step.Send? || step.Acknowledge? || step.Crash?
    ensures Inv(log, c0, a0, Take(log, guarded, s, step))
  {
    match step {
      case Write(rows) => WriteKeeps(log, c0, a0, s, rows);
      case Send(p, limit) => SendKeeps(log, c0, a0, s, p, limit);
      case Acknowledge(p) => AcknowledgeKeeps(log, c0, a0, s, p);
      case Crash(p) => QueueKeeps(log, c0, a0, s, Take(log, guarded, s, step));
    }
  }

  /** Over every run of any number of clients, cut and crashed anywhere, with the
      cloud growing and others writing: what was handed to the store is an exact
      stretch of the log, and what was acknowledged comes first in the queue. */
  lemma {:induction false} EveryStateIsSafe(log: seq<Mutation>, guarded: bool, run: seq<State>, steps: seq<Step>, n: nat)
    requires Ascending(log) && (guarded || Above(log, 0) == []) && Run(log, guarded, run, steps) && n < |run|
    ensures Inv(log, run[0].cursor, run[0].applied, run[n])
  {
    if n > 0 {
      EveryStateIsSafe(log, guarded, run, steps, n - 1);
      var step := steps[n - 1];
      assert run[n - 1 + 1] == Take(log, guarded, run[n - 1], step);
      if step.Write? || step.Send? || step.Acknowledge? || step.Crash? {
        PushStepKeeps(log, guarded, run[0].cursor, run[0].applied, run[n - 1], step);
      } else {
        PullStepKeeps(log, guarded, run[0].cursor, run[0].applied, run[n - 1], step);
      }
    }
  }

  /// What each step is for

  /** The store's cursor is where a client begins, what is published and written is there
      for all, a batch in flight is what was pending, acknowledging it is for good, and a
      client that dies holds nothing. */
  lemma {:induction false} StepsDo(log: seq<Mutation>, guarded: bool, s: State, step: Step)
    requires Enabled(log, s, step)
    ensures var t := Take(log, guarded, s, step);
            match step
            case Publish(to) => t.published == to
            case Begin(p) => p in t.pullers && t.pullers[p] == Asking(s.cursor)
            case Write(rows) => s.queue <= t.queue && |t.queue| == |s.queue| + |rows|
            case Send(p, limit) => p in t.pushers && t.pushers[p].Sent? && (limit <= 100 && |Pending(s.queue)| <= limit ==>
                                     forall r | r in Pending(s.queue) :: r.number in t.pushers[p].numbers)
            case Acknowledge(p) => |t.queue| == |s.queue| && forall i | 0 <= i < |s.queue| ::
                                     t.queue[i].acked <==> s.queue[i].acked || s.queue[i].number in s.pushers[p].numbers
            case Crash(p) => t.pullers[p] == Resting && t.pushers[p] == Quiet && t.applied == s.applied && t.cursor == s.cursor
            case _ => true
  {
  }

  /** The client goes on with the page it received. */
  predicate Leaves(step: Step, p: nat) {
    step in {Begin(p), EndPage(p), Crash(p)} || (step.Receive? && step.client == p)
  }

  /** Of a page under way, what has been read is no longer above the store's cursor. */
  ghost predicate UnderWay(log: seq<Mutation>, s: State, p: nat, from: int, page: seq<Mutation>, hasMore: bool) {
    && p in s.pullers && s.pullers[p].Reading? && s.pullers[p].page == page && s.pullers[p].hasMore == hasMore
    && from <= s.cursor && s.pullers[p].next <= |page|
    && forall x | 0 <= x < s.pullers[p].next :: page[x].number <= s.cursor
  }

  lemma {:induction false} StaysUnderWay(log: seq<Mutation>, guarded: bool, c0: int, a0: seq<Mutation>, s: State,
                                         step: Step, p: nat, from: int, page: seq<Mutation>, hasMore: bool)
    requires Ascending(log) && (guarded || Above(log, 0) == []) && Inv(log, c0, a0, s) && Enabled(log, s, step)
    requires UnderWay(log, s, p, from, page, hasMore) && !Leaves(step, p)
    requires step.Apply? ==> guarded || s.pullers[step.client].page[s.pullers[step.client].next].number > s.cursor
    ensures UnderWay(log, Take(log, guarded, s, step), p, from, page, hasMore)
  {
    var t := Take(log, guarded, s, step);
    CursorGrows(log, guarded, s, step);
    assert PullerOk(log, s.cursor, s.pullers[p]);
    if step == Pass(p) || step == Apply(p) {
      ReadsOn(log, guarded, s, step);
      assert forall x | 0 <= x < s.pullers[p].next :: page[x].number <= t.cursor;
    } else {
      PageStays(log, guarded, s, step, p);
    }
  }

  lemma CursorGrows(log: seq<Mutation>, guarded: bool, s: State, step: Step)
    requires (guarded || Above(log, 0) == []) && Enabled(log, s, step)
    requires step.Apply? ==> guarded || s.pullers[step.client].page[s.pullers[step.client].next].number > s.cursor
    ensures Take(log, guarded, s, step).cursor >= s.cursor
  {
  }

  /** One more entry of the page is no longer above the store's cursor. */
  lemma ReadsOn(log: seq<Mutation>, guarded: bool, s: State, step: Step)
    requires Enabled(log, s, step) && (step.Pass? || step.Apply?)
    requires s.pullers[step.client].cursor <= s.cursor
    ensures var (t, u, p) := (Take(log, guarded, s, step), s.pullers[step.client], step.client);
            && p in t.pullers && t.pullers[p].Reading? && t.pullers[p].page == u.page && t.pullers[p].hasMore == u.hasMore
            && t.pullers[p].next == u.next + 1 && u.page[u.next].number <= t.cursor
  {
  }

  lemma PageStays(log: seq<Mutation>, guarded: bool, s: State, step: Step, p: nat)
    requires Enabled(log, s, step) && p in s.pullers && !Leaves(step, p) && step != Pass(p) && step != Apply(p)
    ensures p in Take(log, guarded, s, step).pullers && Take(log, guarded, s, step).pullers[p] == s.pullers[p]
  {
  }

  lemma OnlyGuardedApply(log: seq<Mutation>, guarded: bool, c0: int, a0: seq<Mutation>, s: State, step: Step)
    requires Ascending(log) && (guarded || Above(log, 0) == []) && Inv(log, c0, a0, s) && Enabled(log, s, step)
    ensures step.Apply? ==> guarded
  {
    if step.Apply? { ApplyKeeps(log, guarded, c0, a0, s, step.client); }
  }

  lemma FirstUnderWay(log: seq<Mutation>, guarded: bool, c0: int, a0: seq<Mutation>, s: State, p: nat, limit: nat)
    requires Inv(log, c0, a0, s) && Enabled(log, s, Receive(p, limit))
    ensures var answer := Serve(log[..s.published], s.pullers[p].cursor, limit);
            s.pullers[p].cursor >= 0
            && UnderWay(log, Take(log, guarded, s, Receive(p, limit)), p, s.pullers[p].cursor, answer.mutations, answer.hasMore)
  {
    assert PullerOk(log, s.cursor, s.pullers[p]);
  }

  lemma {:induction false} PageUnderWay(log: seq<Mutation>, guarded: bool, run: seq<State>, steps: seq<Step>, i: nat, k: nat, p: nat,
                                        from: int, answer: PullAnswer)
    requires Ascending(log) && (guarded || Above(log, 0) == []) && Run(log, guarded, run, steps)
    requires i < k < |run| && answer.Page? && UnderWay(log, run[i + 1], p, from, answer.mutations, answer.hasMore)
    requires forall m | i < m < k :: !Leaves(steps[m], p)
    ensures UnderWay(log, run[k], p, from, answer.mutations, answer.hasMore)
    decreases k
  {
    if i < k - 1 {
      PageUnderWay(log, guarded, run, steps, i, k - 1, p, from, answer);
      PageGoesOn(log, guarded, run, steps, k - 1, p, from, answer);
    }
  }

  lemma {:induction false} PageGoesOn(log: seq<Mutation>, guarded: bool, run: seq<State>, steps: seq<Step>, k: nat,
                                      p: nat, from: int, answer: PullAnswer)
    requires Ascending(log) && (guarded || Above(log, 0) == []) && Run(log, guarded, run, steps)
    requires k < |steps| && answer.Page? && UnderWay(log, run[k], p, from, answer.mutations, answer.hasMore) && !Leaves(steps[k], p)
    ensures UnderWay(log, run[k + 1], p, from, answer.mutations, answer.hasMore)
  {
    EveryStateIsSafe(log, guarded, run, steps, k);
    OnlyGuardedApply(log, guarded, run[0].cursor, run[0].applied, run[k], steps[k]);
    StaysUnderWay(log, guarded, run[0].cursor, run[0].applied, run[k], steps[k], p, from, answer.mutations, answer.hasMore);
  }

  lemma {:induction false} NothingAbove(log: seq<Mutation>, from: int, to: int)
    requires from <= to && forall m | m in Above(log, from) :: m.number <= to
    ensures Above(log, to) == []
  {
    if log != [] {
      assert forall m | m in Above(log[1..], from) :: m in Above(log, from);
      if log[0].number > from { assert log[0] in Above(log, from); }
      NothingAbove(log[1..], from, to);
    }
  }

  /** A client that comes to rest by itself, and not because it died, has seen to it that
      the store has everything that was published when it last asked, whoever applied it. */
  lemma {:induction false} WhoRestsIsCaughtUp(log: seq<Mutation>, guarded: bool, run: seq<State>, steps: seq<Step>,
                                              i: nat, j: nat, p: nat, limit: nat)
    requires Ascending(log) && (guarded || Above(log, 0) == []) && Run(log, guarded, run, steps)
    requires i < j < |steps| && steps[i] == Receive(p, limit) && (forall m | i < m < j :: !Leaves(steps[m], p)) && steps[j] == EndPage(p)
    requires p in run[j + 1].pullers && run[j + 1].pullers[p] == Resting
    ensures run[i].published <= |log| && Above(log[..run[i].published], run[j + 1].cursor) == []
  {
    EveryStateIsSafe(log, guarded, run, steps, i);
    assert run[i + 1] == Take(log, guarded, run[i], steps[i]);
    FirstUnderWay(log, guarded, run[0].cursor, run[0].applied, run[i], p, limit);
    var (from, seen) := (run[i].pullers[p].cursor, log[..run[i].published]);
    PageUnderWay(log, guarded, run, steps, i, j, p, from, Serve(seen, from, limit));
    assert run[j + 1] == Take(log, guarded, run[j], steps[j]);
    LastPageRead(log, run[j], p, from, seen, limit);
  }

  /** All of a last page read, nothing that was published is still above. */
  lemma LastPageRead(log: seq<Mutation>, s: State, p: nat, from: int, seen: seq<Mutation>, limit: nat)
    requires from >= 0 && UnderWay(log, s, p, from, Serve(seen, from, limit).mutations, false) && !Serve(seen, from, limit).hasMore
    requires s.pullers[p].next == |s.pullers[p].page|
    ensures Above(seen, s.cursor) == []
  {
    assert Serve(seen, from, limit).mutations == Above(seen, from);
    NothingAbove(seen, from, s.cursor);
  }

  /// The guard inside the store's transaction is what does it

  lemma OneMoreStep(log: seq<Mutation>, guarded: bool, run: seq<State>, steps: seq<Step>, step: Step)
    returns (longer: seq<State>, more: seq<Step>)
    requires Run(log, guarded, run, steps) && Enabled(log, run[|steps|], step)
    ensures Run(log, guarded, longer, more) && more == steps + [step] && longer[0] == run[0]
    ensures longer[|more|] == Take(log, guarded, run[|steps|], step)
  {
    longer, more := run + [Take(log, guarded, run[|steps|], step)], steps + [step];
  }

  /** Two clients have both asked for what is above the empty store's cursor. */
  lemma BothAsked(log: seq<Mutation>) returns (run: seq<State>, steps: seq<Step>)
    ensures Run(log, false, run, steps) && run[0].cursor == 0 && run[0].applied == []
    ensures run[|steps|] == State(0, [], [], |log|, map[0 := Asking(0), 1 := Asking(0)], map[])
  {
    var s := State(0, [], [], |log|, map[0 := Resting, 1 := Resting], map[]);
    run, steps := [s], [];
    run, steps := OneMoreStep(log, false, run, steps, Begin(0));
    run, steps := OneMoreStep(log, false, run, steps, Begin(1));
    assert run[|steps|] == s.(pullers := map[0 := Asking(0), 1 := Asking(0)]);
  }

  /** Both have read one page of one mutation. */
  lemma BothRead(log: seq<Mutation>) returns (run: seq<State>, steps: seq<Step>, got: Puller)
    requires Ascending(log) && Above(log, 0) != []
    ensures Run(log, false, run, steps) && run[0].cursor == 0 && run[0].applied == []
    ensures got.Reading? && got.cursor == 0 && got.page == [Above(log, 0)[0]] && got.next == 0
    ensures run[|steps|] == State(0, [], [], |log|, map[0 := got, 1 := got], map[])
  {
    NextAbove(log, 0, 0);
    run, steps := BothAsked(log);
    var s := run[|steps|];
    var answer := Serve(log, 0, 1);
    assert log[..|log|] == log && answer.mutations == [Above(log, 0)[0]];
    got := Reading(0, answer.mutations, 0, answer.hasMore);
    run, steps := OneMoreStep(log, false, run, steps, Receive(0, 1));
    run, steps := OneMoreStep(log, false, run, steps, Receive(1, 1));
    assert run[|steps|] == s.(pullers := map[0 := got, 1 := got]);
  }

  /** Two clients, no guard, one new mutation: both read it, both apply it. */
  lemma UnguardedAppliesTwice(log: seq<Mutation>) returns (run: seq<State>, steps: seq<Step>)
    requires Ascending(log) && Above(log, 0) != []
    ensures Run(log, false, run, steps)
    ensures run[0].cursor == 0 && run[0].applied == []
    ensures var m := Above(log, 0)[0];
            run[|steps|].cursor == m.number && run[|steps|].applied == [m, m]
  {
    NextAbove(log, 0, 0);
    var got: Puller;
    run, steps, got := BothRead(log);
    run, steps := OneMoreStep(log, false, run, steps, Apply(0));
    run, steps := OneMoreStep(log, false, run, steps, Apply(1));
  }

  lemma HandedTwoAreApart(log: seq<Mutation>, c0: int, a0: seq<Mutation>, c1: int, a1: seq<Mutation>)
    requires Ascending(log) && Handed(log, c0, a0, c1, a1) && a0 == [] && |a1| == 2
    ensures a1[0] != a1[1]
  {
    var k := AboveIsSuffix(log, c0);
    assert log[k].number < log[k + 1].number;
    assert a1 == log[k..][..2];
  }

  ghost predicate AlwaysHanded(log: seq<Mutation>, guarded: bool) {
    forall run: seq<State>, steps: seq<Step>, n: nat | Run(log, guarded, run, steps) && n < |run| ::
      Handed(log, run[0].cursor, run[0].applied, run[n].cursor, run[n].applied)
  }

  /** Whatever the clients do, nothing is skipped or applied twice exactly when
      the store checks its own cursor, or there is nothing to apply. */
  lemma SafeIffGuarded(log: seq<Mutation>, guarded: bool)
    requires Ascending(log)
    ensures AlwaysHanded(log, guarded) <==> guarded || Above(log, 0) == []
  {
    if guarded || Above(log, 0) == [] {
      forall run: seq<State>, steps: seq<Step>, n: nat | Run(log, guarded, run, steps) && n < |run|
        ensures Handed(log, run[0].cursor, run[0].applied, run[n].cursor, run[n].applied)
      {
        EveryStateIsSafe(log, guarded, run, steps, n);
      }
    } else {
      var run, steps := UnguardedAppliesTwice(log);
      var last := run[|steps|];
      if Handed(log, run[0].cursor, run[0].applied, last.cursor, last.applied) {
        HandedTwoAreApart(log, run[0].cursor, run[0].applied, last.cursor, last.applied);
      }
    }
  }
}
