/** Which pairs of memories a semantic scan puts to the model (`src/llm.rs`). */
module Pairs {
  import Text
  import opened Wrappers

  /** A candidate as the store answers for it: whether the pair has a verdict
      already, and whether the candidate can still be read. */
  datatype Candidate = Candidate(syncId: string, judged: bool, readable: bool)

  /** An observation and its candidates; `None` when looking for them fails. */
  datatype Observation = Observation(syncId: string, candidates: Option<seq<Candidate>>)

  datatype Options = Options(maxPairs: nat, concurrency: nat, timeout: nat) {
    predicate Valid() { 1 <= concurrency <= 20 && 1 <= timeout <= 600 && maxPairs > 0 }
  }

  datatype Meeting = Meeting(source: string, target: Candidate) {
    /** The relation is symmetric, so both orders have one key. */
    function Key(): (string, string) {
      if Text.Le(source, target.syncId) then (source, target.syncId) else (target.syncId, source)
    }
  }

  datatype Outcome = Refused | Failed | Done(pairs: seq<Meeting>, inspected: nat, alreadyJudged: nat)

  /// What a scan meets, in order

  function MeetingsOf(source: string, candidates: seq<Candidate>): (r: seq<Meeting>)
    ensures |r| == |candidates|
  {
    seq(|candidates|, i requires 0 <= i < |candidates| => Meeting(source, candidates[i]))
  }

  function Meetings(observations: seq<Observation>): seq<Meeting> {
    if observations == [] then []
    else
      var last := observations[|observations| - 1];
      Meetings(observations[..|observations| - 1])
      + if last.candidates.None? then [] else MeetingsOf(last.syncId, last.candidates.value)
  }

  /** The first meeting of the two. */
  ghost predicate FirstMeeting(ms: seq<Meeting>, i: nat)
    requires i < |ms|
  {
    forall j | 0 <= j < i :: ms[j].Key() != ms[i].Key()
  }

  predicate Open(m: Meeting) { !m.target.judged && m.target.readable }

  /** The questions among these meetings: of every pair its first meeting, when that
      pair has no verdict and its target can be read. */
  ghost function Questions(ms: seq<Meeting>): (r: seq<Meeting>)
    ensures |r| <= |ms|
  {
    if ms == [] then []
    else
      var (front, last) := (Questions(ms[..|ms| - 1]), ms[|ms| - 1]);
      if FirstMeeting(ms, |ms| - 1) && Open(last) then front + [last] else front
  }

  ghost function Judged(ms: seq<Meeting>): nat {
    if ms == [] then 0
    else Judged(ms[..|ms| - 1]) + if FirstMeeting(ms, |ms| - 1) && ms[|ms| - 1].target.judged then 1 else 0
  }

  ghost function Keys(ms: seq<Meeting>): set<(string, string)> { set m | m in ms :: m.Key() }

  lemma OneMore(ms: seq<Meeting>, m: Meeting)
    ensures var now := ms + [m];
            var first := m.Key() !in Keys(ms);
            && Keys(now) == Keys(ms) + {m.Key()}
            && Questions(now) == (if first && Open(m) then Questions(ms) + [m] else Questions(ms))
            && Judged(now) == Judged(ms) + if first && m.target.judged then 1 else 0
  {
    var now := ms + [m];
    assert now[..|ms|] == ms && now[|ms|] == m;
    assert FirstMeeting(now, |ms|) <==> m.Key() !in Keys(ms) by {
      if m.Key() in Keys(ms) {
        var j :| 0 <= j < |ms| && ms[j].Key() == m.Key();
        assert now[j].Key() == now[|ms|].Key();
      }
      forall j | 0 <= j < |ms| ensures ms[j].Key() in Keys(ms) && now[j] == ms[j] {}
    }
  }

  ghost predicate Held(met: seq<Meeting>, pairs: seq<Meeting>, seen: set<(string, string)>, alreadyJudged: nat) {
    pairs == Questions(met) && seen == Keys(met) && alreadyJudged == Judged(met)
  }

  /** One candidate: whether it becomes a question. */
  method Consider(m: Meeting, pairs: seq<Meeting>, seen: set<(string, string)>, alreadyJudged: nat, ghost met: seq<Meeting>)
    returns (nowPairs: seq<Meeting>, nowSeen: set<(string, string)>, nowJudged: nat)
    requires Held(met, pairs, seen, alreadyJudged)
    ensures Held(met + [m], nowPairs, nowSeen, nowJudged) && |pairs| <= |nowPairs| <= |pairs| + 1
  {
    OneMore(met, m);
    nowPairs, nowSeen, nowJudged := pairs, seen + {m.Key()}, alreadyJudged;
    if m.Key() in seen {
      return;
    }
    if m.target.judged {
      nowJudged := nowJudged + 1;
      return;
    }
    if !m.target.readable {
      return;
    }
    nowPairs := nowPairs + [m];
  }

  /** The inner loop, which stops where the budget is full. */
  method ConsiderAll(source: string, candidates: seq<Candidate>, maxPairs: nat, pairs: seq<Meeting>, seen: set<(string, string)>,
                     alreadyJudged: nat, ghost met: seq<Meeting>)
    returns (nowPairs: seq<Meeting>, nowSeen: set<(string, string)>, nowJudged: nat, ghost n: nat)
    requires Held(met, pairs, seen, alreadyJudged) && |pairs| < maxPairs
    ensures n <= |candidates| && |nowPairs| <= maxPairs && (|nowPairs| < maxPairs ==> n == |candidates|)
    ensures Held(met + MeetingsOf(source, candidates)[..n], nowPairs, nowSeen, nowJudged)
    ensures |nowPairs| == maxPairs ==> n > 0 && |Questions(met + MeetingsOf(source, candidates)[..n - 1])| < maxPairs
  {
    nowPairs, nowSeen, nowJudged, n := pairs, seen, alreadyJudged, 0;
    assert met + MeetingsOf(source, candidates)[..0] == met;
    for i := 0 to |candidates|
      invariant n == i && |nowPairs| < maxPairs
      invariant Held(met + MeetingsOf(source, candidates)[..i], nowPairs, nowSeen, nowJudged)
    {
      var m := Meeting(source, candidates[i]);
      ghost var before := met + MeetingsOf(source, candidates)[..i];
      assert met + MeetingsOf(source, candidates)[..i + 1] == before + [m];
      nowPairs, nowSeen, nowJudged := Consider(m, nowPairs, nowSeen, nowJudged, before);
      n := n + 1;
      if |nowPairs| >= maxPairs {
        return;
      }
    }
  }

  lemma {:induction false} MeetingsGrow(observations: seq<Observation>, i: nat)
    requires i <= |observations|
    ensures Meetings(observations[..i]) <= Meetings(observations)
    decreases |observations|
  {
    if i < |observations| {
      MeetingsGrow(observations[..|observations| - 1], i);
      assert observations[..|observations| - 1][..i] == observations[..i];
    } else {
      assert observations[..i] == observations;
    }
  }

  lemma MeetingsNext(observations: seq<Observation>, i: nat)
    requires i < |observations|
    ensures var (before, o) := (Meetings(observations[..i]), observations[i]);
            Meetings(observations[..i + 1]) == before + if o.candidates.None? then [] else MeetingsOf(o.syncId, o.candidates.value)
  {
    assert observations[..i + 1][..i] == observations[..i];
  }

  /** It was the last meeting that filled the budget. */
  ghost predicate JustFull(met: seq<Meeting>, maxPairs: nat) {
    met != [] && |Questions(met[..|met| - 1])| < maxPairs
  }

  lemma MetSoFar(observations: seq<Observation>, i: nat, before: seq<Meeting>, whole: seq<Meeting>, n: nat, maxPairs: nat)
    requires i <= |observations| && Meetings(observations[..i]) == before + whole && 0 < n <= |whole|
    requires |Questions(before + whole[..n - 1])| < maxPairs
    ensures before + whole[..n] <= Meetings(observations) && JustFull(before + whole[..n], maxPairs)
  {
    MeetingsGrow(observations, i);
    Beginning(before, whole, n);
  }

  lemma Beginning(before: seq<Meeting>, whole: seq<Meeting>, n: nat)
    requires 0 < n <= |whole|
    ensures var met := before + whole[..n]; met <= before + whole && met[..|met| - 1] == before + whole[..n - 1]
  {
  }

  /** The scan. `met` is everything met before it stopped. */
  method CollectPairs(observations: seq<Observation>, options: Options) returns (r: Outcome, ghost met: seq<Meeting>)
    ensures r.Refused? <==> !options.Valid()
    ensures r.Done? ==> met <= Meetings(observations) && r.inspected <= |observations|
    ensures r.Done? ==> r.pairs == Questions(met) && r.alreadyJudged == Judged(met) && |r.pairs| <= options.maxPairs
    ensures r.Done? && |r.pairs| < options.maxPairs ==> met == Meetings(observations) && r.inspected == |observations|
    ensures r.Done? && |r.pairs| == options.maxPairs ==> JustFull(met, options.maxPairs)
    ensures r.Failed? ==> |Questions(met)| < options.maxPairs && exists o | o in observations :: o.candidates.None?
  {
    met := [];
    if !options.Valid() {
      return Refused, met;
    }
    var pairs: seq<Meeting>, seen: set<(string, string)>, alreadyJudged, inspected := [], {}, 0, 0;
    while inspected < |observations|
      invariant inspected <= |observations| && met == Meetings(observations[..inspected])
      invariant Held(met, pairs, seen, alreadyJudged) && |pairs| < options.maxPairs
    {
      var observation := observations[inspected];
      MeetingsNext(observations, inspected);
      inspected := inspected + 1;
      if observation.candidates.None? {
        return Failed, met;
      }
      ghost var n, whole := 0, MeetingsOf(observation.syncId, observation.candidates.value);
      ghost var before := met;
      pairs, seen, alreadyJudged, n :=
        ConsiderAll(observation.syncId, observation.candidates.value, options.maxPairs, pairs, seen, alreadyJudged, met);
      met := before + whole[..n];
      if |pairs| >= options.maxPairs {
        MetSoFar(observations, inspected, before, whole, n, options.maxPairs);
        return Done(pairs, inspected, alreadyJudged), met;
      }
      assert whole[..n] == whole;
    }
    assert observations[..inspected] == observations;
    return Done(pairs, inspected, alreadyJudged), met;
  }

  /// What the questions are

  lemma {:induction false} KeysOnce(ms: seq<Meeting>)
    ensures forall i, j | 0 <= i < j < |Questions(ms)| :: Questions(ms)[i].Key() != Questions(ms)[j].Key()
    ensures forall q | q in Questions(ms) :: q in ms
  {
    if ms != [] {
      var front := ms[..|ms| - 1];
      assert ms == front + [ms[|ms| - 1]];
      KeysOnce(front);
      OneMore(front, ms[|ms| - 1]);
    }
  }

  /** Two meetings of the same two memories, in one order or the other. */
  predicate SamePair(m: Meeting, n: Meeting) {
    || (m.source == n.source && m.target.syncId == n.target.syncId)
    || (m.source == n.target.syncId && m.target.syncId == n.source)
  }

  /** The key is the same from either end. */
  lemma KeyIsSymmetric(a: string, b: Candidate, c: Candidate)
    requires c.syncId == a
    ensures Meeting(a, b).Key() == Meeting(b.syncId, c).Key()
  {
    Text.LeTotal(a, b.syncId);
    if Text.Le(a, b.syncId) && Text.Le(b.syncId, a) {
      Text.LeAntisymmetric(a, b.syncId);
    }
  }

  lemma KeyIsThePair(m: Meeting, n: Meeting)
    ensures m.Key() == n.Key() <==> SamePair(m, n)
  {
    if m.source == n.target.syncId && m.target.syncId == n.source {
      KeyIsSymmetric(m.source, m.target, n.target);
      assert n == Meeting(m.target.syncId, n.target);
    }
  }

  /** No two questions are about the same two memories, whichever of the two was
      looked at first. */
  lemma AskedOnce(ms: seq<Meeting>)
    ensures forall i, j | 0 <= i < j < |Questions(ms)| :: !SamePair(Questions(ms)[i], Questions(ms)[j])
    ensures forall q | q in Questions(ms) :: q in ms
  {
    KeysOnce(ms);
    forall i, j | 0 <= i < j < |Questions(ms)| ensures !SamePair(Questions(ms)[i], Questions(ms)[j]) {
      KeyIsThePair(Questions(ms)[i], Questions(ms)[j]);
    }
  }

  lemma {:induction false} KeyAskedIff(ms: seq<Meeting>, i: nat)
    requires i < |ms| && FirstMeeting(ms, i)
    ensures Open(ms[i]) <==> exists q :: q in Questions(ms) && q.Key() == ms[i].Key()
  {
    var (front, last) := (ms[..|ms| - 1], ms[|ms| - 1]);
    assert ms == front + [last];
    OneMore(front, last);
    if i < |front| {
      assert FirstMeeting(front, i);
      KeyAskedIff(front, i);
      assert front[i].Key() in Keys(front);
    } else if Open(last) {
      assert last in Questions(ms);
    } else {
      KeysOnce(front);
    }
  }

  /** A pair met is asked about, in one order or the other, if and only if its first
      meeting found no verdict and something to read. */
  lemma AskedIff(ms: seq<Meeting>, i: nat)
    requires i < |ms| && FirstMeeting(ms, i)
    ensures Open(ms[i]) <==> exists q :: q in Questions(ms) && SamePair(q, ms[i])
  {
    KeyAskedIff(ms, i);
    forall q: Meeting ensures q.Key() == ms[i].Key() <==> SamePair(q, ms[i]) {
      KeyIsThePair(q, ms[i]);
    }
  }

  /** A budget only cuts the list short: what it lets through is the beginning of
      what no budget would have. */
  lemma {:induction false} BudgetCutsShort(ms: seq<Meeting>, met: seq<Meeting>)
    requires met <= ms
    ensures Questions(met) <= Questions(ms)
    decreases |ms|
  {
    if met != ms {
      var front := ms[..|ms| - 1];
      assert met <= front;
      BudgetCutsShort(front, met);
    }
  }
}
