/** The list a drain of `src/hooks/spool.rs` walks, on top of the claims of
    `SpoolClaim`: what it listed, how far it has come, and what it went past without
    claiming. */
module SpoolDrain {
  import opened SpoolClaim
  import opened Wrappers

  /** One drain's walk: the entries it listed, how many it has come to, those whose
      claim came to nothing, and whether its deadline ended it. */
  datatype Visit = Visit(listed: seq<Entry>, next: nat, passed: seq<Entry>, late: bool)

  datatype Tour = Tour(base: State, visits: map<Drainer, Visit>)

  /** A step of the claims that no walk decides, or one that a walk does: list the
      directory, claim the next entry, go past it because its marker is there or could
      not be made, or end, at the list's end or at the deadline. */
  datatype Move =
    | Do(step: Step)
    | List(d: Drainer, listed: seq<Entry>)
    | Claim(d: Drainer)
    | Barred(d: Drainer)
    | Refused(d: Drainer)
    | End(d: Drainer)
    | Deadline(d: Drainer)

  predicate NextFor(t: Tour, d: Drainer) {
    At(t.base, d) && t.base.pcs[d] == Idle && d in t.visits && t.visits[d].next < |t.visits[d].listed|
  }

  function NextEntry(t: Tour, d: Drainer): Entry
    requires NextFor(t, d)
  {
    t.visits[d].listed[t.visits[d].next]
  }

  predicate Possible(c: Config, t: Tour, move: Move) {
    match move
    case Do(step) => Enabled(c, t.base, step) && !step.Join? && !step.Mark? && !step.Stop? && (Owner(step).Some? ==> step.d in t.visits)
    case List(d, listed) => Enabled(c, t.base, Join(d)) && d !in t.visits
    case Claim(d) => NextFor(t, d) && Enabled(c, t.base, Mark(d, NextEntry(t, d)))
    case Barred(d) => NextFor(t, d) && c.fenced && NextEntry(t, d) in t.base.markers
    case Refused(d) => NextFor(t, d)
    case End(d) => Enabled(c, t.base, Stop(d)) && d in t.visits && t.visits[d].next == |t.visits[d].listed|
    case Deadline(d) => NextFor(t, d) && Enabled(c, t.base, Stop(d))
  }

  /** What the walk does to the claims, if it does anything to them. */
  function Claims(c: Config, t: Tour, move: Move): Option<Step>
    requires Possible(c, t, move)
  {
    match move
    case Do(step) => Some(step)
    case List(d, _) => Some(Join(d))
    case Claim(d) => Some(Mark(d, NextEntry(t, d)))
    case Barred(_) => None
    case Refused(_) => None
    case End(d) => Some(Stop(d))
    case Deadline(d) => Some(Stop(d))
  }

  /** The claim of this entry came to nothing: its marker was there or was not made, or
      the rename inside the marker did not move it. */
  predicate PassesOver(c: Config, t: Tour, move: Move, d: Drainer, e: Entry) {
    || (move in {Barred(d), Refused(d)} && NextFor(t, d) && NextEntry(t, d) == e)
    || (move.Do? && move.step.Unmark? && move.step.d == d && At(t.base, d) && t.base.pcs[d] == Renamed(e, false))
  }

  function Walked(c: Config, t: Tour, move: Move): map<Drainer, Visit>
    requires Possible(c, t, move)
  {
    match move
    case Do(step) =>
      if step.Unmark? && !t.base.pcs[step.d].moved then t.visits[step.d := Passed(t.visits[step.d], t.base.pcs[step.d].entry)] else t.visits
    case List(d, listed) => t.visits[d := Visit(listed, 0, [], false)]
    case Claim(d) => t.visits[d := Onward(t.visits[d])]
    case Barred(d) => t.visits[d := Passed(Onward(t.visits[d]), NextEntry(t, d))]
    case Refused(d) => t.visits[d := Passed(Onward(t.visits[d]), NextEntry(t, d))]
    case End(d) => t.visits
    case Deadline(d) => t.visits[d := t.visits[d].(late := true)]
  }

  function Onward(v: Visit): Visit { v.(next := v.next + 1) }

  function Passed(v: Visit, e: Entry): Visit { v.(passed := v.passed + [e]) }

  function Make(c: Config, t: Tour, move: Move): Tour
    requires Possible(c, t, move)
  {
    Tour(if Claims(c, t, move).Some? then Take(c, t.base, Claims(c, t, move).value) else t.base, Walked(c, t, move))
  }

  ghost predicate TourRun(c: Config, run: seq<Tour>, moves: seq<Move>) {
    && |run| == |moves| + 1 && Initial(run[0].base) && run[0].visits == map[]
    && forall i | 0 <= i < |moves| :: Possible(c, run[i], moves[i]) && run[i + 1] == Make(c, run[i], moves[i])
  }

  /// What was proved of the claims holds on every tour

  /** Leaving out what happens to no claim, a tour is a run of the claims. */
  lemma {:induction false} ATourIsARun(c: Config, run: seq<Tour>, moves: seq<Move>, n: nat) returns (states: seq<State>, steps: seq<Step>)
    requires TourRun(c, run, moves) && n < |run|
    ensures Run(c, states, steps) && states[|steps|] == run[n].base
  {
    if n == 0 {
      states, steps := [run[0].base], [];
    } else {
      states, steps := ATourIsARun(c, run, moves, n - 1);
      assert run[n - 1 + 1] == Make(c, run[n - 1], moves[n - 1]);
      var step := Claims(c, run[n - 1], moves[n - 1]);
      if step.Some? {
        states, steps := OneMoreStep(c, states, steps, step.value);
      }
    }
  }

  lemma ToursAreSafe(c: Config, run: seq<Tour>, moves: seq<Move>, n: nat)
    requires (c.fenced || !c.split) && TourRun(c, run, moves) && n < |run|
    ensures Inv(c, run[n].base) && AllBalanced(run[n].base)
  {
    var states, steps := ATourIsARun(c, run, moves, n);
    EveryStateIsSafe(c, states, steps, |steps|);
    EveryDrainBalances(c, states, steps, |steps|);
  }

  /// How far a walk has come

  predicate InHand(pc: Pc) { pc.Marked? || pc.Opened? || pc.Renamed? || pc.Holding? || pc.Loaded? || pc.Giving? }

  /** Nothing is left to be done with the entry: its claim came to nothing, or its
      replay is over. */
  ghost predicate Settled(v: Visit, endings: seq<Ending>, d: Drainer, e: Entry) {
    e in v.passed || e in EndedBy(endings, d)
  }

  /** The last entry come to may still be in hand, be given back, or have died with the drain. */
  predicate Open(pc: Pc, r: Report) { InHand(pc) || pc.Crashed? || (pc == Stopped && r.returned > 0) }

  ghost predicate VisitOk(v: Visit, pc: Pc, r: Report, endings: seq<Ending>, d: Drainer) {
    && v.next <= |v.listed|
    && (InHand(pc) ==> v.next > 0 && v.listed[v.next - 1] == pc.entry)
    && (forall i | 0 <= i < v.next :: Settled(v, endings, d, v.listed[i]) || (i == v.next - 1 && Open(pc, r)))
    && (pc == Stopped && r.returned == 0 && !v.late ==> v.next == |v.listed|)
    && (pc.Crashed? || v.next == |v.passed| + r.claimed + if InClaim(pc) then 1 else 0)
  }

  ghost predicate WalkOk(t: Tour, d: Drainer) {
    At(t.base, d) && d in t.visits && VisitOk(t.visits[d], t.base.pcs[d], t.base.reports[d], t.base.endings, d)
  }

  ghost predicate AllVisitsOk(t: Tour) {
    && t.visits.Keys == t.base.pcs.Keys == t.base.reports.Keys
    && forall d | d in t.visits :: WalkOk(t, d)
  }

  lemma EndedByStays(a: seq<Ending>, b: seq<Ending>, d: Drainer)
    requires a <= b
    ensures EndedBy(a, d) <= EndedBy(b, d)
  {
    forall e | e in EndedBy(a, d) ensures e in EndedBy(b, d) {
      var i :| 0 <= i < |a| && a[i].drainer == d && a[i].entry == e;
      assert b[i] == a[i];
    }
  }

  /** Others' endings, and a drain's own walk at rest. */
  lemma VisitStays(v: Visit, pc: Pc, r: Report, a: seq<Ending>, b: seq<Ending>, d: Drainer)
    requires VisitOk(v, pc, r, a, d) && a <= b
    ensures VisitOk(v, pc, r, b, d)
  {
    EndedByStays(a, b, d);
  }

  /** The same entry, another place in its claim or its replay. */
  lemma Carries(v: Visit, pc: Pc, to: Pc, r: Report, endings: seq<Ending>, d: Drainer)
    requires VisitOk(v, pc, r, endings, d) && InHand(pc) && InHand(to) && to.entry == pc.entry && InClaim(to) == InClaim(pc)
    ensures VisitOk(v, to, r, endings, d)
  {
  }

  /** The claim is over: the entry is claimed, or passed over. */
  lemma Unmarks(v: Visit, pc: Pc, r: Report, endings: seq<Ending>, d: Drainer)
    requires VisitOk(v, pc, r, endings, d) && pc.Renamed?
    ensures pc.moved ==> VisitOk(v, Holding(pc.entry), r.(claimed := r.claimed + 1), endings, d)
    ensures !pc.moved ==> VisitOk(Passed(v, pc.entry), Idle, r, endings, d)
  {
  }

  /** The replay is over. */
  lemma Finishes(v: Visit, pc: Pc, r: Report, to: Report, endings: seq<Ending>, last: Ending)
    requires VisitOk(v, pc, r, endings, last.drainer) && (pc.Holding? || pc.Loaded?) && last.entry == pc.entry && to.claimed == r.claimed
    ensures VisitOk(v, Idle, to, endings + [last], last.drainer)
  {
    EndedByStays(endings, endings + [last], last.drainer);
    assert (endings + [last])[|endings|] == last;
    assert last.entry in EndedBy(endings + [last], last.drainer);
  }

  lemma GivesBack(v: Visit, pc: Pc, r: Report, endings: seq<Ending>, d: Drainer)
    requires VisitOk(v, pc, r, endings, d) && (pc.Loaded? || pc.Giving?)
    ensures VisitOk(v, Stopped, r.(returned := r.returned + 1), endings, d)
  {
  }

  lemma Dies(v: Visit, pc: Pc, r: Report, endings: seq<Ending>, d: Drainer, last: Option<Entry>)
    requires VisitOk(v, pc, r, endings, d)
    ensures VisitOk(v, Crashed(last), r, endings, d)
  {
  }

  /** The next entry is being claimed. */
  lemma ComesTo(v: Visit, r: Report, endings: seq<Ending>, d: Drainer)
    requires VisitOk(v, Idle, r, endings, d) && v.next < |v.listed|
    ensures VisitOk(Onward(v), Marked(v.listed[v.next]), r, endings, d)
  {
  }

  lemma GoesPast(v: Visit, r: Report, endings: seq<Ending>, d: Drainer)
    requires VisitOk(v, Idle, r, endings, d) && v.next < |v.listed|
    ensures VisitOk(Passed(Onward(v), v.listed[v.next]), Idle, r, endings, d)
  {
    var (e, u) := (v.listed[v.next], Passed(Onward(v), v.listed[v.next]));
    assert u.passed[|v.passed|] == e;
    forall i | 0 <= i < u.next ensures Settled(u, endings, d, u.listed[i]) {
      if i < v.next { assert Settled(v, endings, d, v.listed[i]); }
    }
  }

  lemma Stops(v: Visit, late: bool, r: Report, endings: seq<Ending>, d: Drainer)
    requires VisitOk(v, Idle, r, endings, d) && (late || v.next == |v.listed|)
    ensures VisitOk(v.(late := late), Stopped, r, endings, d)
  {
  }

  /// Every move keeps it

  /** Where a claim step that stays with its entry takes its drain. */
  predicate StaysInHand(step: Step) {
    step.Rename? || step.Open? || step.Move? || step.Fail? || step.Load? || step.GiveOpen?
  }

  lemma StaysWith(c: Config, s: State, step: Step)
    requires Enabled(c, s, step) && StaysInHand(step)
    ensures var (t, d) := (Take(c, s, step), step.d);
            && d in s.pcs && d in s.reports && d in t.pcs && d in t.reports && t.reports[d] == s.reports[d] && t.endings == s.endings
            && InHand(s.pcs[d]) && InHand(t.pcs[d]) && t.pcs[d].entry == s.pcs[d].entry && InClaim(t.pcs[d]) == InClaim(s.pcs[d])
  {
  }

  predicate Returns(step: Step) { step.GiveBack? || step.GiveMove? || step.GiveFail? }

  lemma ReturnsFrom(c: Config, s: State, step: Step)
    requires Enabled(c, s, step) && Returns(step)
    ensures var (t, d) := (Take(c, s, step), step.d);
            && d in s.pcs && d in s.reports && (s.pcs[d].Loaded? || s.pcs[d].Giving?) && d in t.pcs && d in t.reports
            && t.pcs[d] == Stopped && t.reports[d] == s.reports[d].(returned := s.reports[d].returned + 1) && t.endings == s.endings
  {
  }

  lemma UnmarkKept(c: Config, t: Tour, step: Step)
    requires step.Unmark? && Possible(c, t, Do(step)) && WalkOk(t, step.d)
    ensures WalkOk(Make(c, t, Do(step)), step.d)
  {
    Unmarks(t.visits[step.d], t.base.pcs[step.d], t.base.reports[step.d], t.base.endings, step.d);
  }

  lemma OwnWalkKept(c: Config, t: Tour, step: Step)
    requires Possible(c, t, Do(step)) && AllVisitsOk(t) && Owner(step).Some?
    ensures WalkOk(Make(c, t, Do(step)), step.d)
  {
    var (s, d) := (t.base, step.d);
    var (v, pc, r) := (t.visits[d], s.pcs[d], s.reports[d]);
    assert WalkOk(t, d);
    if StaysInHand(step) {
      StaysWith(c, s, step);
      Carries(v, pc, Take(c, s, step).pcs[d], r, s.endings, d);
    } else if Returns(step) {
      ReturnsFrom(c, s, step);
      GivesBack(v, pc, r, s.endings, d);
    } else if step.Unmark? {
      UnmarkKept(c, t, step);
    } else if step.Crash? {
      Dies(v, pc, r, s.endings, d, Taken(pc));
    } else {
      FinishesThere(c, s, step);
      Finishes(v, pc, r, Take(c, s, step).reports[d], s.endings, Ending(d, pc.entry, step.Store?));
    }
  }

  lemma FinishesThere(c: Config, s: State, step: Step)
    requires Enabled(c, s, step) && (step.Drop? || step.Store?)
    ensures var (t, d) := (Take(c, s, step), step.d);
            && d in s.pcs && d in s.reports && (s.pcs[d].Holding? || s.pcs[d].Loaded?) && d in t.pcs && d in t.reports
            && t.pcs[d] == Idle && t.reports[d].claimed == s.reports[d].claimed
            && t.endings == s.endings + [Ending(d, s.pcs[d].entry, step.Store?)]
  {
  }

  lemma EndingsGrow(c: Config, s: State, step: Step)
    requires Enabled(c, s, step)
    ensures s.endings <= Take(c, s, step).endings
  {
  }

  /** Whose walk a move is part of. */
  function Walker(move: Move): Option<Drainer> {
    if move.Do? then Owner(move.step) else Some(move.d)
  }

  lemma OthersWalkOn(c: Config, t: Tour, move: Move, f: Drainer)
    requires Possible(c, t, move) && AllVisitsOk(t) && f in t.visits && Walker(move) != Some(f)
    ensures WalkOk(Make(c, t, move), f)
  {
    var step := Claims(c, t, move);
    assert WalkOk(t, f);
    if step.Some? {
      EndingsGrow(c, t.base, step.value);
      OthersUntouched(c, t.base, step.value, f);
      VisitStays(t.visits[f], t.base.pcs[f], t.base.reports[f], t.base.endings, Take(c, t.base, step.value).endings, f);
    }
  }

  lemma ListKept(c: Config, t: Tour, d: Drainer, listed: seq<Entry>)
    requires Possible(c, t, List(d, listed))
    ensures WalkOk(Make(c, t, List(d, listed)), d)
  {
    JoinsAtNothing(c, t.base, d);
  }

  lemma ClaimKept(c: Config, t: Tour, d: Drainer)
    requires Possible(c, t, Claim(d)) && WalkOk(t, d)
    ensures WalkOk(Make(c, t, Claim(d)), d)
  {
    ComesTo(t.visits[d], t.base.reports[d], t.base.endings, d);
  }

  lemma PassKept(c: Config, t: Tour, move: Move)
    requires (move.Barred? || move.Refused?) && Possible(c, t, move) && WalkOk(t, move.d)
    ensures WalkOk(Make(c, t, move), move.d)
  {
    GoesPast(t.visits[move.d], t.base.reports[move.d], t.base.endings, move.d);
  }

  lemma StopKept(c: Config, t: Tour, move: Move)
    requires (move.End? || move.Deadline?) && Possible(c, t, move) && WalkOk(t, move.d)
    ensures WalkOk(Make(c, t, move), move.d)
  {
    var v := t.visits[move.d];
    Stops(v, v.late || move.Deadline?, t.base.reports[move.d], t.base.endings, move.d);
  }

  lemma WalkKept(c: Config, t: Tour, move: Move)
    requires Possible(c, t, move) && AllVisitsOk(t) && !move.Do?
    ensures WalkOk(Make(c, t, move), move.d)
  {
    if move.List? {
      ListKept(c, t, move.d, move.listed);
    } else {
      assert WalkOk(t, move.d);
      if move.Claim? { ClaimKept(c, t, move.d); }
      else if move.Barred? || move.Refused? { PassKept(c, t, move); }
      else { StopKept(c, t, move); }
    }
  }

  lemma WhoWalks(c: Config, t: Tour, move: Move)
    requires Possible(c, t, move) && t.visits.Keys == t.base.pcs.Keys == t.base.reports.Keys
    ensures var u := Make(c, t, move); u.visits.Keys == u.base.pcs.Keys == u.base.reports.Keys
    ensures Make(c, t, move).visits.Keys == t.visits.Keys + if move.List? then {move.d} else {}
  {
    if Claims(c, t, move).Some? { WhoIsThere(c, t.base, Claims(c, t, move).value); }
  }

  lemma MoveKeepsVisits(c: Config, t: Tour, move: Move)
    requires Possible(c, t, move) && AllVisitsOk(t)
    ensures AllVisitsOk(Make(c, t, move))
  {
    var u := Make(c, t, move);
    WhoWalks(c, t, move);
    forall f | f in u.visits ensures WalkOk(u, f) {
      if Walker(move) != Some(f) { OthersWalkOn(c, t, move, f); }
      else if move.Do? { OwnWalkKept(c, t, move.step); }
      else { WalkKept(c, t, move); }
    }
  }

  lemma {:induction false} EveryVisitIsOk(c: Config, run: seq<Tour>, moves: seq<Move>, n: nat)
    requires TourRun(c, run, moves) && n < |run|
    ensures AllVisitsOk(run[n])
  {
    if n > 0 {
      EveryVisitIsOk(c, run, moves, n - 1);
      assert run[n - 1 + 1] == Make(c, run[n - 1], moves[n - 1]);
      MoveKeepsVisits(c, run[n - 1], moves[n - 1]);
    }
  }

  /** Nothing is counted among the passed that was not passed over. */
  lemma {:induction false} PassedWasPassedOver(c: Config, run: seq<Tour>, moves: seq<Move>, n: nat, d: Drainer, e: Entry)
    requires TourRun(c, run, moves) && n < |run| && d in run[n].visits && e in run[n].visits[d].passed
    ensures exists k | 0 <= k < n :: PassesOver(c, run[k], moves[k], d, e)
  {
    assert n > 0;
    var (t, move) := (run[n - 1], moves[n - 1]);
    assert run[n - 1 + 1] == Make(c, t, move);
    NewlyPassed(c, t, move, d, e);
    if PassesOver(c, t, move, d, e) {
    } else {
      PassedWasPassedOver(c, run, moves, n - 1, d, e);
    }
  }

  lemma NewlyPassed(c: Config, t: Tour, move: Move, d: Drainer, e: Entry)
    requires Possible(c, t, move) && d in Make(c, t, move).visits && e in Make(c, t, move).visits[d].passed
    ensures PassesOver(c, t, move, d, e) || (d in t.visits && e in t.visits[d].passed)
  {
  }

  /// What a drain leaves

  /** A drain that stopped has gone through its list from the oldest on, and of every
      entry it came to it finished the replay or passed it over, except the one it gave
      back; it stops short of the end only at its deadline or at a busy store. */
  lemma WhatADrainWentThrough(c: Config, run: seq<Tour>, moves: seq<Move>, n: nat, d: Drainer)
    requires TourRun(c, run, moves) && n < |run| && At(run[n].base, d) && run[n].base.pcs[d] == Stopped
    ensures d in run[n].visits && run[n].visits[d].next <= |run[n].visits[d].listed|
    ensures var (v, r) := (run[n].visits[d], run[n].base.reports[d]);
            && (v.next < |v.listed| ==> v.late || r.returned > 0)
            && (forall i | 0 <= i < v.next :: Settled(v, run[n].base.endings, d, v.listed[i]) || (i == v.next - 1 && r.returned > 0))
            && v.next == |v.passed| + r.claimed
  {
    EveryVisitIsOk(c, run, moves, n);
    assert WalkOk(run[n], d);
  }

  lemma ListedKept(c: Config, t: Tour, move: Move, d: Drainer)
    requires Possible(c, t, move) && d in t.visits
    ensures d in Make(c, t, move).visits && Make(c, t, move).visits[d].listed == t.visits[d].listed
  {
  }

  /** What a drain walks is what it listed. */
  lemma {:induction false} WalksWhatItListed(c: Config, run: seq<Tour>, moves: seq<Move>, i: nat, n: nat, d: Drainer, listed: seq<Entry>)
    requires TourRun(c, run, moves) && i < n < |run| && moves[i] == List(d, listed)
    ensures d in run[n].visits && run[n].visits[d].listed == listed
    decreases n
  {
    assert run[n - 1 + 1] == Make(c, run[n - 1], moves[n - 1]);
    if i < n - 1 {
      WalksWhatItListed(c, run, moves, i, n - 1, d, listed);
      ListedKept(c, run[n - 1], moves[n - 1], d);
    }
  }

  lemma {:induction false} NotLate(c: Config, run: seq<Tour>, moves: seq<Move>, i: nat, n: nat, d: Drainer, listed: seq<Entry>)
    requires TourRun(c, run, moves) && i < n < |run| && moves[i] == List(d, listed) && forall k | i < k < n :: moves[k] != Deadline(d)
    ensures d in run[n].visits && !run[n].visits[d].late
    decreases n
  {
    assert run[n - 1 + 1] == Make(c, run[n - 1], moves[n - 1]);
    if i < n - 1 {
      NotLate(c, run, moves, i, n - 1, d, listed);
      LateKept(c, run[n - 1], moves[n - 1], d);
    }
  }

  lemma LateKept(c: Config, t: Tour, move: Move, d: Drainer)
    requires Possible(c, t, move) && d in t.visits && !t.visits[d].late && move != Deadline(d)
    ensures d in Make(c, t, move).visits && !Make(c, t, move).visits[d].late
  {
  }

  /** A drain that met neither its deadline nor a busy store leaves an entry it listed
      waiting only when its own claim of it came to nothing: the marker was there, it
      could not be made, or the rename inside it failed. */
  lemma OnlyThePassedOverIsLeft(c: Config, run: seq<Tour>, moves: seq<Move>, i: nat, n: nat, d: Drainer, listed: seq<Entry>, e: Entry)
    requires (c.fenced || !c.split) && TourRun(c, run, moves) && n < |run| && At(run[n].base, d) && run[n].base.pcs[d] == Stopped
    requires i < n && moves[i] == List(d, listed) && (forall k | i < k < n :: moves[k] != Deadline(d)) && run[n].base.reports[d].returned == 0
    requires e in listed && e in run[n].base.files && run[n].base.files[e] == Waiting
    ensures exists k | 0 <= k < n :: PassesOver(c, run[k], moves[k], d, e)
  {
    WalksWhatItListed(c, run, moves, i, n, d, listed);
    NotLate(c, run, moves, i, n, d, listed);
    WhatADrainWentThrough(c, run, moves, n, d);
    ToursAreSafe(c, run, moves, n);
    var v := run[n].visits[d];
    var j :| 0 <= j < |v.listed| && v.listed[j] == e;
    assert Settled(v, run[n].base.endings, d, v.listed[j]);
    PassedWasPassedOver(c, run, moves, n, d, e);
  }

  /** Such a drain's report accounts for its whole list. */
  lemma AWholeListIsAccountedFor(c: Config, run: seq<Tour>, moves: seq<Move>, n: nat, d: Drainer)
    requires (c.fenced || !c.split) && TourRun(c, run, moves) && n < |run| && At(run[n].base, d) && run[n].base.pcs[d] == Stopped
    requires d in run[n].visits && !run[n].visits[d].late && run[n].base.reports[d].returned == 0
    ensures var (v, r) := (run[n].visits[d], run[n].base.reports[d]); |v.listed| == |v.passed| + r.replayed + r.dropped
  {
    WhatADrainWentThrough(c, run, moves, n, d);
    ToursAreSafe(c, run, moves, n);
    assert Balanced(run[n].base, d);
  }

  /// What a marker left behind costs

  ghost predicate Unclaimed(s: State, e: Entry) {
    forall d | d in s.pcs && InClaim(s.pcs[d]) :: s.pcs[d].entry != e
  }

  /** The entry waits behind a marker nobody is going to remove. */
  ghost predicate Stranded(s: State, e: Entry) {
    e in s.files && s.files[e] == Waiting && e in s.markers && Unclaimed(s, e)
  }

  /** The steps that strand an entry: the drain that made its marker dies before the
      rename, or cannot remove it after one that failed; or the entry comes to wait, given
      back or spooled, where a marker was left. */
  ghost predicate Strands(s: State, step: Step, e: Entry) {
    e in s.markers && match step
    case Crash(d) => d in s.pcs && InClaim(s.pcs[d]) && s.pcs[d].entry == e && e in s.files && s.files[e] == Waiting
    case Unmark(d, removed) => d in s.pcs && s.pcs[d] == Renamed(e, false) && !removed && e in s.files && s.files[e] == Waiting
    case GiveBack(d) => d in s.pcs && Taken(s.pcs[d]) == Some(e) && Unclaimed(s, e)
    case GiveMove(d) => d in s.pcs && Taken(s.pcs[d]) == Some(e) && Unclaimed(s, e)
    case Spool(f) => f == e && Unclaimed(s, e)
    case _ => false
  }

  lemma ClaimsOf(c: Config, s: State, step: Step, e: Entry)
    requires c.fenced && Enabled(c, s, step) && Unclaimed(s, e) && !step.Mark?
    ensures Unclaimed(Take(c, s, step), e) && (e in s.markers ==> e in Take(c, s, step).markers)
  {
  }

  lemma StrandedStays(c: Config, s: State, step: Step, e: Entry)
    requires c.fenced && Enabled(c, s, step) && Stranded(s, e) && step != Evict(e)
    ensures Stranded(Take(c, s, step), e)
  {
    if step.Mark? {
      assert step.entry != e;
    } else {
      ClaimsOf(c, s, step, e);
      StillWaits(c, s, step, e);
    }
  }

  lemma StillWaits(c: Config, s: State, step: Step, e: Entry)
    requires c.fenced && Enabled(c, s, step) && Stranded(s, e) && step != Evict(e)
    ensures e in Take(c, s, step).files && Take(c, s, step).files[e] == Waiting
  {
  }

  lemma ClaimStrandsNothing(c: Config, s: State, step: Step, e: Entry)
    requires c.fenced && Fenced(s) && Enabled(c, s, step) && (step.Mark? || step.Rename? || step.Open? || step.Move? || step.Fail?)
    ensures Stranded(Take(c, s, step), e) ==> Stranded(s, e)
  {
    var (t, d) := (Take(c, s, step), step.d);
    assert d in t.pcs && InClaim(t.pcs[d]);
    if Stranded(t, e) {
      assert t.pcs[d].entry != e;
      forall f | f in s.pcs && InClaim(s.pcs[f]) ensures s.pcs[f].entry != e {
        assert f != d ==> t.pcs[f] == s.pcs[f];
      }
    }
  }

  /** A drain leaves its claim, one way or another. */
  lemma LeavingStrands(c: Config, s: State, step: Step, e: Entry)
    requires c.fenced && Inv(c, s) && Enabled(c, s, step) && (step.Crash? || step.Unmark?)
    ensures Stranded(Take(c, s, step), e) <==> Stranded(s, e) || Strands(s, step, e)
  {
    var (t, d) := (Take(c, s, step), step.d);
    assert DrainerOk(c, s, d) && t.files == s.files;
    if InClaim(s.pcs[d]) {
      OnlyItsClaim(s, d, t, e);
    } else {
      SameClaims(s, d, t, e);
    }
  }

  lemma OnlyItsClaim(s: State, d: Drainer, t: State, e: Entry)
    requires Fenced(s) && d in s.pcs && InClaim(s.pcs[d]) && d in t.pcs && !InClaim(t.pcs[d]) && t.pcs == s.pcs[d := t.pcs[d]]
    ensures s.pcs[d].entry == e ==> Unclaimed(t, e) && !Unclaimed(s, e) && e in s.markers
    ensures s.pcs[d].entry != e ==> (Unclaimed(t, e) <==> Unclaimed(s, e))
  {
    forall f | f in s.pcs && f != d ensures f in t.pcs && t.pcs[f] == s.pcs[f] {}
  }

  lemma RestStrandsNothing(c: Config, s: State, step: Step, e: Entry)
    requires c.fenced && Enabled(c, s, step)
    requires step.Join? || step.Load? || step.Drop? || step.Store? || step.GiveOpen? || step.GiveFail? || step.Stop? || step.Evict?
    ensures Stranded(Take(c, s, step), e) ==> Stranded(s, e) && step != Evict(e)
  {
    var t := Take(c, s, step);
    forall f | f in s.pcs && InClaim(s.pcs[f]) && Stranded(t, e) ensures s.pcs[f].entry != e {
      assert f in t.pcs && t.pcs[f] == s.pcs[f];
    }
  }

  lemma BackWhereAMarkerIs(c: Config, s: State, step: Step, e: Entry)
    requires c.fenced && Inv(c, s) && Enabled(c, s, step) && (step.GiveBack? || step.GiveMove? || step.Spool?)
    ensures Stranded(Take(c, s, step), e) <==> Stranded(s, e) || Strands(s, step, e)
  {
    var t := Take(c, s, step);
    if step.Spool? {
      assert t.pcs == s.pcs;
    } else {
      assert DrainerOk(c, s, step.d) && !InClaim(s.pcs[step.d]);
      SameClaims(s, step.d, t, e);
    }
  }

  lemma SameClaims(s: State, d: Drainer, t: State, e: Entry)
    requires d in s.pcs && !InClaim(s.pcs[d]) && d in t.pcs && !InClaim(t.pcs[d]) && t.pcs == s.pcs[d := t.pcs[d]]
    ensures Unclaimed(t, e) <==> Unclaimed(s, e)
  {
    forall f | f in s.pcs ensures InClaim(s.pcs[f]) == InClaim(t.pcs[f]) && (InClaim(s.pcs[f]) ==> t.pcs[f] == s.pcs[f]) {}
  }

  lemma StrandedNext(c: Config, s: State, step: Step, e: Entry)
    requires c.fenced && Inv(c, s) && Enabled(c, s, step)
    ensures Stranded(Take(c, s, step), e) <==> (Stranded(s, e) && step != Evict(e)) || Strands(s, step, e)
  {
    if Stranded(s, e) && step != Evict(e) { StrandedStays(c, s, step, e); }
    if step.Crash? || step.Unmark? { LeavingStrands(c, s, step, e); }
    else if step.GiveBack? || step.GiveMove? || step.Spool? { BackWhereAMarkerIs(c, s, step, e); }
    else if step.Mark? || step.Rename? || step.Open? || step.Move? || step.Fail? { ClaimStrandsNothing(c, s, step, e); }
    else { RestStrandsNothing(c, s, step, e); }
  }

  /** One of those steps stranded it, and the cap has not removed it since. */
  ghost predicate StrandedBy(run: seq<State>, steps: seq<Step>, n: nat, e: Entry)
    requires n <= |steps| < |run|
  {
    exists m | 0 <= m < n :: Strands(run[m], steps[m], e) && forall i | m < i < n :: steps[i] != Evict(e)
  }

  lemma StrandedByNext(run: seq<State>, steps: seq<Step>, n: nat, e: Entry)
    requires 0 < n <= |steps| < |run|
    ensures StrandedBy(run, steps, n, e)
       <==> (StrandedBy(run, steps, n - 1, e) && steps[n - 1] != Evict(e)) || Strands(run[n - 1], steps[n - 1], e)
  {
    if StrandedBy(run, steps, n, e) && !Strands(run[n - 1], steps[n - 1], e) {
      var m :| 0 <= m < n && Strands(run[m], steps[m], e) && forall i | m < i < n :: steps[i] != Evict(e);
      assert m < n - 1;
    }
  }

  /** Over every run: an entry waits where no drain can claim it exactly when one of
      those steps put it there. */
  lemma {:induction false} StrandedIff(c: Config, run: seq<State>, steps: seq<Step>, n: nat, e: Entry)
    requires c.fenced && Run(c, run, steps) && n < |run|
    ensures Stranded(run[n], e) <==> StrandedBy(run, steps, n, e)
  {
    if n > 0 {
      StrandedIff(c, run, steps, n - 1, e);
      EveryStateIsSafe(c, run, steps, n - 1);
      assert run[n - 1 + 1] == Take(c, run[n - 1], steps[n - 1]);
      StrandedNext(c, run[n - 1], steps[n - 1], e);
      StrandedByNext(run, steps, n, e);
    }
  }

  /** A stranded entry is never taken and never replayed: it waits until the cap or its
      age removes it. */
  lemma {:induction false} StrandedForGood(c: Config, run: seq<State>, steps: seq<Step>, m: nat, n: nat, e: Entry)
    requires c.fenced && Run(c, run, steps) && m <= n < |run| && Stranded(run[m], e)
    requires forall i | m <= i < n :: steps[i] != Evict(e)
    ensures Stranded(run[n], e) && !Ended(run[n], e)
    ensures forall d | d in run[n].pcs :: Taken(run[n].pcs[d]) != Some(e)
    decreases n
  {
    if n > m {
      StrandedForGood(c, run, steps, m, n - 1, e);
      assert run[n - 1 + 1] == Take(c, run[n - 1], steps[n - 1]);
      StrandedStays(c, run[n - 1], steps[n - 1], e);
    }
    EveryStateIsSafe(c, run, steps, n);
    NobodyHas(c, run[n], e);
  }

  lemma NobodyHas(c: Config, s: State, e: Entry)
    requires Inv(c, s) && Stranded(s, e)
    ensures !Ended(s, e) && forall d | d in s.pcs :: Taken(s.pcs[d]) != Some(e)
  {
    forall d | d in s.pcs ensures Taken(s.pcs[d]) != Some(e) {
      assert DrainerOk(c, s, d);
    }
  }

  /** Killed between making the marker and renaming the entry. */
  lemma ACrashStrands(c: Config) returns (run: seq<State>, steps: seq<Step>)
    requires c.fenced
    ensures Run(c, run, steps) && Stranded(run[|steps|], 0)
  {
    run, steps := OneMarked(c);
    run, steps := OneMoreStep(c, run, steps, Crash(1));
  }
}
