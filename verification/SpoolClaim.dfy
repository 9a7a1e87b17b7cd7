/** The claim protocol of `src/hooks/spool.rs`: any number of drainers, in one
    process or several, replaying captures from one directory without a lock.

    An entry is one file, whatever it is called: its own name while it waits, and
    the name its claimer gave it afterwards. `split` is how Windows renames (open
    the source, then move that handle wherever the file now is); otherwise a
    rename is one step. `fenced` is the `create_new` marker held across it. */
module SpoolClaim {
  import opened Wrappers

  type Entry = nat
  type Drainer = nat

  /** Where an entry's file is: under its own name, under `.claimed-<pid>`, or removed. */
  datatype Place = Waiting | Claimed(pid: nat) | Gone

  /** Where one drain is. */
  datatype Pc =
    | Idle
    | Marked(entry: Entry)
    | Opened(entry: Entry)
    | Renamed(entry: Entry, moved: bool)
    | Holding(entry: Entry)
    | Loaded(entry: Entry)
    | Giving(entry: Entry)
    | Stopped
    | Crashed(last: Option<Entry>)

  /** The counters of one `DrainReport`; `replayed` counts the entries whose
      learnings reached the store. */
  datatype Report = Report(claimed: nat, returned: nat, replayed: nat, dropped: nat)

  datatype Ending = Ending(drainer: Drainer, entry: Entry, stored: bool)

  datatype State = State(
    files: map<Entry, Place>, markers: set<Entry>,
    pcs: map<Drainer, Pc>, reports: map<Drainer, Report>,
    endings: seq<Ending>)

  datatype Config = Config(fenced: bool, split: bool, pid: Drainer -> nat)

  datatype Step =
    | Spool(entry: Entry)
    | Evict(entry: Entry)
    | Join(d: Drainer)
    | Mark(d: Drainer, entry: Entry)
    | Rename(d: Drainer)
    | Open(d: Drainer)
    | Move(d: Drainer)
    | Fail(d: Drainer)
    | Unmark(d: Drainer, removed: bool)
    | Load(d: Drainer)
    | Drop(d: Drainer, removed: bool)
    | Store(d: Drainer, removed: bool)
    | GiveBack(d: Drainer)
    | GiveOpen(d: Drainer)
    | GiveMove(d: Drainer)
    | GiveFail(d: Drainer)
    | Stop(d: Drainer)
    | Crash(d: Drainer)

  ghost predicate Initial(s: State) {
    && (forall e | e in s.files :: s.files[e] == Waiting)
    && s.markers == {} && s.pcs == map[] && s.reports == map[] && s.endings == []
  }

  /** The claimed file of `e` is there for `d` to read, remove or rename. */
  predicate Mine(c: Config, s: State, d: Drainer, e: Entry) {
    e in s.files && s.files[e] == Claimed(c.pid(d))
  }

  predicate At(s: State, d: Drainer) { d in s.pcs && d in s.reports }

  predicate Enabled(c: Config, s: State, step: Step) {
    match step
    case Spool(e) => e !in s.files
    case Evict(e) => e in s.files && s.files[e] == Waiting
    case Join(d) => d !in s.pcs
    case Mark(d, e) => At(s, d) && s.pcs[d] == Idle && (c.fenced ==> e !in s.markers)
    case Rename(d) => At(s, d) && !c.split && s.pcs[d].Marked?
    case Open(d) => At(s, d) && c.split && s.pcs[d].Marked?
    case Move(d) => At(s, d) && s.pcs[d].Opened?
    case Fail(d) => At(s, d) && (s.pcs[d].Marked? || s.pcs[d].Opened?)
    case Unmark(d, removed) => At(s, d) && s.pcs[d].Renamed?
    case Load(d) => At(s, d) && s.pcs[d].Holding? && Mine(c, s, d, s.pcs[d].entry)
    case Drop(d, removed) => At(s, d) && (s.pcs[d].Holding? || s.pcs[d].Loaded?)
    case Store(d, removed) => At(s, d) && s.pcs[d].Loaded?
    case GiveBack(d) => At(s, d) && !c.split && s.pcs[d].Loaded? && Mine(c, s, d, s.pcs[d].entry)
    case GiveOpen(d) => At(s, d) && c.split && s.pcs[d].Loaded? && Mine(c, s, d, s.pcs[d].entry)
    case GiveMove(d) => At(s, d) && s.pcs[d].Giving? && s.pcs[d].entry in s.files && s.files[s.pcs[d].entry] != Gone
    case GiveFail(d) => At(s, d) && (s.pcs[d].Loaded? || s.pcs[d].Giving?)
    case Stop(d) => At(s, d) && s.pcs[d] == Idle
    case Crash(d) => At(s, d) && !s.pcs[d].Crashed?
  }

  function Go(s: State, d: Drainer, pc: Pc): State { s.(pcs := s.pcs[d := pc]) }

  function Put(s: State, e: Entry, p: Place): State { s.(files := s.files[e := p]) }

  function Counted(s: State, d: Drainer, r: Report): State { s.(reports := s.reports[d := r]) }

  /** The entry a drain has taken out of the others' reach. */
  function Taken(pc: Pc): Option<Entry> {
    match pc
    case Renamed(e, true) => Some(e)
    case Holding(e) => Some(e)
    case Loaded(e) => Some(e)
    case Giving(e) => Some(e)
    case Crashed(last) => last
    case _ => None
  }

  /** `remove_file(&claimed)`: by name, so only a file that is there. */
  function Removed(c: Config, s: State, d: Drainer, e: Entry): State {
    if Mine(c, s, d, e) then Put(s, e, Gone) else s
  }

  function Take(c: Config, s: State, step: Step): State
    requires Enabled(c, s, step)
  {
    match step
    case Spool(e) => Put(s, e, Waiting)
    case Evict(e) => Put(s, e, Gone)
    case Join(d) => Counted(Go(s, d, Idle), d, Report(0, 0, 0, 0))
    case Mark(d, e) =>
      var t := Go(s, d, Marked(e));
      if c.fenced then t.(markers := s.markers + {e}) else t
    case Rename(d) =>
      var e := s.pcs[d].entry;
      if e in s.files && s.files[e] == Waiting then Go(Put(s, e, Claimed(c.pid(d))), d, Renamed(e, true))
      else Go(s, d, Renamed(e, false))
    case Open(d) =>
      var e := s.pcs[d].entry;
      Go(s, d, if e in s.files && s.files[e] == Waiting then Opened(e) else Renamed(e, false))
    case Move(d) =>
      var e := s.pcs[d].entry;
      if e in s.files && s.files[e] != Gone then Go(Put(s, e, Claimed(c.pid(d))), d, Renamed(e, true))
      else Go(s, d, Renamed(e, false))
    case Fail(d) => Go(s, d, Renamed(s.pcs[d].entry, false))
    case Unmark(d, removed) =>
      var e := s.pcs[d].entry;
      var t := if removed then s.(markers := s.markers - {e}) else s;
      var r := s.reports[d];
      if s.pcs[d].moved then Counted(Go(t, d, Holding(e)), d, r.(claimed := r.claimed + 1)) else Go(t, d, Idle)
    case Load(d) => Go(s, d, Loaded(s.pcs[d].entry))
    case Drop(d, removed) =>
      var (e, r) := (s.pcs[d].entry, s.reports[d]);
      var t := if removed then Removed(c, s, d, e) else s;
      Counted(Go(t, d, Idle), d, r.(dropped := r.dropped + 1)).(endings := s.endings + [Ending(d, e, false)])
    case Store(d, removed) =>
      var (e, r) := (s.pcs[d].entry, s.reports[d]);
      var t := if removed then Removed(c, s, d, e) else s;
      Counted(Go(t, d, Idle), d, r.(replayed := r.replayed + 1)).(endings := s.endings + [Ending(d, e, true)])
    case GiveBack(d) => Returned(Put(s, s.pcs[d].entry, Waiting), d)
    case GiveOpen(d) => Go(s, d, Giving(s.pcs[d].entry))
    case GiveMove(d) => Returned(Put(s, s.pcs[d].entry, Waiting), d)
    case GiveFail(d) => Returned(s, d)
    case Stop(d) => Go(s, d, Stopped)
    case Crash(d) => Go(s, d, Crashed(Taken(s.pcs[d])))
  }

  function Returned(s: State, d: Drainer): State
    requires At(s, d)
  {
    var r := s.reports[d];
    Counted(Go(s, d, Stopped), d, r.(returned := r.returned + 1))
  }

  ghost predicate Run(c: Config, run: seq<State>, steps: seq<Step>) {
    && |run| == |steps| + 1 && Initial(run[0])
    && forall i | 0 <= i < |steps| :: Enabled(c, run[i], steps[i]) && run[i + 1] == Take(c, run[i], steps[i])
  }

  /// What the protocol promises

  /** No two drains have taken the same entry. */
  ghost predicate Exclusive(s: State) {
    forall d, f | d in s.pcs && f in s.pcs && Taken(s.pcs[d]).Some? && Taken(s.pcs[d]) == Taken(s.pcs[f]) :: d == f
  }

  /** No entry's replay is ever finished twice. */
  ghost predicate OnceEach(s: State) {
    forall i, j | 0 <= i < j < |s.endings| :: s.endings[i].entry != s.endings[j].entry
  }

  ghost predicate Ended(s: State, e: Entry) {
    exists i | 0 <= i < |s.endings| :: s.endings[i].entry == e
  }

  /** Nothing is assumed to go well: a drain may die anywhere, every operation on a file
      may fail, and whatever waits may be evicted. */
  lemma AnythingMayGoWrong(c: Config, s: State, d: Drainer, e: Entry, removed: bool)
    requires At(s, d)
    ensures !s.pcs[d].Crashed? ==> Enabled(c, s, Crash(d))
    ensures s.pcs[d].Marked? || s.pcs[d].Opened? ==> Enabled(c, s, Fail(d))
    ensures s.pcs[d].Renamed? ==> Enabled(c, s, Unmark(d, removed))
    ensures s.pcs[d].Holding? || s.pcs[d].Loaded? ==> Enabled(c, s, Drop(d, removed))
    ensures s.pcs[d].Loaded? ==> Enabled(c, s, Store(d, removed))
    ensures s.pcs[d].Loaded? || s.pcs[d].Giving? ==> Enabled(c, s, GiveFail(d))
    ensures e in s.files && s.files[e] == Waiting ==> Enabled(c, s, Evict(e))
  {
  }

  /// Why it holds

  /** Between making the marker and removing it. */
  predicate InClaim(pc: Pc) { pc.Marked? || pc.Opened? || pc.Renamed? }

  /** A fenced claim is inside its marker, alone. */
  ghost predicate Fenced(s: State) {
    && (forall d | d in s.pcs && InClaim(s.pcs[d]) :: s.pcs[d].entry in s.markers)
    && forall d, f | d in s.pcs && f in s.pcs && InClaim(s.pcs[d]) && InClaim(s.pcs[f]) && s.pcs[d].entry == s.pcs[f].entry :: d == f
  }

  ghost predicate DrainerOk(c: Config, s: State, d: Drainer)
    requires d in s.pcs
  {
    var pc := s.pcs[d];
    && (Taken(pc).Some? ==> Mine(c, s, d, Taken(pc).value) && !Ended(s, Taken(pc).value))
    && (pc.Opened? ==> pc.entry in s.files && !s.files[pc.entry].Claimed? && !Ended(s, pc.entry))
    && (!c.split ==> !pc.Opened? && !pc.Giving?)
  }

  ghost predicate EndedOk(s: State) {
    forall i | 0 <= i < |s.endings| :: s.endings[i].entry in s.files && s.files[s.endings[i].entry] != Waiting
  }

  ghost predicate Safe(c: Config, s: State) {
    && s.pcs.Keys == s.reports.Keys
    && (forall d | d in s.pcs :: DrainerOk(c, s, d))
    && EndedOk(s) && Exclusive(s) && OnceEach(s)
  }

  ghost predicate Inv(c: Config, s: State) {
    (c.fenced ==> Fenced(s)) && Safe(c, s)
  }

  /** The drain a step belongs to, if it belongs to one already there. */
  function Owner(step: Step): Option<Drainer> {
    if step.Spool? || step.Evict? || step.Join? then None else Some(step.d)
  }

  /** The marker is made by one claim and removed by the same one. */
  lemma FencedKeeps(c: Config, s: State, step: Step)
    requires c.fenced && Fenced(s) && Enabled(c, s, step)
    ensures Fenced(Take(c, s, step))
  {
    var t := Take(c, s, step);
    if step.Mark? {
      MarkedAlone(s, step.d, step.entry);
    } else if step.Unmark? {
      UnmarkedAlone(s, step.d, t);
    } else if Owner(step).Some? {
      StaysInClaim(c, s, step);
      InsideAlone(s, step.d, t);
    }
  }

  lemma MarkedAlone(s: State, d: Drainer, e: Entry)
    requires Fenced(s) && e !in s.markers
    ensures Fenced(Go(s, d, Marked(e)).(markers := s.markers + {e}))
  {
  }

  lemma UnmarkedAlone(s: State, d: Drainer, t: State)
    requires Fenced(s) && d in s.pcs && InClaim(s.pcs[d]) && d in t.pcs && !InClaim(t.pcs[d]) && t.pcs == s.pcs[d := t.pcs[d]]
    requires t.markers == s.markers || t.markers == s.markers - {s.pcs[d].entry}
    ensures Fenced(t)
  {
  }

  lemma InsideAlone(s: State, d: Drainer, t: State)
    requires Fenced(s) && d in s.pcs && d in t.pcs && t.pcs == s.pcs[d := t.pcs[d]] && t.markers == s.markers
    requires InClaim(t.pcs[d]) ==> InClaim(s.pcs[d]) && t.pcs[d].entry == s.pcs[d].entry
    ensures Fenced(t)
  {
  }

  lemma StaysInClaim(c: Config, s: State, step: Step)
    requires Enabled(c, s, step) && Owner(step).Some? && !step.Mark? && !step.Unmark?
    ensures var (t, d) := (Take(c, s, step), step.d);
            && d in s.pcs && d in t.pcs && t.pcs == s.pcs[d := t.pcs[d]] && t.markers == s.markers
            && (InClaim(t.pcs[d]) ==> InClaim(s.pcs[d]) && t.pcs[d].entry == s.pcs[d].entry)
  {
  }

  lemma ComeAndGoKeeps(c: Config, s: State, step: Step)
    requires Safe(c, s) && Enabled(c, s, step)
    requires step.Spool? || step.Evict? || step.Join?
    ensures Safe(c, Take(c, s, step))
  {
    var t := Take(c, s, step);
    forall d | d in t.pcs ensures DrainerOk(c, t, d) {
      if d in s.pcs { assert DrainerOk(c, s, d); }
    }
  }

  /** Going on with what one has taken, or leaving it, disturbs nobody. */
  lemma MovesOn(c: Config, s: State, d: Drainer, pc: Pc, t: State)
    requires Safe(c, s) && d in s.pcs && (Taken(pc) == None || Taken(pc) == Taken(s.pcs[d]))
    requires !pc.Opened? && (!c.split ==> !pc.Giving?)
    requires t.pcs == s.pcs[d := pc] && t.files == s.files && t.endings == s.endings && t.reports.Keys == s.reports.Keys
    ensures Safe(c, t)
  {
    forall f | f in t.pcs ensures DrainerOk(c, t, f) {
      assert DrainerOk(c, s, f);
    }
  }

  lemma MarkKeeps(c: Config, s: State, step: Step)
    requires Safe(c, s) && Enabled(c, s, step) && (step.Mark? || step.Fail?)
    ensures Safe(c, Take(c, s, step))
  {
    MovesOn(c, s, step.d, if step.Mark? then Marked(step.entry) else Renamed(s.pcs[step.d].entry, false), Take(c, s, step));
  }

  lemma UnmarkKeeps(c: Config, s: State, step: Step)
    requires Safe(c, s) && Enabled(c, s, step) && step.Unmark?
    ensures Safe(c, Take(c, s, step))
  {
    var pc := s.pcs[step.d];
    MovesOn(c, s, step.d, if pc.moved then Holding(pc.entry) else Idle, Take(c, s, step));
  }

  lemma RenameKeeps(c: Config, s: State, step: Step)
    requires Safe(c, s) && Enabled(c, s, step)
    requires step.Rename?
    ensures Safe(c, Take(c, s, step))
  {
    var t := Take(c, s, step);
    forall d | d in t.pcs ensures DrainerOk(c, t, d) {
      assert DrainerOk(c, s, d);
    }
  }

  lemma OpenKeeps(c: Config, s: State, step: Step)
    requires Safe(c, s) && Enabled(c, s, step)
    requires step.Open?
    ensures Safe(c, Take(c, s, step))
  {
    var t := Take(c, s, step);
    forall d | d in t.pcs ensures DrainerOk(c, t, d) {
      assert DrainerOk(c, s, d);
    }
  }

  /** Where the marker matters: nobody else can hold a handle on this entry, so
      the file a handle moves is still where it was opened. */
  lemma MoveKeeps(c: Config, s: State, step: Step)
    requires Inv(c, s) && c.fenced && Enabled(c, s, step)
    requires step.Move?
    ensures Safe(c, Take(c, s, step))
  {
    var t := Take(c, s, step);
    forall d | d in t.pcs ensures DrainerOk(c, t, d) {
      assert DrainerOk(c, s, d) && DrainerOk(c, s, step.d);
    }
  }

  lemma LoadKeeps(c: Config, s: State, step: Step)
    requires Safe(c, s) && Enabled(c, s, step) && (step.Load? || step.GiveOpen?)
    ensures Safe(c, Take(c, s, step))
  {
    var e := s.pcs[step.d].entry;
    MovesOn(c, s, step.d, if step.Load? then Loaded(e) else Giving(e), Take(c, s, step));
  }

  lemma StopKeeps(c: Config, s: State, step: Step)
    requires Safe(c, s) && Enabled(c, s, step) && (step.Stop? || step.Crash?)
    ensures Safe(c, Take(c, s, step))
  {
    MovesOn(c, s, step.d, if step.Stop? then Stopped else Crashed(Taken(s.pcs[step.d])), Take(c, s, step));
  }

  lemma GiveKeeps(c: Config, s: State, step: Step)
    requires Safe(c, s) && Enabled(c, s, step)
    requires step.GiveBack? || step.GiveMove?
    ensures Safe(c, Take(c, s, step))
  {
    assert DrainerOk(c, s, step.d);
    GivenBackKeeps(c, s, step.d, s.pcs[step.d].entry);
  }

  /** The entry has its name again, and nobody has it. */
  lemma GivenBackKeeps(c: Config, s: State, d: Drainer, e: Entry)
    requires Safe(c, s) && At(s, d) && Taken(s.pcs[d]) == Some(e)
    ensures Safe(c, Returned(Put(s, e, Waiting), d))
  {
    var t := Returned(Put(s, e, Waiting), d);
    GivenBackIsNotEnded(c, s, d);
    forall f | f in t.pcs ensures DrainerOk(c, t, f) {
      assert DrainerOk(c, s, f) && DrainerOk(c, s, d);
    }
  }

  lemma GivenBackIsNotEnded(c: Config, s: State, d: Drainer)
    requires Safe(c, s) && d in s.pcs && Taken(s.pcs[d]).Some?
    ensures forall i | 0 <= i < |s.endings| :: s.endings[i].entry != Taken(s.pcs[d]).value
    ensures forall f | f in s.pcs && f != d :: Taken(s.pcs[f]) != Taken(s.pcs[d])
  {
    assert DrainerOk(c, s, d);
  }

  lemma GiveFailKeeps(c: Config, s: State, step: Step)
    requires Safe(c, s) && Enabled(c, s, step) && step.GiveFail?
    ensures Safe(c, Take(c, s, step))
  {
    MovesOn(c, s, step.d, Stopped, Take(c, s, step));
  }

  lemma EndedMore(s: State, t: State, last: Ending)
    requires t.endings == s.endings + [last]
    ensures forall e :: Ended(t, e) <==> Ended(s, e) || e == last.entry
  {
    assert t.endings[|s.endings|] == last;
    forall e | Ended(s, e) ensures Ended(t, e) {
      var i :| 0 <= i < |s.endings| && s.endings[i].entry == e;
      assert t.endings[i].entry == e;
    }
  }

  lemma EndKeeps(c: Config, s: State, step: Step)
    requires Safe(c, s) && Enabled(c, s, step) && (step.Drop? || step.Store?)
    ensures Safe(c, Take(c, s, step))
  {
    var (d, e) := (step.d, s.pcs[step.d].entry);
    assert DrainerOk(c, s, d);
    FinishedKeeps(c, s, d, e, Ending(d, e, step.Store?), step.removed, Take(c, s, step));
  }

  /** A replay is over, and its file is removed or left claimed. */
  lemma FinishedKeeps(c: Config, s: State, d: Drainer, e: Entry, last: Ending, removed: bool, t: State)
    requires Safe(c, s) && d in s.pcs && Taken(s.pcs[d]) == Some(e) && last.entry == e
    requires t.pcs == s.pcs[d := Idle] && t.reports.Keys == s.reports.Keys && t.endings == s.endings + [last]
    requires t.files == s.files[e := if removed then Gone else s.files[e]]
    ensures Safe(c, t)
  {
    assert DrainerOk(c, s, d);
    EndedMore(s, t, last);
    forall f | f in t.pcs ensures DrainerOk(c, t, f) { assert DrainerOk(c, s, f); }
  }

  lemma StepKeeps(c: Config, s: State, step: Step)
    requires Inv(c, s) && (c.fenced || !c.split) && Enabled(c, s, step)
    ensures Inv(c, Take(c, s, step))
  {
    if c.fenced { FencedKeeps(c, s, step); }
    if step.Spool? || step.Evict? || step.Join? { ComeAndGoKeeps(c, s, step); }
    else if step.Mark? || step.Fail? { MarkKeeps(c, s, step); }
    else if step.Unmark? { UnmarkKeeps(c, s, step); }
    else if step.Rename? { RenameKeeps(c, s, step); }
    else if step.Open? { OpenKeeps(c, s, step); }
    else if step.Move? { assert DrainerOk(c, s, step.d); MoveKeeps(c, s, step); }
    else if step.Drop? || step.Store? { EndKeeps(c, s, step); }
    else if step.GiveBack? || step.GiveMove? { GiveKeeps(c, s, step); }
    else if step.GiveFail? { GiveFailKeeps(c, s, step); }
    else if step.Load? || step.GiveOpen? { LoadKeeps(c, s, step); }
    else { StopKeeps(c, s, step); }
  }

  /** In every interleaving, whoever crashes wherever. */
  lemma {:induction false} EveryStateIsSafe(c: Config, run: seq<State>, steps: seq<Step>, n: nat)
    requires (c.fenced || !c.split) && Run(c, run, steps) && n < |run|
    ensures Inv(c, run[n])
  {
    if n > 0 {
      EveryStateIsSafe(c, run, steps, n - 1);
      assert run[n - 1 + 1] == Take(c, run[n - 1], steps[n - 1]);
      StepKeeps(c, run[n - 1], steps[n - 1]);
    }
  }

  /// Why the marker is there

  lemma OneMoreStep(c: Config, run: seq<State>, steps: seq<Step>, step: Step) returns (longer: seq<State>, more: seq<Step>)
    requires Run(c, run, steps) && Enabled(c, run[|steps|], step)
    ensures Run(c, longer, more) && more == steps + [step]
    ensures longer[|more|] == Take(c, run[|steps|], step)
  {
    longer, more := run + [Take(c, run[|steps|], step)], steps + [step];
  }

  lemma BothMarked(c: Config) returns (run: seq<State>, steps: seq<Step>)
    requires !c.fenced && c.split
    ensures Run(c, run, steps)
    ensures run[|steps|] == State(map[0 := Waiting], {}, map[1 := Marked(0), 2 := Marked(0)],
                                  map[1 := Report(0, 0, 0, 0), 2 := Report(0, 0, 0, 0)], [])
  {
    run, steps := [State(map[0 := Waiting], {}, map[], map[], [])], [];
    run, steps := OneMoreStep(c, run, steps, Join(1));
    run, steps := OneMoreStep(c, run, steps, Join(2));
    run, steps := OneMoreStep(c, run, steps, Mark(1, 0));
    run, steps := OneMoreStep(c, run, steps, Mark(2, 0));
  }

  /** Two drainers in the middle of one claim each, with a handle apiece. */
  lemma BothOpen(c: Config) returns (run: seq<State>, steps: seq<Step>)
    requires !c.fenced && c.split
    ensures Run(c, run, steps)
    ensures var s := run[|steps|];
            && s.files == map[0 := Waiting] && s.pcs == map[1 := Opened(0), 2 := Opened(0)]
            && s.reports.Keys == {1, 2} && s.endings == []
  {
    run, steps := BothMarked(c);
    run, steps := OneMoreStep(c, run, steps, Open(1));
    run, steps := OneMoreStep(c, run, steps, Open(2));
  }

  /** The first drainer has read the capture while the second has its handle. */
  lemma FirstLoaded(c: Config) returns (run: seq<State>, steps: seq<Step>)
    requires !c.fenced && c.split
    ensures Run(c, run, steps)
    ensures var s := run[|steps|];
            && s.files == map[0 := Claimed(c.pid(1))] && s.pcs == map[1 := Loaded(0), 2 := Opened(0)]
            && s.reports.Keys == {1, 2} && s.endings == []
  {
    run, steps := BothOpen(c);
    run, steps := OneMoreStep(c, run, steps, Move(1));
    run, steps := OneMoreStep(c, run, steps, Unmark(1, true));
    run, steps := OneMoreStep(c, run, steps, Load(1));
  }

  /** The second then moves the file away, and has it too. */
  lemma BothLoaded(c: Config) returns (run: seq<State>, steps: seq<Step>)
    requires !c.fenced && c.split
    ensures Run(c, run, steps)
    ensures var s := run[|steps|];
            s.pcs == map[1 := Loaded(0), 2 := Loaded(0)] && s.reports.Keys == {1, 2} && s.endings == []
  {
    run, steps := FirstLoaded(c);
    run, steps := OneMoreStep(c, run, steps, Move(2));
    run, steps := OneMoreStep(c, run, steps, Unmark(2, true));
    run, steps := OneMoreStep(c, run, steps, Load(2));
  }

  lemma UnfencedReplaysTwice(c: Config) returns (run: seq<State>, steps: seq<Step>)
    requires !c.fenced && c.split
    ensures Run(c, run, steps)
    ensures run[|steps|].endings == [Ending(1, 0, true), Ending(2, 0, true)]
  {
    run, steps := BothLoaded(c);
    run, steps := OneMoreStep(c, run, steps, Store(1, true));
    run, steps := OneMoreStep(c, run, steps, Store(2, true));
  }

  ghost predicate NeverTwice(c: Config) {
    forall run: seq<State>, steps: seq<Step> | Run(c, run, steps) :: OnceEach(run[|steps|])
  }

  /** No entry is replayed twice exactly when claims are fenced or a rename is one
      step: on Windows the marker is what excludes, elsewhere the rename would do. */
  lemma NeverTwiceIff(c: Config)
    ensures NeverTwice(c) <==> c.fenced || !c.split
  {
    if c.fenced || !c.split {
      forall run: seq<State>, steps: seq<Step> | Run(c, run, steps) ensures OnceEach(run[|steps|]) {
        EveryStateIsSafe(c, run, steps, |steps|);
      }
    } else {
      var run, steps := UnfencedReplaysTwice(c);
      assert run[|steps|].endings[0].entry == run[|steps|].endings[1].entry;
    }
  }

  /// What the reports add up to

  /** The entries whose replay this drain finished. */
  ghost function EndedBy(endings: seq<Ending>, d: Drainer): set<Entry> {
    set i | 0 <= i < |endings| && endings[i].drainer == d :: endings[i].entry
  }

  /** What a claim still open adds to `claimed`: nothing until it is counted. */
  predicate Counts(pc: Pc) { pc.Holding? || pc.Loaded? || pc.Giving? }

  predicate BalancedOf(r: Report, pc: Pc, ended: nat) {
    var open := r.claimed - (r.returned + r.replayed + r.dropped);
    && (if pc.Crashed? then 0 <= open <= (if pc.last.Some? then 1 else 0) else open == if Counts(pc) then 1 else 0)
    && r.returned <= (if pc == Stopped || pc.Crashed? then 1 else 0)
    && r.replayed + r.dropped == ended
  }

  ghost predicate Balanced(s: State, d: Drainer)
    requires At(s, d)
  {
    BalancedOf(s.reports[d], s.pcs[d], |EndedBy(s.endings, d)|)
  }

  ghost predicate AllBalanced(s: State) {
    s.pcs.Keys == s.reports.Keys && (forall d | d in s.pcs :: Balanced(s, d))
    && forall i | 0 <= i < |s.endings| :: s.endings[i].drainer in s.pcs
  }

  lemma EndedByMore(s: seq<Ending>, last: Ending, d: Drainer)
    requires forall i | 0 <= i < |s| :: s[i].entry != last.entry
    ensures EndedBy(s + [last], d) == EndedBy(s, d) + (if last.drainer == d then {last.entry} else {})
    ensures last.entry !in EndedBy(s, d)
  {
    var t := s + [last];
    assert t[|s|] == last;
    forall e | e in EndedBy(s, d) ensures e in EndedBy(t, d) {
      var i :| 0 <= i < |s| && s[i].drainer == d && s[i].entry == e;
      assert t[i] == s[i];
    }
  }

  /** The one drain a step belongs to keeps its balance; `ended` is how many
      replays it had finished before. */
  lemma OwnBalanceKept(c: Config, s: State, step: Step, d: Drainer, ended: nat)
    requires Enabled(c, s, step) && At(s, d) && BalancedOf(s.reports[d], s.pcs[d], ended)
    requires Owner(step) == Some(d)
    ensures var t := Take(c, s, step);
            At(t, d) && BalancedOf(t.reports[d], t.pcs[d], if step.Drop? || step.Store? then ended + 1 else ended)
  {
    if !step.Drop? && !step.Store? && !step.Unmark? && !step.Crash? { OwnPlaceMoves(c, s, step, d, ended); }
  }

  lemma OwnPlaceMoves(c: Config, s: State, step: Step, d: Drainer, ended: nat)
    requires Enabled(c, s, step) && At(s, d) && BalancedOf(s.reports[d], s.pcs[d], ended) && Owner(step) == Some(d)
    requires !step.Drop? && !step.Store? && !step.Unmark? && !step.Crash?
    ensures var t := Take(c, s, step); At(t, d) && BalancedOf(t.reports[d], t.pcs[d], ended)
  {
  }

  /** A step touches the counters and the place of its own drain only. */
  lemma OthersUntouched(c: Config, s: State, step: Step, d: Drainer)
    requires Enabled(c, s, step) && At(s, d) && Owner(step) != Some(d)
    ensures var t := Take(c, s, step); At(t, d) && t.pcs[d] == s.pcs[d] && t.reports[d] == s.reports[d]
  {
  }

  lemma WhoIsThere(c: Config, s: State, step: Step)
    requires Enabled(c, s, step) && s.pcs.Keys == s.reports.Keys
    ensures var t := Take(c, s, step); t.pcs.Keys == t.reports.Keys == s.pcs.Keys + if step.Join? then {step.d} else {}
    ensures Owner(step).Some? ==> At(s, step.d)
  {
    PlacesOf(c, s, step);
    ReportsOf(c, s, step);
  }

  lemma PlacesOf(c: Config, s: State, step: Step)
    requires Enabled(c, s, step)
    ensures Owner(step).Some? ==> step.d in s.pcs
    ensures Take(c, s, step).pcs.Keys == s.pcs.Keys + if step.Join? then {step.d} else {}
  {
  }

  lemma ReportsOf(c: Config, s: State, step: Step)
    requires Enabled(c, s, step)
    ensures Owner(step).Some? ==> step.d in s.reports
    ensures Take(c, s, step).reports.Keys == s.reports.Keys + if step.Join? then {step.d} else {}
  {
  }

  lemma JoinsAtNothing(c: Config, s: State, d: Drainer)
    requires Enabled(c, s, Join(d))
    ensures var t := Take(c, s, Join(d)); t.pcs[d] == Idle && t.reports[d] == Report(0, 0, 0, 0)
  {
  }

  lemma EndingsStay(c: Config, s: State, step: Step)
    requires Enabled(c, s, step) && !step.Drop? && !step.Store?
    ensures Take(c, s, step).endings == s.endings
  {
  }

  lemma BalanceKeptByOthers(c: Config, s: State, step: Step)
    requires Enabled(c, s, step) && AllBalanced(s) && !step.Drop? && !step.Store?
    ensures AllBalanced(Take(c, s, step))
  {
    var t := Take(c, s, step);
    WhoIsThere(c, s, step);
    EndingsStay(c, s, step);
    forall d | d in t.pcs ensures Balanced(t, d) {
      if d !in s.pcs {
        JoinsAtNothing(c, s, d);
        assert EndedBy(s.endings, d) == {};
      } else {
        assert Balanced(s, d);
        if Owner(step) == Some(d) {
          OwnBalanceKept(c, s, step, d, |EndedBy(s.endings, d)|);
        } else {
          OthersUntouched(c, s, step, d);
        }
      }
    }
  }

  lemma WhatEnds(c: Config, s: State, step: Step)
    requires Safe(c, s) && Enabled(c, s, step) && (step.Drop? || step.Store?)
    ensures var e := s.pcs[step.d].entry;
            Take(c, s, step).endings == s.endings + [Ending(step.d, e, step.Store?)] && !Ended(s, e)
  {
    assert DrainerOk(c, s, step.d);
  }

  lemma OneMoreEnding(s: State, last: Ending, d: Drainer)
    requires !Ended(s, last.entry)
    ensures |EndedBy(s.endings + [last], d)| == |EndedBy(s.endings, d)| + if last.drainer == d then 1 else 0
  {
    EndedByMore(s.endings, last, d);
  }

  lemma BalanceOfEnding(c: Config, s: State, step: Step, d: Drainer)
    requires Safe(c, s) && Enabled(c, s, step) && (step.Drop? || step.Store?) && At(s, d) && Balanced(s, d)
    ensures At(Take(c, s, step), d) && Balanced(Take(c, s, step), d)
  {
    WhatEnds(c, s, step);
    OneMoreEnding(s, Ending(step.d, s.pcs[step.d].entry, step.Store?), d);
    if d == step.d {
      OwnBalanceKept(c, s, step, d, |EndedBy(s.endings, d)|);
    } else {
      OthersUntouched(c, s, step, d);
    }
  }

  lemma BalanceKeptByEnding(c: Config, s: State, step: Step)
    requires Safe(c, s) && Enabled(c, s, step) && AllBalanced(s) && (step.Drop? || step.Store?)
    ensures AllBalanced(Take(c, s, step))
  {
    WhatEnds(c, s, step);
    WhoIsThere(c, s, step);
    forall d | d in s.pcs ensures At(Take(c, s, step), d) && Balanced(Take(c, s, step), d) {
      BalanceOfEnding(c, s, step, d);
    }
    AllBalancedAfter(s, Take(c, s, step), Ending(step.d, s.pcs[step.d].entry, step.Store?));
  }

  lemma AllBalancedAfter(s: State, t: State, last: Ending)
    requires AllBalanced(s) && t.pcs.Keys == t.reports.Keys == s.pcs.Keys
    requires forall d | d in s.pcs :: Balanced(t, d)
    requires t.endings == s.endings + [last] && last.drainer in s.pcs
    ensures AllBalanced(t)
  {
  }

  lemma {:induction false} EveryDrainBalances(c: Config, run: seq<State>, steps: seq<Step>, n: nat)
    requires (c.fenced || !c.split) && Run(c, run, steps) && n < |run|
    ensures AllBalanced(run[n])
  {
    if n > 0 {
      EveryDrainBalances(c, run, steps, n - 1);
      EveryStateIsSafe(c, run, steps, n - 1);
      assert run[n - 1 + 1] == Take(c, run[n - 1], steps[n - 1]);
      if steps[n - 1].Drop? || steps[n - 1].Store? {
        BalanceKeptByEnding(c, run[n - 1], steps[n - 1]);
      } else {
        BalanceKeptByOthers(c, run[n - 1], steps[n - 1]);
      }
    }
  }

  /** How many replays this drain finished, of those that reached the store or of those
      that did not. */
  ghost function Finished(endings: seq<Ending>, d: Drainer, stored: bool): nat {
    if endings == [] then 0
    else
      var last := endings[|endings| - 1];
      Finished(endings[..|endings| - 1], d, stored) + if last.drainer == d && last.stored == stored then 1 else 0
  }

  lemma FinishedMore(endings: seq<Ending>, last: Ending, d: Drainer, stored: bool)
    ensures Finished(endings + [last], d, stored)
         == Finished(endings, d, stored) + if last.drainer == d && last.stored == stored then 1 else 0
  {
    assert (endings + [last])[..|endings|] == endings;
  }

  lemma {:induction false} NoneFinished(endings: seq<Ending>, d: Drainer, stored: bool)
    requires forall i | 0 <= i < |endings| :: endings[i].drainer != d
    ensures Finished(endings, d, stored) == 0
  {
    if endings != [] { NoneFinished(endings[..|endings| - 1], d, stored); }
  }

  ghost predicate CountsRight(s: State, d: Drainer) {
    d in s.reports ==>
      && s.reports[d].replayed == Finished(s.endings, d, true)
      && s.reports[d].dropped == Finished(s.endings, d, false)
  }

  ghost predicate AllCounted(s: State) {
    (forall i | 0 <= i < |s.endings| :: s.endings[i].drainer in s.reports) && forall d | d in s.reports :: CountsRight(s, d)
  }

  lemma EndingCounted(c: Config, s: State, step: Step, d: Drainer)
    requires Enabled(c, s, step) && (step.Drop? || step.Store?) && d in s.reports && CountsRight(s, d)
    ensures CountsRight(Take(c, s, step), d)
  {
    var last := Ending(step.d, s.pcs[step.d].entry, step.Store?);
    EndingReported(c, s, step, d);
    FinishedMore(s.endings, last, d, true);
    FinishedMore(s.endings, last, d, false);
  }

  lemma EndingReported(c: Config, s: State, step: Step, d: Drainer)
    requires Enabled(c, s, step) && (step.Drop? || step.Store?) && d in s.reports
    ensures var (t, r) := (Take(c, s, step), s.reports[d]);
            && t.endings == s.endings + [Ending(step.d, s.pcs[step.d].entry, step.Store?)] && d in t.reports
            && t.reports[d].replayed == r.replayed + (if d == step.d && step.Store? then 1 else 0)
            && t.reports[d].dropped == r.dropped + if d == step.d && step.Drop? then 1 else 0
  {
  }

  lemma OthersCounted(c: Config, s: State, step: Step, d: Drainer)
    requires Enabled(c, s, step) && !step.Drop? && !step.Store? && d in s.reports && CountsRight(s, d)
    requires step != Join(d)
    ensures CountsRight(Take(c, s, step), d)
  {
    EndingsStay(c, s, step);
  }

  lemma CountKept(c: Config, s: State, step: Step)
    requires Enabled(c, s, step) && AllCounted(s) && s.pcs.Keys == s.reports.Keys
    ensures AllCounted(Take(c, s, step))
  {
    var t := Take(c, s, step);
    WhoIsThere(c, s, step);
    forall d | d in t.reports ensures CountsRight(t, d) {
      if d !in s.reports {
        JoinsAtNothing(c, s, d);
        EndingsStay(c, s, step);
        NoneFinished(s.endings, d, true);
        NoneFinished(s.endings, d, false);
      } else if step.Drop? || step.Store? {
        EndingCounted(c, s, step, d);
      } else {
        OthersCounted(c, s, step, d);
      }
    }
    WhoEnded(c, s, step);
  }

  lemma WhoEnded(c: Config, s: State, step: Step)
    requires Enabled(c, s, step)
    ensures forall i | 0 <= i < |Take(c, s, step).endings| ::
              || Take(c, s, step).endings[i].drainer in s.reports
              || (i < |s.endings| && Take(c, s, step).endings[i] == s.endings[i])
  {
  }

  /** A drain reports as replayed exactly the replays of its own that reached the store,
      and as dropped exactly those that did not. */
  lemma {:induction false} EveryReportIsTrue(c: Config, run: seq<State>, steps: seq<Step>, n: nat)
    requires Run(c, run, steps) && n < |run|
    ensures run[n].pcs.Keys == run[n].reports.Keys && AllCounted(run[n])
  {
    if n > 0 {
      EveryReportIsTrue(c, run, steps, n - 1);
      assert run[n - 1 + 1] == Take(c, run[n - 1], steps[n - 1]);
      CountKept(c, run[n - 1], steps[n - 1]);
      WhoIsThere(c, run[n - 1], steps[n - 1]);
    }
  }

  /** Some of the drains of a state, each listed once. */
  ghost predicate Drains(s: State, drains: seq<Drainer>) {
    && (forall i | 0 <= i < |drains| :: At(s, drains[i]))
    && forall i, j | 0 <= i < j < |drains| :: drains[i] != drains[j]
  }

  /** `claimed - returned`, summed over them. */
  ghost function Net(s: State, drains: seq<Drainer>): int
    requires Drains(s, drains)
  {
    if drains == [] then 0
    else s.reports[drains[0]].claimed - s.reports[drains[0]].returned + Net(s, drains[1..])
  }

  /** The entries a drain finished or still has. */
  ghost function Had(s: State, d: Drainer): set<Entry>
    requires d in s.pcs
  {
    EndedBy(s.endings, d) + if Taken(s.pcs[d]).Some? then {Taken(s.pcs[d]).value} else {}
  }

  ghost function HadByAny(s: State, drains: seq<Drainer>): set<Entry>
    requires Drains(s, drains)
  {
    if drains == [] then {} else Had(s, drains[0]) + HadByAny(s, drains[1..])
  }

  lemma HadApart(c: Config, s: State, d: Drainer, f: Drainer)
    requires Inv(c, s) && d in s.pcs && f in s.pcs && d != f
    ensures Had(s, d) !! Had(s, f)
  {
    assert DrainerOk(c, s, d) && DrainerOk(c, s, f);
  }

  lemma {:induction false} HadApartFromAll(c: Config, s: State, d: Drainer, drains: seq<Drainer>)
    requires Inv(c, s) && d in s.pcs && Drains(s, drains) && forall i | 0 <= i < |drains| :: drains[i] != d
    ensures Had(s, d) !! HadByAny(s, drains)
  {
    if drains != [] {
      HadApart(c, s, d, drains[0]);
      HadApartFromAll(c, s, d, drains[1..]);
    }
  }

  lemma NetOfOne(c: Config, s: State, d: Drainer)
    requires Inv(c, s) && AllBalanced(s) && d in s.pcs
    ensures s.reports[d].claimed - s.reports[d].returned <= |Had(s, d)|
  {
    assert Balanced(s, d) && DrainerOk(c, s, d);
  }

  lemma {:induction false} NetIsBounded(c: Config, s: State, drains: seq<Drainer>)
    requires Inv(c, s) && AllBalanced(s) && Drains(s, drains)
    ensures Net(s, drains) <= |HadByAny(s, drains)|
    ensures HadByAny(s, drains) <= s.files.Keys
  {
    if drains != [] {
      NetIsBounded(c, s, drains[1..]);
      NetOfOne(c, s, drains[0]);
      HadApartFromAll(c, s, drains[0], drains[1..]);
      HadIsSpooled(c, s, drains[0]);
    }
  }

  lemma HadIsSpooled(c: Config, s: State, d: Drainer)
    requires Inv(c, s) && d in s.pcs
    ensures Had(s, d) <= s.files.Keys
  {
    assert DrainerOk(c, s, d);
  }

  /** Across any drains running at once, what was claimed and not returned never
      exceeds the entries there were. */
  lemma ClaimsNeverExceedEntries(c: Config, run: seq<State>, steps: seq<Step>, n: nat, drains: seq<Drainer>)
    requires (c.fenced || !c.split) && Run(c, run, steps) && n < |run| && Drains(run[n], drains)
    ensures Net(run[n], drains) <= |run[n].files|
  {
    EveryStateIsSafe(c, run, steps, n);
    EveryDrainBalances(c, run, steps, n);
    NetIsBounded(c, run[n], drains);
    SubsetSize(HadByAny(run[n], drains), run[n].files.Keys);
    assert |run[n].files.Keys| == |run[n].files|;
  }

  lemma {:induction false} SubsetSize(a: set<Entry>, b: set<Entry>)
    requires a <= b
    ensures |a| <= |b|
    decreases a
  {
    if a != {} {
      var x :| x in a;
      SubsetSize(a - {x}, b - {x});
    }
  }

  /// What becomes of an entry

  /** Some drain has taken the entry; `dead` says whether one that crashed counts. */
  ghost predicate Held(s: State, e: Entry, dead: bool) {
    exists d | d in s.pcs :: Taken(s.pcs[d]) == Some(e) && (dead || !s.pcs[d].Crashed?)
  }

  /** The entry waits, is in some drain's hands, or had its replay finished. */
  ghost predicate Accounted(s: State, e: Entry, dead: bool) {
    (e in s.files && s.files[e] == Waiting) || Held(s, e, dead) || Ended(s, e)
  }

  /** The drain this step belongs to has taken the entry. */
  predicate ByHolder(s: State, step: Step, e: Entry) {
    Owner(step).Some? && step.d in s.pcs && Taken(s.pcs[step.d]) == Some(e)
  }

  /** The steps that cost an entry: the cap removes it, a name that was to be given
      back is not, or the drain that has it dies. */
  predicate Loses(s: State, step: Step, e: Entry, dead: bool) {
    step == Evict(e) || (ByHolder(s, step, e) && (step.GiveFail? || (!dead && step.Crash?)))
  }

  ghost predicate NeverLost(run: seq<State>, steps: seq<Step>, n: nat, e: Entry, dead: bool)
    requires n <= |steps| < |run|
  {
    forall i | 0 <= i < n :: !Loses(run[i], steps[i], e, dead)
  }

  lemma HeldOn(c: Config, s: State, step: Step, e: Entry, dead: bool)
    requires Inv(c, s) && Enabled(c, s, step) && Held(s, e, dead) && !Loses(s, step, e, dead)
    ensures Accounted(Take(c, s, step), e, dead)
  {
    var d :| d in s.pcs && Taken(s.pcs[d]) == Some(e) && (dead || !s.pcs[d].Crashed?);
    if Owner(step) != Some(d) {
      OthersUntouched(c, s, step, d);
    } else if step.Drop? || step.Store? {
      assert Take(c, s, step).endings[|s.endings|].entry == e;
    } else {
      HolderGoesOn(c, s, step, d, e, dead);
    }
  }

  lemma HolderGoesOn(c: Config, s: State, step: Step, d: Drainer, e: Entry, dead: bool)
    requires Enabled(c, s, step) && Owner(step) == Some(d) && d in s.pcs && Taken(s.pcs[d]) == Some(e)
    requires !Loses(s, step, e, dead) && !step.Drop? && !step.Store?
    ensures Accounted(Take(c, s, step), e, dead)
  {
    var t := Take(c, s, step);
    assert d in t.pcs;
  }

  lemma WaitsOn(c: Config, s: State, step: Step, e: Entry, dead: bool)
    requires Enabled(c, s, step) && e in s.files && s.files[e] == Waiting && step != Evict(e)
    ensures Accounted(Take(c, s, step), e, dead)
  {
    var t := Take(c, s, step);
    if step.Rename? || step.Move? {
      assert step.d in t.pcs;
    }
  }

  lemma EndedStays(c: Config, s: State, step: Step, e: Entry)
    requires Enabled(c, s, step) && Ended(s, e)
    ensures Ended(Take(c, s, step), e)
  {
    var i :| 0 <= i < |s.endings| && s.endings[i].entry == e;
    assert Take(c, s, step).endings[i].entry == e;
  }

  lemma AccountKept(c: Config, s: State, step: Step, e: Entry, dead: bool)
    requires Inv(c, s) && Enabled(c, s, step) && Accounted(s, e, dead) && !Loses(s, step, e, dead)
    ensures Accounted(Take(c, s, step), e, dead)
  {
    if e in s.files && s.files[e] == Waiting {
      WaitsOn(c, s, step, e, dead);
    } else if Held(s, e, dead) {
      HeldOn(c, s, step, e, dead);
    } else {
      EndedStays(c, s, step, e);
    }
  }

  /** Where an entry is in nobody's account, and no step brings it back. */
  ghost predicate Lost(s: State, e: Entry, dead: bool) {
    e in s.files && !Accounted(s, e, dead)
  }

  lemma LosingLoses(c: Config, s: State, step: Step, e: Entry, dead: bool)
    requires Inv(c, s) && Enabled(c, s, step) && Loses(s, step, e, dead)
    ensures Lost(Take(c, s, step), e, dead)
  {
    if step != Evict(e) {
      assert DrainerOk(c, s, step.d);
    }
    forall d | d in s.pcs && Taken(s.pcs[d]) == Some(e) ensures Owner(step) == Some(d) {
      assert DrainerOk(c, s, d);
    }
  }

  /** A drain that has not taken an entry does nothing to a file that is not waiting. */
  lemma LostStays(c: Config, s: State, step: Step, e: Entry, dead: bool)
    requires Inv(c, s) && Enabled(c, s, step) && Lost(s, e, dead)
    ensures Lost(Take(c, s, step), e, dead)
  {
    var t := Take(c, s, step);
    NotBackInPlace(c, s, step, e, dead);
    NotBackInHand(c, s, step, e, dead);
    if Ended(t, e) {
      var i :| 0 <= i < |t.endings| && t.endings[i].entry == e;
      NotEndedLater(c, s, step, e, dead, i);
    }
  }

  lemma NotBackInPlace(c: Config, s: State, step: Step, e: Entry, dead: bool)
    requires Enabled(c, s, step) && Lost(s, e, dead)
    ensures var t := Take(c, s, step); e in t.files && t.files[e] != Waiting
  {
  }

  lemma NotBackInHand(c: Config, s: State, step: Step, e: Entry, dead: bool)
    requires Inv(c, s) && Enabled(c, s, step) && Lost(s, e, dead)
    ensures !Held(Take(c, s, step), e, dead)
  {
    if step.Rename? || step.Move? {
      assert DrainerOk(c, s, step.d);
      NotTakenAnew(c, s, step, e, dead);
    } else {
      NoNewHands(c, s, step, e, dead);
    }
  }

  /** A rename takes what waits; a handle, what it was opened on. */
  lemma NotTakenAnew(c: Config, s: State, step: Step, e: Entry, dead: bool)
    requires Enabled(c, s, step) && Lost(s, e, dead) && (step.Rename? || step.Move?) && DrainerOk(c, s, step.d)
    ensures !Held(Take(c, s, step), e, dead)
  {
  }

  lemma NoNewHands(c: Config, s: State, step: Step, e: Entry, dead: bool)
    requires Enabled(c, s, step) && !Held(s, e, dead) && !step.Rename? && !step.Move?
    ensures !Held(Take(c, s, step), e, dead)
  {
  }

  lemma NotEndedLater(c: Config, s: State, step: Step, e: Entry, dead: bool, i: nat)
    requires Enabled(c, s, step) && Lost(s, e, dead) && i < |Take(c, s, step).endings|
    ensures Take(c, s, step).endings[i].entry != e
  {
  }

  lemma OneStepAccounts(c: Config, s: State, step: Step, e: Entry, dead: bool)
    requires Inv(c, s) && Enabled(c, s, step)
    ensures var t := Take(c, s, step);
            if e in s.files then e in t.files && (Accounted(t, e, dead) <==> Accounted(s, e, dead) && !Loses(s, step, e, dead))
            else !Loses(s, step, e, dead) && (e in t.files ==> t.files[e] == Waiting)
  {
    if e !in s.files {
      NotSpooled(c, s, step, e, dead);
    } else if !Accounted(s, e, dead) {
      LostStays(c, s, step, e, dead);
    } else if Loses(s, step, e, dead) {
      LosingLoses(c, s, step, e, dead);
    } else {
      AccountKept(c, s, step, e, dead);
      FilesStay(c, s, step, e);
    }
  }

  lemma FilesStay(c: Config, s: State, step: Step, e: Entry)
    requires Enabled(c, s, step) && e in s.files
    ensures e in Take(c, s, step).files
  {
  }

  /** Nobody has an entry that was never spooled. */
  lemma NotSpooled(c: Config, s: State, step: Step, e: Entry, dead: bool)
    requires Inv(c, s) && Enabled(c, s, step) && e !in s.files
    ensures !Loses(s, step, e, dead) && (e in Take(c, s, step).files ==> Take(c, s, step).files[e] == Waiting)
  {
    if Owner(step).Some? {
      assert DrainerOk(c, s, step.d);
    }
  }

  /** What becomes of one entry over a whole run: it waits, is in a drain's hands or
      had its replay finished if and only if the cap never removed it and no drain
      that had it failed to give its name back, nor, when what a dead drain has does
      not count, died with it. */
  lemma {:induction false} AccountedIff(c: Config, run: seq<State>, steps: seq<Step>, n: nat, e: Entry, dead: bool)
    requires (c.fenced || !c.split) && Run(c, run, steps) && n < |run|
    ensures if e in run[n].files then Accounted(run[n], e, dead) <==> NeverLost(run, steps, n, e, dead)
            else NeverLost(run, steps, n, e, dead)
  {
    if n > 0 {
      var (s, step) := (run[n - 1], steps[n - 1]);
      AccountedIff(c, run, steps, n - 1, e, dead);
      EveryStateIsSafe(c, run, steps, n - 1);
      assert run[n - 1 + 1] == Take(c, s, step);
      OneStepAccounts(c, s, step, e, dead);
      assert NeverLost(run, steps, n, e, dead) <==> NeverLost(run, steps, n - 1, e, dead) && !Loses(s, step, e, dead);
    }
  }

  /** Over every run whatever, a capture is accounted for, in one place only (`Inv`),
      unless one of those steps cost it. */
  lemma NothingIsLost(c: Config, run: seq<State>, steps: seq<Step>, n: nat, dead: bool)
    requires (c.fenced || !c.split) && Run(c, run, steps) && n < |run|
    ensures Inv(c, run[n])
    ensures forall e | e in run[n].files :: Accounted(run[n], e, dead) <==> NeverLost(run, steps, n, e, dead)
  {
    EveryStateIsSafe(c, run, steps, n);
    forall e | e in run[n].files ensures Accounted(run[n], e, dead) <==> NeverLost(run, steps, n, e, dead) {
      AccountedIff(c, run, steps, n, e, dead);
    }
  }

  lemma OneMarked(c: Config) returns (run: seq<State>, steps: seq<Step>)
    ensures Run(c, run, steps) && steps == [Join(1), Mark(1, 0)]
    ensures var s := run[2];
            && s.files == map[0 := Waiting] && s.pcs == map[1 := Marked(0)] && s.markers == (if c.fenced then {0} else {})
            && s.reports == map[1 := Report(0, 0, 0, 0)] && s.endings == []
  {
    run, steps := [State(map[0 := Waiting], {}, map[], map[], [])], [];
    run, steps := OneMoreStep(c, run, steps, Join(1));
    run, steps := OneMoreStep(c, run, steps, Mark(1, 0));
  }

  lemma OneClaimed(c: Config) returns (run: seq<State>, steps: seq<Step>)
    ensures Run(c, run, steps) && forall i | 0 <= i < |steps| :: !steps[i].Evict? && !steps[i].Crash?
    ensures var s := run[|steps|];
            && s.files == map[0 := Claimed(c.pid(1))] && s.pcs == map[1 := Renamed(0, true)]
            && s.reports == map[1 := Report(0, 0, 0, 0)] && s.endings == []
  {
    run, steps := OneMarked(c);
    if c.split {
      run, steps := OneMoreStep(c, run, steps, Open(1));
      run, steps := OneMoreStep(c, run, steps, Move(1));
    } else {
      run, steps := OneMoreStep(c, run, steps, Rename(1));
    }
  }

  /** One drain has claimed the only entry and read it. */
  lemma OneLoaded(c: Config) returns (run: seq<State>, steps: seq<Step>)
    ensures Run(c, run, steps) && forall i | 0 <= i < |steps| :: !steps[i].Evict? && !steps[i].Crash?
    ensures var s := run[|steps|];
            && s.files == map[0 := Claimed(c.pid(1))] && s.pcs == map[1 := Loaded(0)]
            && s.reports == map[1 := Report(1, 0, 0, 0)] && s.endings == []
  {
    run, steps := OneClaimed(c);
    run, steps := OneMoreStep(c, run, steps, Unmark(1, true));
    run, steps := OneMoreStep(c, run, steps, Load(1));
  }

  /** A store too busy to take the capture and a rename that fails: the report says
      the entry was returned, and nobody will find it again. */
  lemma AFailedReturnLosesTheEntry(c: Config) returns (run: seq<State>, steps: seq<Step>)
    ensures Run(c, run, steps) && forall i | 0 <= i < |steps| :: !steps[i].Evict? && !steps[i].Crash?
    ensures var s := run[|steps|]; s.reports == map[1 := Report(1, 1, 0, 0)] && Lost(s, 0, true)
  {
    run, steps := OneLoaded(c);
    run, steps := OneMoreStep(c, run, steps, GiveFail(1));
    assert run[|steps|].pcs == map[1 := Stopped];
  }

  /** What a drain that ended reports: everything it claimed was returned,
      replayed or dropped, and at most one entry was returned. */
  lemma ADrainThatEndedReportsAll(c: Config, run: seq<State>, steps: seq<Step>, n: nat, d: Drainer)
    requires (c.fenced || !c.split) && Run(c, run, steps) && n < |run|
    requires d in run[n].pcs && run[n].pcs[d] == Stopped
    ensures d in run[n].reports
    ensures var r := run[n].reports[d]; r.claimed == r.returned + r.replayed + r.dropped && r.returned <= 1
  {
    EveryDrainBalances(c, run, steps, n);
    assert Balanced(run[n], d);
  }
}
