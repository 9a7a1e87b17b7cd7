/** Replacing a file without ever showing half of it (`src/files.rs`): any number
    of writers to one target, any of which may fail or be killed at any step, and
    a power cut that keeps only what was flushed. */
module CrashSafe {
  import opened Wrappers

  type Bytes = seq<bv8>
  type Id = nat
  type Writer = nat

  const ATTEMPTS := 128

  /** A name in the target's directory; `TmpNames` below says the two kinds never
      meet as strings. */
  datatype Name = Target | Tmp(pid: nat, sequence: nat)

  /** A file on the device: what it holds, whether that was flushed, whether only
      its owner may open it, and whether it was made for contents that need that. */
  datatype File = File(data: Bytes, flushed: bool, ownerOnly: bool, secret: bool)

  /** Where one `write_then_rename` is. */
  datatype Pc =
    | Creating(attempt: nat)
    | Created(name: Name, id: Id)
    | Writing(name: Name, id: Id, count: nat)
    | Flushed(name: Name, id: Id)
    | Renamed
    | Cleaning(name: Name, id: Id)
    | Finished(ok: bool)
    | Dead

  datatype Job = Job(pid: nat, data: Bytes, ownerOnly: bool, pc: Pc)

  /** `recoverable` is what the target may denote once power is lost: the last
      name the directory flushed, or any the target was given since. */
  datatype State = State(
    names: map<Name, Id>, files: map<Id, File>, jobs: map<Writer, Job>,
    recoverable: set<Option<Id>>, offered: set<Bytes>)

  /** `flushes` says the writer syncs the temporary file before renaming it. */
  datatype Config = Config(flushes: bool)

  datatype Step =
    | Ask(w: Writer, pid: nat, data: Bytes, ownerOnly: bool)
    | Create(w: Writer, sequence: nat, id: Id)
    | Restrict(w: Writer)
    | Write(w: Writer, count: nat)
    | Flush(w: Writer)
    | Rename(w: Writer)
    | FlushDirectory(w: Writer, done: bool)
    | Fail(w: Writer)
    | Clean(w: Writer, removed: bool)
    | Kill(w: Writer)
    | PowerCut(target: Option<Id>, after: map<Id, Bytes>)

  function Lookup(names: map<Name, Id>, name: Name): Option<Id> {
    if name in names then Some(names[name]) else None
  }

  /** What somebody opening the target reads. */
  function Read(s: State): Option<Bytes> {
    if Target in s.names && s.names[Target] in s.files then Some(s.files[s.names[Target]].data) else None
  }

  ghost predicate Initial(s: State) {
    && s.jobs == map[] && s.offered == {}
    && (forall n | n in s.names :: s.names[n] in s.files)
    && (forall m, n | m in s.names && n in s.names && s.names[m] == s.names[n] :: m == n)
    && (Target in s.names ==> s.files[s.names[Target]].flushed)
    && s.recoverable == {Lookup(s.names, Target)}
  }

  predicate Busy(pc: Pc) { pc.Created? || pc.Writing? || pc.Flushed? || pc.Cleaning? }

  predicate Enabled(c: Config, s: State, step: Step) {
    match step
    case Ask(w, _, _, _) => w !in s.jobs
    case Create(w, _, id) => w in s.jobs && s.jobs[w].pc.Creating? && id !in s.files
    case Restrict(w) => w in s.jobs && s.jobs[w].pc.Created?
    case Write(w, count) => w in s.jobs && s.jobs[w].pc.Writing? && s.jobs[w].pc.count <= count <= |s.jobs[w].data|
    case Flush(w) => w in s.jobs && s.jobs[w].pc.Writing? && s.jobs[w].pc.count == |s.jobs[w].data|
    case Rename(w) => w in s.jobs && s.jobs[w].pc.Flushed?
    case FlushDirectory(w, _) => w in s.jobs && s.jobs[w].pc.Renamed?
    case Fail(w) => w in s.jobs && (s.jobs[w].pc.Creating? || s.jobs[w].pc.Created? || s.jobs[w].pc.Writing? || s.jobs[w].pc.Flushed?)
    case Clean(w, _) => w in s.jobs && s.jobs[w].pc.Cleaning?
    case Kill(w) => w in s.jobs
    case PowerCut(target, after) =>
      target in s.recoverable && after.Keys == s.files.Keys && forall id | id in s.files :: |after[id]| <= |s.files[id].data|
  }

  function At(s: State, w: Writer, pc: Pc): State
    requires w in s.jobs
  {
    s.(jobs := s.jobs[w := s.jobs[w].(pc := pc)])
  }

  function Filled(s: State, id: Id, f: File): State { s.(files := s.files[id := f]) }

  function Without(names: map<Name, Id>, name: Name): map<Name, Id> {
    map n | n in names && n != name :: names[n]
  }

  /** A flushed file survives a power cut; any other may hold anything no longer
      than what was written to it. */
  function Survived(files: map<Id, File>, after: map<Id, Bytes>): map<Id, File>
    requires after.Keys == files.Keys
  {
    map id | id in files :: if files[id].flushed then files[id] else files[id].(data := after[id])
  }

  function Take(c: Config, s: State, step: Step): State
    requires Enabled(c, s, step)
  {
    match step
    case Ask(w, pid, data, ownerOnly) =>
      s.(jobs := s.jobs[w := Job(pid, data, ownerOnly, Creating(0))], offered := s.offered + {data})
    case Create(w, sequence, id) =>
      var k := s.jobs[w].pc.attempt;
      var name := Tmp(s.jobs[w].pid, sequence);
      if k >= ATTEMPTS then At(s, w, Finished(false))
      else if name in s.names then At(s, w, Creating(k + 1))
      else At(Filled(s, id, File([], false, false, s.jobs[w].ownerOnly)).(names := s.names[name := id]), w, Created(name, id))
    case Restrict(w) =>
      var Created(name, id) := s.jobs[w].pc;
      var t := if s.jobs[w].ownerOnly && id in s.files then Filled(s, id, s.files[id].(ownerOnly := true)) else s;
      At(t, w, Writing(name, id, 0))
    case Write(w, count) =>
      var Writing(name, id, _) := s.jobs[w].pc;
      var t := if id in s.files then Filled(s, id, s.files[id].(data := s.jobs[w].data[..count], flushed := false)) else s;
      At(t, w, Writing(name, id, count))
    case Flush(w) =>
      var Writing(name, id, _) := s.jobs[w].pc;
      var t := if c.flushes && id in s.files then Filled(s, id, s.files[id].(flushed := true)) else s;
      At(t, w, Flushed(name, id))
    case Rename(w) =>
      var Flushed(name, id) := s.jobs[w].pc;
      At(s.(names := Without(s.names, name)[Target := id], recoverable := s.recoverable + {Some(id)}), w, Renamed)
    case FlushDirectory(w, done) =>
      At(if done then s.(recoverable := {Lookup(s.names, Target)}) else s, w, Finished(true))
    case Fail(w) =>
      var pc := s.jobs[w].pc;
      At(s, w, if pc.Creating? then Finished(false) else Cleaning(pc.name, pc.id))
    case Clean(w, removed) =>
      At(if removed then s.(names := Without(s.names, s.jobs[w].pc.name)) else s, w, Finished(false))
    case Kill(w) => At(s, w, Dead)
    case PowerCut(target, after) =>
      var names := Without(s.names, Target);
      s.(names := if target.Some? then names[Target := target.value] else names,
         files := Survived(s.files, after),
         jobs := map w | w in s.jobs :: s.jobs[w].(pc := Dead),
         recoverable := {target})
  }

  ghost predicate Run(c: Config, run: seq<State>, steps: seq<Step>) {
    && |run| == |steps| + 1 && Initial(run[0])
    && forall i | 0 <= i < |steps| :: Enabled(c, run[i], steps[i]) && run[i + 1] == Take(c, run[i], steps[i])
  }

  /** Nothing is assumed to go well: a writer may be killed anywhere, every operation of
      its own may fail until the rename is done, and the power may go. */
  lemma AnythingMayGoWrong(c: Config, s: State, w: Writer, done: bool, target: Option<Id>, after: map<Id, Bytes>)
    requires w in s.jobs
    ensures Enabled(c, s, Kill(w))
    ensures s.jobs[w].pc.Creating? || s.jobs[w].pc.Created? || s.jobs[w].pc.Writing? || s.jobs[w].pc.Flushed? ==> Enabled(c, s, Fail(w))
    ensures s.jobs[w].pc.Cleaning? ==> Enabled(c, s, Clean(w, done))
    ensures s.jobs[w].pc.Renamed? ==> Enabled(c, s, FlushDirectory(w, done))
    ensures target in s.recoverable && after.Keys == s.files.Keys && (forall id | id in s.files :: |after[id]| <= |s.files[id].data|) ==>
              Enabled(c, s, PowerCut(target, after))
  {
  }

  /// What every step keeps

  /** The whole of the old contents, or the whole of what some writer was given. */
  predicate Whole(was: Option<Bytes>, offered: set<Bytes>, seen: Option<Bytes>) {
    seen == was || (seen.Some? && seen.value in offered)
  }

  ghost predicate TargetOk(c: Config, was: Option<Bytes>, s: State, target: Option<Id>) {
    match target
    case None => was == None
    case Some(id) => id in s.files && Whole(was, s.offered, Some(s.files[id].data)) && (c.flushes ==> s.files[id].flushed)
  }

  /** A busy writer's temporary file is its own: under its name, not the target's,
      and holding what was written so far. */
  ghost predicate JobOk(c: Config, s: State, w: Writer)
    requires w in s.jobs
  {
    var job := s.jobs[w];
    job.data in s.offered && (Busy(job.pc) ==>
      && job.pc.name.Tmp? && Lookup(s.names, job.pc.name) == Some(job.pc.id) && job.pc.id in s.files
      && s.files[job.pc.id].secret == job.ownerOnly
      && (job.pc.Created? ==> s.files[job.pc.id].data == [])
      && (job.pc.Writing? ==> job.pc.count <= |job.data| && s.files[job.pc.id].data == job.data[..job.pc.count])
      && (job.pc.Writing? || job.pc.Flushed? ==> s.files[job.pc.id].ownerOnly || !job.ownerOnly)
      && (job.pc.Flushed? ==> s.files[job.pc.id].data == job.data && (c.flushes ==> s.files[job.pc.id].flushed)))
  }

  ghost predicate OneNameEach(names: map<Name, Id>) {
    forall m, n | m in names && n in names && names[m] == names[n] :: m == n
  }

  /** No two writers at work share a temporary name. */
  ghost predicate Apart(s: State) {
    forall v, w | v in s.jobs && w in s.jobs && Busy(s.jobs[v].pc) && Busy(s.jobs[w].pc) && s.jobs[v].pc.name == s.jobs[w].pc.name ::
      v == w
  }

  ghost predicate NamesOk(s: State) {
    && (forall n | n in s.names :: s.names[n] in s.files) && OneNameEach(s.names)
    && Lookup(s.names, Target) in s.recoverable
    && (forall n | n in s.names && n.Tmp? :: Some(s.names[n]) !in s.recoverable)
  }

  /** Secret contents are never in a file somebody else may open. */
  ghost predicate Secret(s: State) {
    forall id | id in s.files && s.files[id].secret && s.files[id].data != [] :: s.files[id].ownerOnly
  }

  ghost predicate Inv(c: Config, was: Option<Bytes>, s: State) {
    && NamesOk(s) && Apart(s) && Secret(s)
    && (forall t | t in s.recoverable :: TargetOk(c, was, s, t))
    && (forall w | w in s.jobs :: JobOk(c, s, w))
  }

  /** A writer whose own file and its name are as they were. */
  lemma JobStays(c: Config, s: State, t: State, w: Writer)
    requires w in s.jobs && JobOk(c, s, w) && w in t.jobs && t.jobs[w] == s.jobs[w] && s.offered <= t.offered
    requires var pc := s.jobs[w].pc;
             Busy(pc) ==>
               && Lookup(t.names, pc.name) == Lookup(s.names, pc.name)
               && pc.id in t.files && pc.id in s.files && t.files[pc.id] == s.files[pc.id]
    ensures JobOk(c, t, w)
  {
  }

  lemma RestrictKeeps(c: Config, was: Option<Bytes>, s: State, step: Step)
    requires Inv(c, was, s) && Enabled(c, s, step) && step.Restrict?
    ensures Inv(c, was, Take(c, s, step))
  {
    var t := Take(c, s, step);
    assert JobOk(c, s, step.w);
    forall r | r in t.recoverable ensures TargetOk(c, was, t, r) { assert TargetOk(c, was, s, r); }
    forall w | w in t.jobs ensures JobOk(c, t, w) { assert JobOk(c, s, w); }
  }

  lemma WriteKeeps(c: Config, was: Option<Bytes>, s: State, step: Step)
    requires Inv(c, was, s) && Enabled(c, s, step) && step.Write?
    ensures Inv(c, was, Take(c, s, step))
  {
    var t := Take(c, s, step);
    assert JobOk(c, s, step.w);
    forall r | r in t.recoverable ensures TargetOk(c, was, t, r) { assert TargetOk(c, was, s, r); }
    forall w | w in t.jobs ensures JobOk(c, t, w) { assert JobOk(c, s, w); }
  }

  lemma FlushKeeps(c: Config, was: Option<Bytes>, s: State, step: Step)
    requires Inv(c, was, s) && Enabled(c, s, step) && step.Flush?
    ensures Inv(c, was, Take(c, s, step))
  {
    var t := Take(c, s, step);
    assert JobOk(c, s, step.w);
    forall r | r in t.recoverable ensures TargetOk(c, was, t, r) { assert TargetOk(c, was, s, r); }
    forall w | w in t.jobs ensures JobOk(c, t, w) { assert JobOk(c, s, w); }
  }

  lemma AskKeeps(c: Config, was: Option<Bytes>, s: State, step: Step)
    requires Inv(c, was, s) && Enabled(c, s, step) && step.Ask?
    ensures Inv(c, was, Take(c, s, step))
  {
    var t := Take(c, s, step);
    forall r | r in t.recoverable ensures TargetOk(c, was, t, r) { assert TargetOk(c, was, s, r); }
    forall w | w in t.jobs ensures JobOk(c, t, w) { if w in s.jobs { assert JobOk(c, s, w); } }
  }

  predicate Makes(s: State, step: Step)
    requires step.Create? && step.w in s.jobs && s.jobs[step.w].pc.Creating?
  {
    s.jobs[step.w].pc.attempt < ATTEMPTS && Tmp(s.jobs[step.w].pid, step.sequence) !in s.names
  }

  /** A writer that stops working, or turns to removing its file, disturbs nothing. */
  lemma MovesOn(c: Config, was: Option<Bytes>, s: State, w: Writer, pc: Pc)
    requires Inv(c, was, s) && w in s.jobs
    requires Busy(pc) ==> pc.Cleaning? && Busy(s.jobs[w].pc) && s.jobs[w].pc.name == pc.name && s.jobs[w].pc.id == pc.id
    ensures Inv(c, was, At(s, w, pc))
  {
    var t := At(s, w, pc);
    forall r | r in t.recoverable ensures TargetOk(c, was, t, r) { assert TargetOk(c, was, s, r); }
    forall v | v in t.jobs ensures JobOk(c, t, v) { assert JobOk(c, s, v); }
  }

  /** The name is taken, or too many were: nothing but the writer's own place changes. */
  lemma MissKeeps(c: Config, was: Option<Bytes>, s: State, step: Step)
    requires Inv(c, was, s) && Enabled(c, s, step) && step.Create? && !Makes(s, step)
    ensures Inv(c, was, Take(c, s, step))
  {
    var k := s.jobs[step.w].pc.attempt;
    MovesOn(c, was, s, step.w, if k >= ATTEMPTS then Finished(false) else Creating(k + 1));
  }

  /** `create_new` made a file under a name nobody was using. */
  lemma CreateKeeps(c: Config, was: Option<Bytes>, s: State, step: Step)
    requires Inv(c, was, s) && Enabled(c, s, step) && step.Create? && Makes(s, step)
    ensures Inv(c, was, Take(c, s, step))
  {
    var t := Take(c, s, step);
    var name := Tmp(s.jobs[step.w].pid, step.sequence);
    forall r | r in t.recoverable ensures TargetOk(c, was, t, r) {
      assert TargetOk(c, was, s, r);
    }
    NewNameIsApart(c, was, s, name, step.id);
    forall w | w in t.jobs ensures JobOk(c, t, w) {
      assert JobOk(c, s, w);
      if w != step.w { JobStays(c, s, t, w); }
    }
  }

  lemma NewNameIsApart(c: Config, was: Option<Bytes>, s: State, name: Name, id: Id)
    requires Inv(c, was, s) && name !in s.names && id !in s.files
    ensures Some(id) !in s.recoverable
    ensures forall w | w in s.jobs && Busy(s.jobs[w].pc) :: s.jobs[w].pc.name != name && s.jobs[w].pc.id != id
  {
    forall r | r in s.recoverable ensures r != Some(id) { assert TargetOk(c, was, s, r); }
    forall w | w in s.jobs && Busy(s.jobs[w].pc) ensures s.jobs[w].pc.name != name && s.jobs[w].pc.id != id { assert JobOk(c, s, w); }
  }

  lemma RenameKeeps(c: Config, was: Option<Bytes>, s: State, step: Step)
    requires Inv(c, was, s) && Enabled(c, s, step) && step.Rename?
    ensures Inv(c, was, Take(c, s, step))
  {
    var t := Take(c, s, step);
    assert JobOk(c, s, step.w);
    forall r | r in t.recoverable ensures TargetOk(c, was, t, r) { if r in s.recoverable { assert TargetOk(c, was, s, r); } }
    forall w | w in t.jobs ensures JobOk(c, t, w) { assert JobOk(c, s, w); }
  }

  lemma FlushDirectoryKeeps(c: Config, was: Option<Bytes>, s: State, step: Step)
    requires Inv(c, was, s) && Enabled(c, s, step) && step.FlushDirectory?
    ensures Inv(c, was, Take(c, s, step))
  {
    MovesOn(c, was, s, step.w, Finished(true));
    var t := Take(c, s, step);
    forall r | r in t.recoverable ensures TargetOk(c, was, t, r) { assert TargetOk(c, was, s, r); }
    forall w | w in t.jobs ensures JobOk(c, t, w) { assert JobOk(c, At(s, step.w, Finished(true)), w); }
  }

  lemma FailKeeps(c: Config, was: Option<Bytes>, s: State, step: Step)
    requires Inv(c, was, s) && Enabled(c, s, step) && (step.Fail? || step.Kill?)
    ensures Inv(c, was, Take(c, s, step))
  {
    var pc := s.jobs[step.w].pc;
    MovesOn(c, was, s, step.w, if step.Kill? then Dead else if pc.Creating? then Finished(false) else Cleaning(pc.name, pc.id));
  }

  lemma CleanKeeps(c: Config, was: Option<Bytes>, s: State, step: Step)
    requires Inv(c, was, s) && Enabled(c, s, step) && step.Clean?
    ensures Inv(c, was, Take(c, s, step))
  {
    var t := Take(c, s, step);
    assert JobOk(c, s, step.w);
    forall r | r in t.recoverable ensures TargetOk(c, was, t, r) { assert TargetOk(c, was, s, r); }
    forall w | w in t.jobs ensures JobOk(c, t, w) {
      assert JobOk(c, s, w);
      if w != step.w { JobStays(c, s, t, w); }
    }
  }

  lemma PowerCutKeeps(c: Config, was: Option<Bytes>, s: State, step: Step)
    requires Inv(c, was, s) && Enabled(c, s, step) && step.PowerCut? && c.flushes
    ensures Inv(c, was, Take(c, s, step))
  {
    var t := Take(c, s, step);
    PowerCutNames(c, was, s, step.target);
    assert NamesOk(t);
    SurvivedSecret(s, step.after);
    assert Secret(t) && t.recoverable == {step.target};
    assert TargetOk(c, was, t, step.target) by { assert TargetOk(c, was, s, step.target); }
    forall w | w in t.jobs ensures JobOk(c, t, w) { assert JobOk(c, s, w); }
  }

  lemma SurvivedSecret(s: State, after: map<Id, Bytes>)
    requires Secret(s) && after.Keys == s.files.Keys && forall id | id in s.files :: |after[id]| <= |s.files[id].data|
    ensures Secret(s.(files := Survived(s.files, after)))
  {
  }

  lemma PowerCutNames(c: Config, was: Option<Bytes>, s: State, target: Option<Id>)
    requires Inv(c, was, s) && target in s.recoverable
    ensures var names := Without(s.names, Target);
            NamesOk(s.(names := if target.Some? then names[Target := target.value] else names, recoverable := {target}))
  {
    assert TargetOk(c, was, s, target);
  }

  lemma StepKeeps(c: Config, was: Option<Bytes>, s: State, step: Step)
    requires Inv(c, was, s) && Enabled(c, s, step) && (c.flushes || !step.PowerCut?)
    ensures Inv(c, was, Take(c, s, step))
  {
    match step {
      case Ask(_, _, _, _) => AskKeeps(c, was, s, step);
      case Create(_, _, _) => if Makes(s, step) { CreateKeeps(c, was, s, step); } else { MissKeeps(c, was, s, step); }
      case Rename(_) => RenameKeeps(c, was, s, step);
      case FlushDirectory(_, _) => FlushDirectoryKeeps(c, was, s, step);
      case Fail(_) => FailKeeps(c, was, s, step);
      case Kill(_) => FailKeeps(c, was, s, step);
      case Clean(_, _) => CleanKeeps(c, was, s, step);
      case PowerCut(_, _) => PowerCutKeeps(c, was, s, step);
      case Restrict(_) => RestrictKeeps(c, was, s, step);
      case Write(_, _) => WriteKeeps(c, was, s, step);
      case Flush(_) => FlushKeeps(c, was, s, step);
    }
  }

  /** No power cut in the first `n` steps, or none that matters. */
  ghost predicate Lasting(c: Config, steps: seq<Step>, n: nat) {
    c.flushes || forall i | 0 <= i < n && i < |steps| :: !steps[i].PowerCut?
  }

  /** Whatever the writers do and wherever they die, the target is whole, no two
      share a temporary file and no secret is left in the open; with the flush
      before the rename all of that outlives a power cut. */
  lemma {:induction false} EveryStateIsWhole(c: Config, run: seq<State>, steps: seq<Step>, n: nat)
    requires Run(c, run, steps) && n < |run| && Secret(run[0]) && Lasting(c, steps, n)
    ensures Inv(c, Read(run[0]), run[n])
    ensures Whole(Read(run[0]), run[n].offered, Read(run[n]))
  {
    if n > 0 {
      EveryStateIsWhole(c, run, steps, n - 1);
      assert run[n - 1 + 1] == Take(c, run[n - 1], steps[n - 1]);
      StepKeeps(c, Read(run[0]), run[n - 1], steps[n - 1]);
    }
    ReadIsWhole(c, Read(run[0]), run[n]);
  }

  lemma ReadIsWhole(c: Config, was: Option<Bytes>, s: State)
    requires Inv(c, was, s)
    ensures Whole(was, s.offered, Read(s))
  {
    assert TargetOk(c, was, s, Lookup(s.names, Target));
  }

  /// A writer that fails

  function Owner(step: Step): Option<Writer> {
    if step.PowerCut? then None else Some(step.w)
  }

  /** Only a rename or a power cut changes what the target denotes. */
  lemma OnlyRenamesTouchTheTarget(c: Config, was: Option<Bytes>, s: State, step: Step)
    requires Inv(c, was, s) && Enabled(c, s, step) && !step.PowerCut? && !step.Rename?
    ensures var t := Take(c, s, step); Lookup(t.names, Target) == Lookup(s.names, Target) && Read(t) == Read(s)
  {
    if step.w in s.jobs { assert JobOk(c, s, step.w); }
  }

  /** A step of one writer leaves every other writer's temporary file alone. */
  lemma OthersKeepTheirFile(c: Config, was: Option<Bytes>, s: State, step: Step, w: Writer)
    requires Inv(c, was, s) && Enabled(c, s, step) && !step.PowerCut? && w in s.jobs && w != step.w && Busy(s.jobs[w].pc)
    ensures var (t, pc) := (Take(c, s, step), s.jobs[w].pc);
            && w in t.jobs && t.jobs[w] == s.jobs[w] && Lookup(t.names, pc.name) == Some(pc.id)
            && pc.id in s.files && pc.id in t.files && t.files[pc.id] == s.files[pc.id]
  {
    assert JobOk(c, s, w);
    if step.w in s.jobs && Busy(s.jobs[step.w].pc) { FilesAreApart(c, was, s, step.w, w); }
  }

  lemma FilesAreApart(c: Config, was: Option<Bytes>, s: State, v: Writer, w: Writer)
    requires Inv(c, was, s) && v in s.jobs && w in s.jobs && v != w && Busy(s.jobs[v].pc) && Busy(s.jobs[w].pc)
    ensures s.jobs[v].pc.name != s.jobs[w].pc.name && s.jobs[v].pc.id != s.jobs[w].pc.id
  {
    assert JobOk(c, s, v) && JobOk(c, s, w);
  }

  predicate Succeeding(pc: Pc) { pc == Renamed || pc == Finished(true) || pc == Dead }

  /** A writer that reports failure never renamed anything. */
  lemma {:induction false} FailureRenamedNothing(c: Config, run: seq<State>, steps: seq<Step>, n: nat, w: Writer, i: nat)
    requires Run(c, run, steps) && i < n < |run| && steps[i] == Rename(w)
    ensures w in run[n].jobs && Succeeding(run[n].jobs[w].pc)
    decreases n
  {
    if i < n - 1 {
      FailureRenamedNothing(c, run, steps, n - 1, w, i);
    }
    NextSucceeds(c, run, steps, n - 1, w);
  }

  lemma NextSucceeds(c: Config, run: seq<State>, steps: seq<Step>, k: nat, w: Writer)
    requires Run(c, run, steps) && k < |steps|
    requires steps[k] == Rename(w) || (w in run[k].jobs && Succeeding(run[k].jobs[w].pc))
    ensures w in run[k + 1].jobs && Succeeding(run[k + 1].jobs[w].pc)
  {
    StaysSucceeding(c, run[k], steps[k], run[k + 1], w);
  }

  lemma StaysSucceeding(c: Config, s: State, step: Step, t: State, w: Writer)
    requires Enabled(c, s, step) && t == Take(c, s, step)
    requires step == Rename(w) || (w in s.jobs && Succeeding(s.jobs[w].pc))
    ensures w in t.jobs && Succeeding(t.jobs[w].pc)
  {
  }

  /// Whose data the target holds

  /** The data of the writers that renamed between two moments of a run. */
  ghost function RenamedIn(run: seq<State>, steps: seq<Step>, from: nat, n: nat): set<Bytes>
    requires from <= n <= |steps| < |run|
  {
    if n == from then {} else RenamedIn(run, steps, from, n - 1) + RenamedData(run[n - 1], steps[n - 1])
  }

  function RenamedData(s: State, step: Step): set<Bytes> {
    if step.Rename? && step.w in s.jobs then {s.jobs[step.w].data} else {}
  }

  /** Whatever the target may denote after a power cut is what it was, or was renamed there since. */
  ghost predicate Denotes(was: Option<Bytes>, renamed: set<Bytes>, s: State, target: Option<Id>) {
    match target
    case None => was == None
    case Some(id) => id in s.files && Whole(was, renamed, Some(s.files[id].data))
  }

  ghost predicate AllDenote(was: Option<Bytes>, renamed: set<Bytes>, s: State) {
    forall t | t in s.recoverable :: Denotes(was, renamed, s, t)
  }

  /** Only a writer at work on a temporary file changes contents, and never those of
      a file the target may denote. */
  lemma ContentsStay(c: Config, was: Option<Bytes>, s: State, step: Step, id: Id)
    requires Inv(c, was, s) && Enabled(c, s, step) && (c.flushes || !step.PowerCut?) && Some(id) in s.recoverable
    ensures id in s.files && id in Take(c, s, step).files && Take(c, s, step).files[id].data == s.files[id].data
  {
    assert TargetOk(c, was, s, Some(id));
    if !step.PowerCut? && step.w in s.jobs { assert JobOk(c, s, step.w); }
  }

  /** A step leaves the target's possible meanings as they were, adds what it
      renames, or settles on one of them. */
  lemma RecoverableMoves(c: Config, was: Option<Bytes>, s: State, step: Step, t: Option<Id>)
    requires Inv(c, was, s) && Enabled(c, s, step) && t in Take(c, s, step).recoverable
    ensures t in s.recoverable || (step.Rename? && t == Some(s.jobs[step.w].pc.id))
  {
  }

  lemma RenamedIsWritten(c: Config, was: Option<Bytes>, s: State, step: Step)
    requires Inv(c, was, s) && Enabled(c, s, step) && step.Rename?
    ensures var id := s.jobs[step.w].pc.id;
            id in Take(c, s, step).files && Take(c, s, step).files[id].data in RenamedData(s, step)
  {
    assert JobOk(c, s, step.w);
  }

  lemma StepDenotes(c: Config, was: Option<Bytes>, now: Option<Bytes>, renamed: set<Bytes>, s: State, step: Step)
    requires Inv(c, was, s) && Enabled(c, s, step) && (c.flushes || !step.PowerCut?) && AllDenote(now, renamed, s)
    ensures AllDenote(now, renamed + RenamedData(s, step), Take(c, s, step))
  {
    forall t | t in Take(c, s, step).recoverable ensures Denotes(now, renamed + RenamedData(s, step), Take(c, s, step), t) {
      RecoverableMoves(c, was, s, step, t);
      if t in s.recoverable {
        assert Denotes(now, renamed, s, t);
        if t.Some? { ContentsStay(c, was, s, step, t.value); }
      } else {
        RenamedIsWritten(c, was, s, step);
      }
    }
  }

  /** From a moment when the target's name is on the device. */
  lemma {:induction false} SettledThenRenamed(c: Config, run: seq<State>, steps: seq<Step>, from: nat, n: nat)
    requires Run(c, run, steps) && from <= n < |run| && Secret(run[0]) && Lasting(c, steps, n)
    requires run[from].recoverable == {Lookup(run[from].names, Target)}
    ensures AllDenote(Read(run[from]), RenamedIn(run, steps, from, n), run[n])
    decreases n
  {
    if n == from {
      SettledAtFirst(c, run, steps, n);
    } else {
      SettledThenRenamed(c, run, steps, from, n - 1);
      NextDenotes(c, run, steps, from, n - 1);
    }
  }

  lemma SettledAtFirst(c: Config, run: seq<State>, steps: seq<Step>, n: nat)
    requires Run(c, run, steps) && n < |run| && Secret(run[0]) && Lasting(c, steps, n)
    requires run[n].recoverable == {Lookup(run[n].names, Target)}
    ensures AllDenote(Read(run[n]), {}, run[n])
  {
    EveryStateIsWhole(c, run, steps, n);
    SettledDenotes(c, Read(run[0]), run[n]);
  }

  lemma NextDenotes(c: Config, run: seq<State>, steps: seq<Step>, from: nat, k: nat)
    requires Run(c, run, steps) && from <= k < |steps| && Secret(run[0]) && Lasting(c, steps, k + 1)
    requires AllDenote(Read(run[from]), RenamedIn(run, steps, from, k), run[k])
    ensures AllDenote(Read(run[from]), RenamedIn(run, steps, from, k + 1), run[k + 1])
  {
    EveryStateIsWhole(c, run, steps, k);
    StepDenotes(c, Read(run[0]), Read(run[from]), RenamedIn(run, steps, from, k), run[k], steps[k]);
  }

  lemma SettledDenotes(c: Config, was: Option<Bytes>, s: State)
    requires Inv(c, was, s) && s.recoverable == {Lookup(s.names, Target)}
    ensures AllDenote(Read(s), {}, s)
  {
    assert TargetOk(c, was, s, Lookup(s.names, Target));
  }

  lemma ReadDenotes(c: Config, was: Option<Bytes>, now: Option<Bytes>, renamed: set<Bytes>, s: State)
    requires Inv(c, was, s) && AllDenote(now, renamed, s)
    ensures Whole(now, renamed, Read(s))
  {
    assert Denotes(now, renamed, s, Lookup(s.names, Target));
  }

  /** The target holds the whole of what it held at first or of the data of a writer
      that renamed: what a writer that failed was given is never there on its account. */
  lemma OnlyWhatWasRenamed(c: Config, run: seq<State>, steps: seq<Step>, n: nat)
    requires Run(c, run, steps) && n < |run| && Secret(run[0]) && Lasting(c, steps, n)
    ensures Whole(Read(run[0]), RenamedIn(run, steps, 0, n), Read(run[n]))
  {
    SettledThenRenamed(c, run, steps, 0, n);
    EveryStateIsWhole(c, run, steps, n);
    ReadDenotes(c, Read(run[0]), Read(run[0]), RenamedIn(run, steps, 0, n), run[n]);
  }

  /** Once the directory is flushed the rename lasts: whatever happens later, power
      cuts included, the target holds what it held then or what was renamed since. */
  lemma FlushedDirectoryLasts(c: Config, run: seq<State>, steps: seq<Step>, m: nat, w: Writer, n: nat)
    requires Run(c, run, steps) && m < n < |run| && Secret(run[0]) && c.flushes
    requires steps[m] == FlushDirectory(w, true)
    ensures Whole(Read(run[m + 1]), RenamedIn(run, steps, m + 1, n), Read(run[n]))
  {
    DirectoryFlushed(c, run, steps, m, w);
    SettledThenRenamed(c, run, steps, m + 1, n);
    EveryStateIsWhole(c, run, steps, n);
    ReadDenotes(c, Read(run[0]), Read(run[m + 1]), RenamedIn(run, steps, m + 1, n), run[n]);
  }

  lemma DirectoryFlushed(c: Config, run: seq<State>, steps: seq<Step>, m: nat, w: Writer)
    requires Run(c, run, steps) && m < |steps| && steps[m] == FlushDirectory(w, true)
    ensures run[m + 1].recoverable == {Lookup(run[m + 1].names, Target)}
  {
  }

  /// What a write that succeeds does

  /** A rename puts the whole of its writer's data there. */
  lemma RenamePuts(c: Config, was: Option<Bytes>, s: State, step: Step)
    requires Inv(c, was, s) && Enabled(c, s, step) && step.Rename?
    ensures Read(Take(c, s, step)) == Some(s.jobs[step.w].data)
  {
    assert JobOk(c, s, step.w);
  }

  ghost predicate Undisturbed(steps: seq<Step>, i: nat, n: nat) {
    forall k | i <= k < n && k < |steps| :: !steps[k].Rename? && !steps[k].PowerCut?
  }

  lemma {:induction false} ReadStays(c: Config, run: seq<State>, steps: seq<Step>, i: nat, n: nat)
    requires Run(c, run, steps) && i <= n < |run| && Secret(run[0]) && Lasting(c, steps, n) && Undisturbed(steps, i, n)
    ensures Read(run[n]) == Read(run[i])
    decreases n
  {
    if i < n {
      ReadStays(c, run, steps, i, n - 1);
      EveryStateIsWhole(c, run, steps, n - 1);
      assert run[n - 1 + 1] == Take(c, run[n - 1], steps[n - 1]);
      OnlyRenamesTouchTheTarget(c, Read(run[0]), run[n - 1], steps[n - 1]);
    }
  }

  lemma RenamedIsRead(c: Config, run: seq<State>, steps: seq<Step>, i: nat, w: Writer)
    requires Run(c, run, steps) && i < |steps| && steps[i] == Rename(w) && Secret(run[0]) && Lasting(c, steps, i)
    ensures w in run[i].jobs && Read(run[i + 1]) == Some(run[i].jobs[w].data)
  {
    EveryStateIsWhole(c, run, steps, i);
    RenamePuts(c, Read(run[0]), run[i], steps[i]);
  }

  /** A writer's data are what it asked with, for good. */
  lemma {:induction false} DataStay(c: Config, run: seq<State>, steps: seq<Step>, i: nat, n: nat, w: Writer)
    requires Run(c, run, steps) && i <= n < |run| && w in run[i].jobs
    ensures w in run[n].jobs && run[n].jobs[w].data == run[i].jobs[w].data
    decreases n
  {
    if i < n {
      DataStay(c, run, steps, i, n - 1, w);
      DataKept(c, run[n - 1], steps[n - 1], w);
      assert run[n - 1 + 1] == Take(c, run[n - 1], steps[n - 1]);
    }
  }

  lemma DataKept(c: Config, s: State, step: Step, w: Writer)
    requires Enabled(c, s, step) && w in s.jobs
    ensures w in Take(c, s, step).jobs && Take(c, s, step).jobs[w].data == s.jobs[w].data
  {
  }

  predicate Reports(pc: Pc) { pc == Renamed || pc == Finished(true) }

  /** Only a rename leads to success. */
  lemma {:induction false} SuccessWasRenamed(c: Config, run: seq<State>, steps: seq<Step>, n: nat, w: Writer) returns (i: nat)
    requires Run(c, run, steps) && n < |run| && w in run[n].jobs && Reports(run[n].jobs[w].pc)
    ensures i < n && steps[i] == Rename(w)
  {
    assert n > 0;
    assert run[n - 1 + 1] == Take(c, run[n - 1], steps[n - 1]);
    if steps[n - 1] == Rename(w) {
      i := n - 1;
    } else {
      SucceededBefore(c, run[n - 1], steps[n - 1], w);
      i := SuccessWasRenamed(c, run, steps, n - 1, w);
    }
  }

  lemma SucceededBefore(c: Config, s: State, step: Step, w: Writer)
    requires Enabled(c, s, step) && step != Rename(w)
    requires w in Take(c, s, step).jobs && Reports(Take(c, s, step).jobs[w].pc)
    ensures w in s.jobs && Reports(s.jobs[w].pc)
  {
  }

  /** A write that reports success renamed, and until somebody renames again or the power
      goes the target holds all of its data. */
  lemma ASuccessIsThere(c: Config, run: seq<State>, steps: seq<Step>, n: nat, w: Writer) returns (i: nat)
    requires Run(c, run, steps) && n < |run| && Secret(run[0]) && Lasting(c, steps, n)
    requires w in run[n].jobs && Reports(run[n].jobs[w].pc)
    ensures i < n && steps[i] == Rename(w)
    ensures Undisturbed(steps, i + 1, n) ==> Read(run[n]) == Some(run[n].jobs[w].data)
  {
    i := SuccessWasRenamed(c, run, steps, n, w);
    RenamedIsRead(c, run, steps, i, w);
    DataStay(c, run, steps, i, n, w);
    if Undisturbed(steps, i + 1, n) { ReadStays(c, run, steps, i + 1, n); }
  }

  /** Once its directory is flushed too it outlives every power cut. */
  lemma ADurableSuccessLasts(c: Config, run: seq<State>, steps: seq<Step>, i: nat, m: nat, n: nat, w: Writer)
    requires Run(c, run, steps) && i < m < n < |run| && Secret(run[0]) && c.flushes
    requires steps[i] == Rename(w) && steps[m] == FlushDirectory(w, true) && forall k | i < k < n :: !steps[k].Rename?
    ensures w in run[n].jobs && Read(run[n]) == Some(run[n].jobs[w].data)
  {
    RenamedIsRead(c, run, steps, i, w);
    DataStay(c, run, steps, i, n, w);
    NoCutBetween(c, run, steps, i, m, w);
    assert Undisturbed(steps, i + 1, m + 1);
    ReadStays(c, run, steps, i + 1, m + 1);
    FlushedDirectoryLasts(c, run, steps, m, w, n);
    NoneRenamed(run, steps, m + 1, n);
  }

  lemma {:induction false} NoneRenamed(run: seq<State>, steps: seq<Step>, from: nat, n: nat)
    requires from <= n <= |steps| < |run| && forall k | from <= k < n :: !steps[k].Rename?
    ensures RenamedIn(run, steps, from, n) == {}
  {
    if from < n { NoneRenamed(run, steps, from, n - 1); }
  }

  /** A writer that lives to flush its directory saw no power cut since it renamed. */
  lemma NoCutBetween(c: Config, run: seq<State>, steps: seq<Step>, i: nat, m: nat, w: Writer)
    requires Run(c, run, steps) && i < m < |steps| && w in run[i].jobs && steps[m] == FlushDirectory(w, true)
    ensures forall k | i < k < m :: !steps[k].PowerCut?
  {
    forall k | i < k < m ensures !steps[k].PowerCut? {
      DataStay(c, run, steps, i, k, w);
      if steps[k].PowerCut? {
        assert run[k + 1] == Take(c, run[k], steps[k]);
        DeadStays(c, run, steps, k + 1, m, w);
      }
    }
  }

  lemma {:induction false} DeadStays(c: Config, run: seq<State>, steps: seq<Step>, k: nat, n: nat, w: Writer)
    requires Run(c, run, steps) && k <= n < |run| && w in run[k].jobs && run[k].jobs[w].pc == Dead
    ensures w in run[n].jobs && run[n].jobs[w].pc == Dead
    decreases n
  {
    if k < n {
      DeadStays(c, run, steps, k, n - 1, w);
      StillDead(c, run[n - 1], steps[n - 1], w);
      assert run[n - 1 + 1] == Take(c, run[n - 1], steps[n - 1]);
    }
  }

  /** A writer that was killed takes no further step. */
  lemma TheKilledStop(c: Config, run: seq<State>, steps: seq<Step>, i: nat, k: nat, w: Writer)
    requires Run(c, run, steps) && i < k < |steps| && steps[i] == Kill(w) && Owner(steps[k]) == Some(w)
    ensures steps[k] == Kill(w)
  {
    assert run[i + 1] == Take(c, run[i], steps[i]);
    DeadStays(c, run, steps, i + 1, k, w);
  }

  lemma StillDead(c: Config, s: State, step: Step, w: Writer)
    requires Enabled(c, s, step) && w in s.jobs && s.jobs[w].pc == Dead
    ensures w in Take(c, s, step).jobs && Take(c, s, step).jobs[w].pc == Dead
  {
  }

  predicate BothFlushed(s: State) {
    s.files.Keys == {0, 1} && s.files[0] == File([1], true, false, false) && s.files[1] == File([2], true, false, false)
  }

  lemma Flushing(c: Config) returns (run: seq<State>, steps: seq<Step>)
    requires c.flushes
    ensures Run(c, run, steps) && Secret(run[0]) && Read(run[0]) == Some([1])
    ensures var s := run[|steps|];
            && s.jobs == map[0 := Job(0, [2], false, Flushed(Tmp(0, 0), 1))] && s.names == map[Target := 0, Tmp(0, 0) := 1]
            && s.recoverable == {Some(0)} && BothFlushed(s)
  {
    run, steps := TemporaryMade(c);
    run, steps := OneMoreStep(c, run, steps, Restrict(0));
    run, steps := OneMoreStep(c, run, steps, Write(0, 1));
    run, steps := OneMoreStep(c, run, steps, Flush(0));
  }

  lemma Succeeded(c: Config) returns (run: seq<State>, steps: seq<Step>)
    requires c.flushes
    ensures Run(c, run, steps) && Secret(run[0]) && Read(run[0]) == Some([1])
    ensures var s := run[|steps|];
            && s.jobs == map[0 := Job(0, [2], false, Finished(true))] && s.names == map[Target := 1] && s.recoverable == {Some(0), Some(1)}
            && BothFlushed(s)
  {
    run, steps := Flushing(c);
    run, steps := OneMoreStep(c, run, steps, Rename(0));
    run, steps := OneMoreStep(c, run, steps, FlushDirectory(0, false));
  }

  /** Without that last flush a power cut may undo a write that reported success. */
  lemma ASuccessMayBeUndone(c: Config) returns (run: seq<State>, steps: seq<Step>)
    requires c.flushes
    ensures Run(c, run, steps) && Secret(run[0]) && |steps| > 0 && Read(run[0]) == Some([1])
    ensures var s := run[|steps| - 1]; s.jobs == map[0 := Job(0, [2], false, Finished(true))] && Read(s) == Some([2])
    ensures Read(run[|steps|]) == Some([1])
  {
    run, steps := Succeeded(c);
    ghost var before := run;
    run, steps := OneMoreStep(c, run, steps, PowerCut(Some(0), map[0 := [1], 1 := [2]]));
    assert run[..|before|][|steps| - 1] == before[|steps| - 1];
  }

  /// What is left lying about

  /** Somebody is at work on a file of this name. */
  ghost predicate Working(s: State, name: Name) {
    exists w | w in s.jobs :: Busy(s.jobs[w].pc) && s.jobs[w].pc.name == name
  }

  /** The steps that leave a temporary file behind: its writer dies, or cannot remove it. */
  ghost predicate Litters(s: State, step: Step, name: Name) {
    match step
    case Kill(w) => w in s.jobs && Busy(s.jobs[w].pc) && s.jobs[w].pc.name == name
    case Clean(w, removed) => !removed && w in s.jobs && Busy(s.jobs[w].pc) && s.jobs[w].pc.name == name
    case PowerCut(_, _) => Working(s, name)
    case _ => false
  }

  lemma LitterStep(c: Config, s: State, step: Step, name: Name)
    requires Enabled(c, s, step) && name.Tmp? && name in Take(c, s, step).names
    requires name in s.names ==> Working(s, name)
    ensures Working(Take(c, s, step), name) || Litters(s, step, name)
  {
    var t := Take(c, s, step);
    if name in s.names {
      var w :| w in s.jobs && Busy(s.jobs[w].pc) && s.jobs[w].pc.name == name;
      StillWorking(c, s, step, name, w);
    } else {
      NewlyNamed(c, s, step, name);
    }
  }

  lemma NewlyNamed(c: Config, s: State, step: Step, name: Name)
    requires Enabled(c, s, step) && name.Tmp? && name in Take(c, s, step).names && name !in s.names
    ensures Working(Take(c, s, step), name)
  {
    var t := Take(c, s, step);
    assert step.Create? && step.w in t.jobs;
  }

  lemma StillWorking(c: Config, s: State, step: Step, name: Name, w: Writer)
    requires Enabled(c, s, step) && name.Tmp? && name in Take(c, s, step).names
    requires w in s.jobs && Busy(s.jobs[w].pc) && s.jobs[w].pc.name == name
    ensures Working(Take(c, s, step), name) || Litters(s, step, name)
  {
    var t := Take(c, s, step);
    if !step.PowerCut? {
      assert w in t.jobs;
    }
  }

  /** No temporary file is there but those of writers at work, those that were there at
      first, and those a writer died on or could not remove. */
  lemma {:induction false} OnlyLitterIsLeft(c: Config, run: seq<State>, steps: seq<Step>, n: nat, name: Name)
    requires Run(c, run, steps) && n < |run| && name.Tmp? && name in run[n].names
    ensures name in run[0].names || Working(run[n], name) || exists i | 0 <= i < n :: Litters(run[i], steps[i], name)
  {
    if n > 0 {
      var (s, step) := (run[n - 1], steps[n - 1]);
      assert run[n - 1 + 1] == Take(c, s, step);
      if name in s.names { OnlyLitterIsLeft(c, run, steps, n - 1, name); }
      if name in s.names ==> Working(s, name) { LitterStep(c, s, step, name); }
    }
  }

  /** How often a writer has tried to make its file. */
  function Tries(steps: seq<Step>, n: nat, w: Writer): nat
    requires n <= |steps|
  {
    if n == 0 then 0 else Tries(steps, n - 1, w) + if steps[n - 1].Create? && steps[n - 1].w == w then 1 else 0
  }

  lemma {:induction false} TriesAreCounted(c: Config, run: seq<State>, steps: seq<Step>, n: nat, w: Writer)
    requires Run(c, run, steps) && n < |run|
    ensures w !in run[n].jobs ==> Tries(steps, n, w) == 0
    ensures w in run[n].jobs && run[n].jobs[w].pc.Creating? ==> run[n].jobs[w].pc.attempt == Tries(steps, n, w)
  {
    if n > 0 {
      TriesAreCounted(c, run, steps, n - 1, w);
      assert run[n - 1 + 1] == Take(c, run[n - 1], steps[n - 1]);
      AttemptsMove(c, run[n - 1], steps[n - 1], w);
    }
  }

  lemma AttemptsMove(c: Config, s: State, step: Step, w: Writer)
    requires Enabled(c, s, step)
    ensures var t := Take(c, s, step);
            && (w !in t.jobs ==> w !in s.jobs && !(step.Create? && step.w == w))
            && (w in t.jobs && t.jobs[w].pc.Creating? && w !in s.jobs ==>
                  t.jobs[w].pc.attempt == 0 && !(step.Create? && step.w == w))
            && (w in t.jobs && t.jobs[w].pc.Creating? && w in s.jobs ==>
                  && s.jobs[w].pc.Creating?
                  && t.jobs[w].pc.attempt == s.jobs[w].pc.attempt + if step.Create? && step.w == w then 1 else 0)
  {
  }

  /** A free name is taken at once, up to a hundred and twenty-eight tries, and only then
      does the writer give up for want of a name. */
  lemma AFreeNameIsTaken(c: Config, run: seq<State>, steps: seq<Step>, n: nat, w: Writer, sequence: nat, id: Id)
    requires Run(c, run, steps) && n < |steps| && steps[n] == Create(w, sequence, id)
    ensures w in run[n].jobs && w in run[n + 1].jobs
    ensures var (name, pc) := (Tmp(run[n].jobs[w].pid, sequence), run[n + 1].jobs[w].pc);
            && (pc == Finished(false) <==> Tries(steps, n, w) >= 128)
            && (pc == Created(name, id) && Lookup(run[n + 1].names, name) == Some(id) <==>
                  Tries(steps, n, w) < 128 && name !in run[n].names)
  {
    TriesAreCounted(c, run, steps, n, w);
    assert run[n + 1] == Take(c, run[n], steps[n]);
  }

  /// Why the contents are flushed before the rename

  lemma OneMoreStep(c: Config, run: seq<State>, steps: seq<Step>, step: Step) returns (longer: seq<State>, more: seq<Step>)
    requires Run(c, run, steps) && Enabled(c, run[|steps|], step)
    ensures Run(c, longer, more) && longer[0] == run[0] && |more| == |steps| + 1
    ensures longer[|more|] == Take(c, run[|steps|], step) && longer[..|run|] == run
  {
    longer, more := run + [Take(c, run[|steps|], step)], steps + [step];
  }

  lemma TemporaryMade(c: Config) returns (run: seq<State>, steps: seq<Step>)
    ensures Run(c, run, steps) && Secret(run[0]) && Read(run[0]) == Some([1])
    ensures run[|steps|] == State(map[Target := 0, Tmp(0, 0) := 1],
                                  map[0 := File([1], true, false, false), 1 := File([], false, false, false)],
                                  map[0 := Job(0, [2], false, Created(Tmp(0, 0), 1))], {Some(0)}, {[2]})
  {
    run, steps := [State(map[Target := 0], map[0 := File([1], true, false, false)], map[], {Some(0)}, {})], [];
    run, steps := OneMoreStep(c, run, steps, Ask(0, 0, [2], false));
    run, steps := OneMoreStep(c, run, steps, Create(0, 0, 1));
  }

  lemma WrittenWithoutFlush(c: Config) returns (run: seq<State>, steps: seq<Step>)
    requires !c.flushes
    ensures Run(c, run, steps) && Secret(run[0]) && Read(run[0]) == Some([1])
    ensures var s := run[|steps|];
            && s.jobs == map[0 := Job(0, [2], false, Writing(Tmp(0, 0), 1, 1))]
            && s.names == map[Target := 0, Tmp(0, 0) := 1] && s.files.Keys == {0, 1}
            && s.files[1] == File([2], false, false, false) && s.recoverable == {Some(0)} && s.offered == {[2]}
  {
    run, steps := TemporaryMade(c);
    run, steps := OneMoreStep(c, run, steps, Restrict(0));
    run, steps := OneMoreStep(c, run, steps, Write(0, 1));
  }

  /** Renamed but never flushed: the power goes and the new file is empty. */
  lemma UnflushedIsLost(c: Config) returns (run: seq<State>, steps: seq<Step>)
    requires !c.flushes
    ensures Run(c, run, steps) && Secret(run[0]) && Read(run[0]) == Some([1])
    ensures run[|steps|].offered == {[2]} && Read(run[|steps|]) == Some([])
  {
    run, steps := WrittenWithoutFlush(c);
    var after := map id | id in run[|steps|].files.Keys :: [];
    run, steps := OneMoreStep(c, run, steps, Flush(0));
    run, steps := OneMoreStep(c, run, steps, Rename(0));
    run, steps := OneMoreStep(c, run, steps, PowerCut(Some(1), after));
  }

  ghost predicate AlwaysWhole(c: Config) {
    forall run: seq<State>, steps: seq<Step> | Run(c, run, steps) && Secret(run[0]) ::
      Whole(Read(run[0]), run[|steps|].offered, Read(run[|steps|]))
  }

  /** The promise no test in a process can observe: the target survives a power
      cut whole exactly when the contents are flushed before the rename. */
  lemma WholeIffFlushed(c: Config)
    ensures AlwaysWhole(c) <==> c.flushes
  {
    if c.flushes {
      forall run: seq<State>, steps: seq<Step> | Run(c, run, steps) && Secret(run[0])
        ensures Whole(Read(run[0]), run[|steps|].offered, Read(run[|steps|]))
      {
        EveryStateIsWhole(c, run, steps, |steps|);
      }
    } else {
      var run, steps := UnflushedIsLost(c);
      assert !Whole(Read(run[0]), run[|steps|].offered, Read(run[|steps|]));
    }
  }
}
