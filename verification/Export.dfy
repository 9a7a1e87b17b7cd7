/** The vault export of `src/obsidian.rs`: notes, hubs and the graph settings,
    written only where they differ. */
module Export {
  import Cut
  import opened Slug
  import opened Wrappers

  const TOPIC_HUB_THRESHOLD := 2

  datatype Observation = Observation(id: int, title: string, kind: string, session: string, topic: Option<string>, body: string)

  datatype Reference = Reference(slug: string, kind: string)

  datatype HubKind = Session | Topic

  /** The files an export can touch, by what they are: a note or a hub of either
      kind under its own directory, and the graph settings. */
  datatype Path = Note(name: string) | Hub(kind: HubKind, name: string) | Graph

  /** How text is made, which no property here depends on: lower-casing, what
      counts as blank, a topic's family, and the markdown of each kind of file. */
  datatype Style = Style(
    lower: string -> string, blank: string -> bool, family: string -> string,
    note: Observation -> string, hub: (HubKind, string, seq<Reference>) -> string, graph: string)

  datatype GraphConfig = Preserve | Force | Skip

  datatype Summary = Summary(
    written: nat, alike: nat, sessionHubs: nat, topicHubs: nat, graph: bool, orphaned: Option<nat>)

  function NameOf(y: Style, o: Observation): string { NoteName(y.lower(o.title), o.id) }

  /** The hub an observation belongs to, if it belongs to one of that kind. */
  function HubOf(y: Style, kind: HubKind, o: Observation): Option<string> {
    match kind
    case Session => if y.blank(o.session) then None else Some(SafeComponent(o.session))
    case Topic => if o.topic == None || y.blank(o.topic.value) then None else Some(SafeComponent(y.family(o.topic.value)))
  }

  function References(y: Style, kind: HubKind, observations: seq<Observation>, key: string): seq<Reference> {
    if observations == [] then []
    else
      var (rest, o) := (References(y, kind, observations[..|observations| - 1], key), observations[|observations| - 1]);
      if HubOf(y, kind, o) == Some(key) then rest + [Reference(NameOf(y, o), o.kind)] else rest
  }

  function Threshold(kind: HubKind): nat { if kind == Topic then TOPIC_HUB_THRESHOLD else 1 }

  ghost predicate UniqueIds(observations: seq<Observation>) {
    forall i, j | 0 <= i < j < |observations| :: observations[i].id != observations[j].id
  }

  /// What an export leaves behind

  /** Every note, and every hub with enough in it, is as the store says. */
  ghost predicate NotesOk(y: Style, observations: seq<Observation>, files: map<Path, string>) {
    forall i | 0 <= i < |observations| :: NoteOk(y, observations[i], files)
  }

  predicate NoteOk(y: Style, o: Observation, files: map<Path, string>) {
    Holds(files, Note(NameOf(y, o)), y.note(o))
  }

  predicate Holds(files: map<Path, string>, path: Path, text: string) { path in files && files[path] == text }

  ghost predicate HubsOk(y: Style, kind: HubKind, observations: seq<Observation>, files: map<Path, string>) {
    forall key | |References(y, kind, observations, key)| >= Threshold(kind) ::
      Holds(files, Hub(kind, key), y.hub(kind, key, References(y, kind, observations, key)))
  }

  ghost predicate UpToDate(y: Style, observations: seq<Observation>, files: map<Path, string>) {
    NotesOk(y, observations, files) && HubsOk(y, Session, observations, files) && HubsOk(y, Topic, observations, files)
  }

  /** The paths an export of these observations may write. */
  ghost predicate Planned(y: Style, observations: seq<Observation>, path: Path) {
    match path
    case Note(name) => exists i | 0 <= i < |observations| :: NameOf(y, observations[i]) == name
    case Hub(kind, name) => |References(y, kind, observations, name)| >= Threshold(kind)
    case Graph => true
  }

  /** Two vaults agree at this path. */
  predicate Agree(a: map<Path, string>, b: map<Path, string>, p: Path) {
    (p in a <==> p in b) && (p in a ==> a[p] == b[p])
  }

  /** How many notes differ from what the vault holds. */
  ghost function Stale(y: Style, observations: seq<Observation>, files: map<Path, string>): nat {
    if observations == [] then 0
    else
      var o := observations[|observations| - 1];
      Stale(y, observations[..|observations| - 1], files) + if Holds(files, Note(NameOf(y, o)), y.note(o)) then 0 else 1
  }

  /** The hubs gathered while the notes were written. */
  ghost predicate Gathered(y: Style, kind: HubKind, observations: seq<Observation>, hubs: map<string, seq<Reference>>) {
    forall key :: References(y, kind, observations, key) == if key in hubs then hubs[key] else []
  }

  ghost predicate NoEmptyHub(hubs: map<string, seq<Reference>>) {
    forall key | key in hubs :: hubs[key] != []
  }

  function Gather(y: Style, kind: HubKind, o: Observation, hubs: map<string, seq<Reference>>): map<string, seq<Reference>> {
    match HubOf(y, kind, o)
    case None => hubs
    case Some(key) => hubs[key := (if key in hubs then hubs[key] else []) + [Reference(NameOf(y, o), o.kind)]]
  }

  lemma GatherOne(y: Style, kind: HubKind, observations: seq<Observation>, o: Observation, hubs: map<string, seq<Reference>>)
    requires Gathered(y, kind, observations, hubs) && NoEmptyHub(hubs)
    ensures Gathered(y, kind, observations + [o], Gather(y, kind, o, hubs)) && NoEmptyHub(Gather(y, kind, o, hubs))
  {
    assert (observations + [o])[..|observations|] == observations;
  }

  /** No two notes of one export share a path, so none overwrites another. */
  lemma NotePathsAreApart(y: Style, observations: seq<Observation>, i: nat, j: nat)
    requires UniqueIds(observations) && i < j < |observations|
    ensures Note(NameOf(y, observations[i])) != Note(NameOf(y, observations[j]))
  {
    if NameOf(y, observations[i]) == NameOf(y, observations[j]) {
      NoteNamesAreApart(y.lower(observations[i].title), observations[i].id, y.lower(observations[j].title), observations[j].id);
    }
  }

  /** The observations that belong to this hub, in order. */
  ghost function Belonging(y: Style, kind: HubKind, observations: seq<Observation>, key: string): seq<Observation> {
    if observations == [] then []
    else
      var (rest, o) := (Belonging(y, kind, observations[..|observations| - 1], key), observations[|observations| - 1]);
      if BelongsTo(y, kind, o, key) then rest + [o] else rest
  }

  /** A session's hub has the session's name made safe, a topic's its family's; what is
      blank has none. */
  ghost predicate BelongsTo(y: Style, kind: HubKind, o: Observation, key: string) {
    match kind
    case Session => !y.blank(o.session) && SafeComponent(o.session) == key
    case Topic => o.topic.Some? && !y.blank(o.topic.value) && SafeComponent(y.family(o.topic.value)) == key
  }

  /** A hub refers to the notes of the observations that belong to it, one each and in
      order, every one of them a note this export writes. */
  lemma {:induction false} ReferencesAreNotes(y: Style, kind: HubKind, observations: seq<Observation>, key: string)
    ensures var (r, own) := (References(y, kind, observations, key), Belonging(y, kind, observations, key));
            |r| == |own| && forall i | 0 <= i < |r| ::
              r[i].slug == NoteName(y.lower(own[i].title), own[i].id) && r[i].kind == own[i].kind && own[i] in observations
  {
    if observations != [] {
      var n := |observations| - 1;
      ReferencesAreNotes(y, kind, observations[..n], key);
      assert forall o | o in observations[..n] :: o in observations;
      HubIffBelongs(y, kind, observations[n], key);
    }
  }

  lemma HubIffBelongs(y: Style, kind: HubKind, o: Observation, key: string)
    ensures HubOf(y, kind, o) == Some(key) <==> BelongsTo(y, kind, o, key)
  {
  }

  lemma ReferencesArePlanned(y: Style, kind: HubKind, observations: seq<Observation>, key: string, i: nat)
    requires i < |References(y, kind, observations, key)|
    ensures Planned(y, observations, Note(References(y, kind, observations, key)[i].slug))
  {
    ReferencesAreNotes(y, kind, observations, key);
    var o := Belonging(y, kind, observations, key)[i];
    var j :| 0 <= j < |observations| && observations[j] == o;
    assert NameOf(y, observations[j]) == References(y, kind, observations, key)[i].slug;
  }

  /** A session has a hub as soon as an observation belongs to it, a topic with the second. */
  lemma HubsArePlanned(y: Style, observations: seq<Observation>, key: string)
    ensures Planned(y, observations, Hub(Session, key)) <==> |Belonging(y, Session, observations, key)| >= 1
    ensures Planned(y, observations, Hub(Topic, key)) <==> |Belonging(y, Topic, observations, key)| >= 2
  {
    ReferencesAreNotes(y, Session, observations, key);
    ReferencesAreNotes(y, Topic, observations, key);
  }

  /// Where the files are

  /** The directory of a file, relative to the vault. */
  function Directory(path: Path): string {
    match path
    case Note(_) => "leteo"
    case Hub(Session, _) => "leteo/_sessions"
    case Hub(Topic, _) => "leteo/_topics"
    case Graph => ".obsidian"
  }

  function BaseName(path: Path): string { if path.Graph? then "graph.json" else path.name + ".md" }

  /** Each file's place in the vault, as the program joins it. */
  function Located(path: Path): string { Directory(path) + ['/'] + BaseName(path) }

  lemma PlacesSpelledOut(name: string)
    ensures Located(Note(name)) == "leteo/" + name + ".md" && Located(Graph) == ".obsidian/graph.json"
    ensures Located(Hub(Session, name)) == "leteo/_sessions/" + name + ".md"
    ensures Located(Hub(Topic, name)) == "leteo/_topics/" + name + ".md"
  {
    assert "leteo" + ['/'] == "leteo/" && "leteo/_sessions" + ['/'] == "leteo/_sessions/" && "leteo/_topics" + ['/'] == "leteo/_topics/";
    assert "leteo/" + (name + ".md") == "leteo/" + name + ".md";
    assert "leteo/_sessions/" + (name + ".md") == "leteo/_sessions/" + name + ".md";
    assert "leteo/_topics/" + (name + ".md") == "leteo/_topics/" + name + ".md";
    assert ".obsidian" + ['/'] + "graph.json" == ".obsidian/graph.json";
  }

  predicate NoSeparator(name: string) { '/' !in name && '\\' !in name }

  predicate OneComponent(path: Path) { path.Graph? || NoSeparator(path.name) }

  lemma SafeHasNoSeparator(name: string)
    requires SafeText(name)
    ensures NoSeparator(name)
  {
  }

  /** What an export writes is named by one component each. */
  lemma PlannedIsOneComponent(y: Style, observations: seq<Observation>, path: Path)
    requires Planned(y, observations, path)
    ensures OneComponent(path)
  {
    match path
    case Graph =>
    case Note(name) =>
      var i :| 0 <= i < |observations| && NameOf(y, observations[i]) == name;
      NoteNameIsSafe(y.lower(observations[i].title), observations[i].id);
      SafeHasNoSeparator(name);
    case Hub(kind, name) =>
      ReferencedIsNamed(y, kind, observations, name);
      var i :| 0 <= i < |observations| && HubOf(y, kind, observations[i]) == Some(name);
      HubIsSafe(y, kind, observations[i]);
      SafeHasNoSeparator(name);
  }

  lemma HubIsSafe(y: Style, kind: HubKind, o: Observation)
    requires HubOf(y, kind, o).Some?
    ensures SafeText(HubOf(y, kind, o).value)
  {
    SafeComponentIsSafe(if kind == Session then o.session else y.family(o.topic.value));
  }

  /** Different files are at different places: no two notes, no note and hub, no two
      hubs of either kind, and the graph settings with none of them. */
  lemma LocatedApart(y: Style, observations: seq<Observation>, p: Path, q: Path)
    requires Planned(y, observations, p) && Planned(y, observations, q)
    ensures Located(p) == Located(q) <==> p == q
  {
    PlannedIsOneComponent(y, observations, p);
    PlannedIsOneComponent(y, observations, q);
    ComponentsApart(p, q);
  }

  lemma ComponentsApart(p: Path, q: Path)
    requires OneComponent(p) && OneComponent(q)
    ensures Located(p) == Located(q) <==> p == q
  {
    if Located(p) == Located(q) {
      assert '/' !in BaseName(p) && '/' !in BaseName(q);
      Cut.AtLast(Directory(p), BaseName(p), Directory(q), BaseName(q), '/');
      SameDirectory(p, q);
      SameBaseName(p, q);
    }
  }

  lemma SameBaseName(p: Path, q: Path)
    requires BaseName(p) == BaseName(q) && p.Graph? == q.Graph?
    ensures p.Graph? || p.name == q.name
  {
    if !p.Graph? {
      assert p.name == BaseName(p)[..|p.name|] && q.name == BaseName(q)[..|q.name|];
    }
  }

  lemma SameDirectory(p: Path, q: Path)
    requires Directory(p) == Directory(q)
    ensures p.Graph? == q.Graph? && p.Note? == q.Note? && (p.Hub? && q.Hub? ==> p.kind == q.kind)
  {
    assert |"leteo"| == 5 && |"leteo/_sessions"| == 15 && |"leteo/_topics"| == 13 && |".obsidian"| == 9;
  }

  /** What the notes written so far leave: they are right, and only they changed. */
  ghost predicate NotesSoFar(y: Style, observations: seq<Observation>, before: map<Path, string>, after: map<Path, string>, written: nat) {
    && NotesOk(y, observations, after)
    && written == Stale(y, observations, before) <= |observations|
    && forall p: Path | !p.Note? || !Planned(y, observations, p) :: Agree(before, after, p)
  }

  lemma NextNote(y: Style, observations: seq<Observation>, i: nat, start: map<Path, string>, files: map<Path, string>, written: nat)
    requires UniqueIds(observations) && i < |observations| && NotesSoFar(y, observations[..i], start, files, written)
    ensures var (path, text) := (Note(NameOf(y, observations[i])), y.note(observations[i]));
            NotesSoFar(y, observations[..i + 1], start, files[path := text], written + if Holds(files, path, text) then 0 else 1)
  {
    NewName(y, observations, i);
    assert Agree(start, files, Note(NameOf(y, observations[i])));
    NextIsOk(y, observations, i, files, Note(NameOf(y, observations[i])), y.note(observations[i]));
    NextIsStale(y, observations, i, start);
    OnlyTheNote(y, observations, i, start, files);
  }

  lemma NextIsOk(y: Style, observations: seq<Observation>, i: nat, files: map<Path, string>, path: Path, text: string)
    requires i < |observations| && NotesOk(y, observations[..i], files) && !Planned(y, observations[..i], path)
    requires path == Note(NameOf(y, observations[i])) && text == y.note(observations[i])
    ensures NotesOk(y, observations[..i + 1], files[path := text])
  {
    var (all, now) := (observations[..i + 1], files[path := text]);
    forall j | 0 <= j < |all| ensures NoteOk(y, all[j], now) {
      EachIsOk(y, observations, i, all, j, files, path, text, now);
    }
  }

  lemma EachIsOk(y: Style, observations: seq<Observation>, i: nat, all: seq<Observation>, j: nat, files: map<Path, string>,
                 path: Path, text: string, now: map<Path, string>)
    requires i < |observations| && all == observations[..i + 1] && j < |all| && now == files[path := text]
    requires NotesOk(y, observations[..i], files) && !Planned(y, observations[..i], path)
    requires path == Note(NameOf(y, observations[i])) && text == y.note(observations[i])
    ensures NoteOk(y, all[j], now)
  {
    if j < i {
      assert observations[..i][j] == all[j];
      assert NoteOk(y, observations[..i][j], files);
      assert Planned(y, observations[..i], Note(NameOf(y, observations[..i][j])));
    } else {
      assert all[j] == observations[i];
    }
  }

  lemma NextIsStale(y: Style, observations: seq<Observation>, i: nat, files: map<Path, string>)
    requires i < |observations|
    ensures Stale(y, observations[..i + 1], files) == Stale(y, observations[..i], files) + if NoteOk(y, observations[i], files) then 0 else 1
  {
    assert observations[..i + 1][..i] == observations[..i];
  }

  lemma OnlyTheNote(y: Style, observations: seq<Observation>, i: nat, start: map<Path, string>, files: map<Path, string>)
    requires i < |observations|
    requires forall p: Path | !p.Note? || !Planned(y, observations[..i], p) :: Agree(start, files, p)
    ensures var now := files[Note(NameOf(y, observations[i])) := y.note(observations[i])];
            forall p: Path | !p.Note? || !Planned(y, observations[..i + 1], p) :: Agree(start, now, p)
  {
    assert observations[..i + 1] == observations[..i] + [observations[i]];
    NamesGrow(y, observations[..i], observations[i]);
    forall p: Path | !p.Note? || !Planned(y, observations[..i + 1], p)
      ensures Agree(start, files[Note(NameOf(y, observations[i])) := y.note(observations[i])], p)
    {
      assert Agree(start, files, p);
    }
  }

  /** The next observation's note is none of those already written. */
  lemma NewName(y: Style, observations: seq<Observation>, i: nat)
    requires UniqueIds(observations) && i < |observations|
    ensures !Planned(y, observations[..i], Note(NameOf(y, observations[i])))
  {
    forall j | 0 <= j < i ensures NameOf(y, observations[..i][j]) != NameOf(y, observations[i]) {
      NotePathsAreApart(y, observations, j, i);
    }
  }

  lemma {:induction false} NothingStale(y: Style, observations: seq<Observation>, files: map<Path, string>)
    requires NotesOk(y, observations, files)
    ensures Stale(y, observations, files) == 0
    decreases |observations|
  {
    if observations != [] {
      var front := observations[..|observations| - 1];
      forall i | 0 <= i < |front| ensures NoteOk(y, front[i], files) {
        assert NoteOk(y, observations[i], files);
      }
      NothingStale(y, front, files);
      assert NoteOk(y, observations[|front|], files);
    }
  }

  /** What the loop over the observations has gathered for the hubs and the orphans. */
  ghost predicate GatheredAll(y: Style, observations: seq<Observation>, sessions: map<string, seq<Reference>>,
                              topics: map<string, seq<Reference>>, names: set<string>)
  {
    && Gathered(y, Session, observations, sessions) && NoEmptyHub(sessions)
    && Gathered(y, Topic, observations, topics) && NoEmptyHub(topics)
    && forall n :: n in names <==> Planned(y, observations, Note(n))
  }

  lemma GatherNext(y: Style, observations: seq<Observation>, i: nat, sessions: map<string, seq<Reference>>,
                   topics: map<string, seq<Reference>>, names: set<string>)
    requires i < |observations| && GatheredAll(y, observations[..i], sessions, topics, names)
    ensures var o := observations[i];
            GatheredAll(y, observations[..i + 1], Gather(y, Session, o, sessions), Gather(y, Topic, o, topics), names + {NameOf(y, o)})
  {
    var (before, o) := (observations[..i], observations[i]);
    assert observations[..i + 1] == before + [o];
    GatherOne(y, Session, before, o, sessions);
    GatherOne(y, Topic, before, o, topics);
    NamesGrow(y, before, o);
  }

  lemma GatheredNone(y: Style)
    ensures GatheredAll(y, [], map[], map[], {})
  {
  }

  class Vault {
    var files: map<Path, string>

    method WriteIfChanged(path: Path, content: string) returns (written: bool)
      modifies this
      ensures files == old(files)[path := content]
      ensures written <==> !Holds(old(files), path, content)
    {
      if path in files && files[path] == content {
        return false;
      }
      files := files[path := content];
      return true;
    }

    method WriteNotes(y: Style, observations: seq<Observation>)
      returns (written: nat, sessions: map<string, seq<Reference>>, topics: map<string, seq<Reference>>, names: set<string>)
      requires UniqueIds(observations)
      modifies this
      ensures NotesSoFar(y, observations, old(files), files, written)
      ensures GatheredAll(y, observations, sessions, topics, names)
    {
      written, sessions, topics, names := 0, map[], map[], {};
      GatheredNone(y);
      for i := 0 to |observations|
        invariant NotesSoFar(y, observations[..i], old(files), files, written)
        invariant GatheredAll(y, observations[..i], sessions, topics, names)
      {
        var o := observations[i];
        GatherNext(y, observations, i, sessions, topics, names);
        sessions, topics := Gather(y, Session, o, sessions), Gather(y, Topic, o, topics);
        var slug, changed := WriteNote(y, observations, i, old(files), written);
        names := names + {slug};
        if changed {
          written := written + 1;
        }
      }
      assert observations[..|observations|] == observations;
    }

    method WriteNote(y: Style, observations: seq<Observation>, i: nat, ghost start: map<Path, string>, ghost written: nat)
      returns (slug: string, changed: bool)
      requires UniqueIds(observations) && i < |observations| && NotesSoFar(y, observations[..i], start, files, written)
      modifies this
      ensures var (path, text) := (Note(NameOf(y, observations[i])), y.note(observations[i]));
              slug == path.name && changed == !Holds(old(files), path, text) && files == old(files)[path := text]
      ensures NotesSoFar(y, observations[..i + 1], start, files, written + if changed then 1 else 0)
    {
      var o := observations[i];
      slug := Slugify(y.lower(o.title), o.id);
      NextNote(y, observations, i, start, files, written);
      changed := WriteIfChanged(Note(slug), y.note(o));
    }

    method WriteHubs(y: Style, kind: HubKind, hubs: map<string, seq<Reference>>) returns (written: nat)
      modifies this
      ensures HubsSoFar(y, kind, hubs, hubs.Keys, old(files), files)
      ensures written == |StaleHubs(y, kind, hubs, hubs.Keys, old(files))|
    {
      written := 0;
      var left := hubs.Keys;
      assert hubs.Keys - left == {};
      while left != {}
        invariant left <= hubs.Keys
        invariant HubsSoFar(y, kind, hubs, hubs.Keys - left, old(files), files)
        invariant written == |StaleHubs(y, kind, hubs, hubs.Keys - left, old(files))|
        decreases left
      {
        var key :| key in left;
        ghost var done := hubs.Keys - left;
        left := left - {key};
        assert hubs.Keys - left == done + {key};
        var changed := WriteHub(y, kind, hubs, key, done, old(files));
        if changed {
          written := written + 1;
        }
      }
      assert hubs.Keys - left == hubs.Keys;
    }

    method WriteHub(y: Style, kind: HubKind, hubs: map<string, seq<Reference>>, key: string, ghost done: set<string>, ghost start: map<Path, string>)
      returns (changed: bool)
      requires key in hubs && key !in done && HubsSoFar(y, kind, hubs, done, start, files)
      modifies this
      ensures HubsSoFar(y, kind, hubs, done + {key}, start, files)
      ensures |StaleHubs(y, kind, hubs, done + {key}, start)| == |StaleHubs(y, kind, hubs, done, start)| + if changed then 1 else 0
    {
      StaleGrows(y, kind, hubs, done, key, start);
      if |hubs[key]| < Threshold(kind) {
        return false;
      }
      assert Agree(start, files, Hub(kind, key));
      changed := WriteIfChanged(Hub(kind, key), y.hub(kind, key, hubs[key]));
    }

    method WriteGraph(y: Style, mode: GraphConfig) returns (written: bool)
      modifies this
      ensures GraphOk(y, mode, files) && forall p: Path | p != Graph :: Agree(old(files), files, p)
      ensures written <==> !old(GraphOk(y, mode, files))
      ensures !written ==> files == old(files)
    {
      if mode == Skip || (mode == Preserve && Graph in files) {
        return false;
      }
      ghost var before := files;
      written := WriteIfChanged(Graph, y.graph);
      if !written { assert files == before; }
    }

    /** The whole export. Afterwards every note and hub is as the store says and
        nothing else moved; over a vault already in that state it writes nothing. */
    method Export(y: Style, observations: seq<Observation>, complete: bool, mode: GraphConfig) returns (summary: Summary)
      requires UniqueIds(observations)
      modifies this
      ensures UpToDate(y, observations, files) && GraphOk(y, mode, files)
      ensures KeptUnplanned(y, observations, old(files), files)
      ensures summary.written == Stale(y, observations, old(files)) && summary.written + summary.alike == |observations|
      ensures summary.sessionHubs == |StaleKeys(y, Session, observations, old(files))|
      ensures summary.topicHubs == |StaleKeys(y, Topic, observations, old(files))|
      ensures summary.graph <==> !old(GraphOk(y, mode, files))
      ensures summary.orphaned == if complete then Some(|Orphans(y, observations, files)|) else None
      ensures old(UpToDate(y, observations, files) && GraphOk(y, mode, files)) ==>
                files == old(files) && summary.written == summary.sessionHubs == summary.topicHubs == 0 && !summary.graph
    {
      var written, sessions, topics, names := WriteNotes(y, observations);
      ghost var f1 := files;
      var sessionHubs := WriteHubs(y, Session, sessions);
      ghost var f2 := files;
      var topicHubs := WriteHubs(y, Topic, topics);
      ghost var f3 := files;
      var graph := WriteGraph(y, mode);
      var orphaned: Option<nat> := None;
      if complete {
        var count := CountOrphans(y, observations, names);
        orphaned := Some(count);
      }
      AfterNotes(y, observations, old(files), f1, written);
      AfterHubs(y, Session, observations, sessions, f1, f2);
      AfterHubs(y, Topic, observations, topics, f2, f3);
      HubCounts(y, observations, sessions, topics, names, old(files), f1, f2, written);
      GraphUntouched(y, mode, observations, sessions, topics, old(files), f1, f2, f3, written);
      Settles(y, observations, f1, f2, f3, files);
      KeptThrough(y, observations, old(files), f1, f2);
      KeptThrough(y, observations, old(files), f2, f3);
      KeptThrough(y, observations, old(files), f3, files);
      summary := Summary(written, |observations| - written, sessionHubs, topicHubs, graph, orphaned);
    }

    method CountOrphans(ghost y: Style, ghost observations: seq<Observation>, names: set<string>) returns (count: nat)
      requires forall n :: n in names <==> Planned(y, observations, Note(n))
      ensures count == |Orphans(y, observations, files)|
    {
      var found := set p | p in files && p.Note? && p.name !in names;
      assert found == Orphans(y, observations, files);
      return |found|;
    }
  }

  /** Notes in the vault that no observation accounts for. */
  ghost function Orphans(y: Style, observations: seq<Observation>, files: map<Path, string>): set<Path> {
    set p | p in files && p.Note? && !Planned(y, observations, p)
  }

  predicate GraphOk(y: Style, mode: GraphConfig, files: map<Path, string>) {
    mode == Skip || (mode == Preserve && Graph in files) || Holds(files, Graph, y.graph)
  }

  predicate Enough(kind: HubKind, hubs: map<string, seq<Reference>>, key: string) {
    key in hubs && |hubs[key]| >= Threshold(kind)
  }

  ghost function StaleHubs(y: Style, kind: HubKind, hubs: map<string, seq<Reference>>, done: set<string>, files: map<Path, string>): set<string> {
    set key | key in done && Enough(kind, hubs, key) && !Holds(files, Hub(kind, key), y.hub(kind, key, hubs[key]))
  }

  function HubNames(y: Style, kind: HubKind, observations: seq<Observation>): set<string> {
    set i | 0 <= i < |observations| && HubOf(y, kind, observations[i]).Some? :: HubOf(y, kind, observations[i]).value
  }

  /** The hubs with enough in them that differ from what the vault holds. */
  ghost function StaleKeys(y: Style, kind: HubKind, observations: seq<Observation>, files: map<Path, string>): set<string> {
    set key | key in HubNames(y, kind, observations) && StaleKey(y, kind, observations, key, files)
  }

  predicate StaleKey(y: Style, kind: HubKind, observations: seq<Observation>, key: string, files: map<Path, string>) {
    var references := References(y, kind, observations, key);
    |references| >= Threshold(kind) && !Holds(files, Hub(kind, key), y.hub(kind, key, references))
  }

  lemma {:induction false} ReferencedIsNamed(y: Style, kind: HubKind, observations: seq<Observation>, key: string)
    ensures References(y, kind, observations, key) != [] ==> key in HubNames(y, kind, observations)
    decreases |observations|
  {
    if observations != [] {
      var n := |observations| - 1;
      ReferencedIsNamed(y, kind, observations[..n], key);
      if key in HubNames(y, kind, observations[..n]) {
        var i :| 0 <= i < n && HubOf(y, kind, observations[..n][i]) == Some(key);
        assert HubOf(y, kind, observations[i]) == Some(key);
      }
    }
  }

  /** What the loop over the hubs counts is what differed before the export. */
  lemma StaleCounts(y: Style, kind: HubKind, observations: seq<Observation>, hubs: map<string, seq<Reference>>,
                    a: map<Path, string>, b: map<Path, string>)
    requires Gathered(y, kind, observations, hubs) && forall key :: Agree(a, b, Hub(kind, key))
    ensures StaleHubs(y, kind, hubs, hubs.Keys, b) == StaleKeys(y, kind, observations, a)
  {
    forall key ensures key in StaleHubs(y, kind, hubs, hubs.Keys, b) <==> key in StaleKeys(y, kind, observations, a) {
      GatheredEnough(y, kind, observations, hubs, key);
      ReferencedIsNamed(y, kind, observations, key);
      assert Agree(a, b, Hub(kind, key));
    }
  }

  lemma HubCounts(y: Style, observations: seq<Observation>, sessions: map<string, seq<Reference>>, topics: map<string, seq<Reference>>,
                  names: set<string>, f0: map<Path, string>, f1: map<Path, string>, f2: map<Path, string>, written: nat)
    requires NotesSoFar(y, observations, f0, f1, written) && GatheredAll(y, observations, sessions, topics, names)
    requires HubsSoFar(y, Session, sessions, sessions.Keys, f1, f2)
    ensures StaleHubs(y, Session, sessions, sessions.Keys, f1) == StaleKeys(y, Session, observations, f0)
    ensures StaleHubs(y, Topic, topics, topics.Keys, f2) == StaleKeys(y, Topic, observations, f0)
  {
    forall key ensures Agree(f0, f1, Hub(Session, key)) && Agree(f0, f2, Hub(Topic, key)) {
      assert Agree(f0, f1, Hub(Topic, key)) && Agree(f1, f2, Hub(Topic, key));
    }
    StaleCounts(y, Session, observations, sessions, f0, f1);
    StaleCounts(y, Topic, observations, topics, f0, f2);
  }

  lemma GraphUntouched(y: Style, mode: GraphConfig, observations: seq<Observation>, sessions: map<string, seq<Reference>>,
                       topics: map<string, seq<Reference>>, f0: map<Path, string>, f1: map<Path, string>, f2: map<Path, string>,
                       f3: map<Path, string>, written: nat)
    requires NotesSoFar(y, observations, f0, f1, written) && HubsSoFar(y, Session, sessions, sessions.Keys, f1, f2)
    requires HubsSoFar(y, Topic, topics, topics.Keys, f2, f3)
    ensures GraphOk(y, mode, f3) <==> GraphOk(y, mode, f0)
  {
    assert Agree(f0, f1, Graph) && Agree(f1, f2, Graph) && Agree(f2, f3, Graph);
  }

  lemma StaleGrows(y: Style, kind: HubKind, hubs: map<string, seq<Reference>>, done: set<string>, key: string, files: map<Path, string>)
    requires key !in done
    ensures var stale := Enough(kind, hubs, key) && !Holds(files, Hub(kind, key), y.hub(kind, key, hubs[key]));
            |StaleHubs(y, kind, hubs, done + {key}, files)| == |StaleHubs(y, kind, hubs, done, files)| + if stale then 1 else 0
  {
    var (now, before) := (StaleHubs(y, kind, hubs, done + {key}, files), StaleHubs(y, kind, hubs, done, files));
    assert key !in before;
    if key in now {
      assert now == before + {key};
    } else {
      assert now == before;
    }
  }

  /** The hubs written so far are right, and only they changed. */
  ghost predicate HubsSoFar(y: Style, kind: HubKind, hubs: map<string, seq<Reference>>, done: set<string>,
                            before: map<Path, string>, after: map<Path, string>)
  {
    && (forall key | key in done && Enough(kind, hubs, key) :: Holds(after, Hub(kind, key), y.hub(kind, key, hubs[key])))
    && forall p: Path | !(p.Hub? && p.kind == kind && p.name in done && Enough(kind, hubs, p.name)) :: Agree(before, after, p)
  }

  /** Nothing an export does not plan to write has moved. */
  ghost predicate KeptUnplanned(y: Style, observations: seq<Observation>, a: map<Path, string>, b: map<Path, string>) {
    forall p: Path | !Planned(y, observations, p) :: Agree(a, b, p)
  }

  lemma KeptThrough(y: Style, observations: seq<Observation>, a: map<Path, string>, b: map<Path, string>, c: map<Path, string>)
    requires KeptUnplanned(y, observations, a, b) && KeptUnplanned(y, observations, b, c)
    ensures KeptUnplanned(y, observations, a, c)
  {
    forall p: Path | !Planned(y, observations, p) ensures Agree(a, c, p) {
      assert Agree(a, b, p) && Agree(b, c, p);
    }
  }

  lemma AfterNotes(y: Style, observations: seq<Observation>, a: map<Path, string>, b: map<Path, string>, written: nat)
    requires NotesSoFar(y, observations, a, b, written)
    ensures KeptUnplanned(y, observations, a, b)
    ensures NotesOk(y, observations, a) ==> written == 0 && b == a
  {
    if NotesOk(y, observations, a) {
      NothingStale(y, observations, a);
      forall p: Path ensures Agree(a, b, p) {
        if p.Note? && Planned(y, observations, p) {
          SameNote(y, observations, a, b, p.name);
        }
      }
      SameFiles(a, b);
    }
  }

  /** Two vaults that both hold every note as it should be agree on each of them. */
  lemma SameNote(y: Style, observations: seq<Observation>, a: map<Path, string>, b: map<Path, string>, name: string)
    requires NotesOk(y, observations, a) && NotesOk(y, observations, b) && Planned(y, observations, Note(name))
    ensures Agree(a, b, Note(name))
  {
    var i :| 0 <= i < |observations| && NameOf(y, observations[i]) == name;
    assert NoteOk(y, observations[i], a) && NoteOk(y, observations[i], b);
  }

  lemma GatheredEnough(y: Style, kind: HubKind, observations: seq<Observation>, hubs: map<string, seq<Reference>>, key: string)
    requires Gathered(y, kind, observations, hubs)
    ensures |References(y, kind, observations, key)| >= Threshold(kind) <==> Enough(kind, hubs, key)
    ensures key in hubs ==> References(y, kind, observations, key) == hubs[key]
  {
  }

  lemma AfterHubs(y: Style, kind: HubKind, observations: seq<Observation>, hubs: map<string, seq<Reference>>,
                  a: map<Path, string>, b: map<Path, string>)
    requires Gathered(y, kind, observations, hubs) && HubsSoFar(y, kind, hubs, hubs.Keys, a, b)
    ensures HubsOk(y, kind, observations, b) && KeptUnplanned(y, observations, a, b)
    ensures HubsOk(y, kind, observations, a) ==> StaleHubs(y, kind, hubs, hubs.Keys, a) == {} && b == a
    ensures forall p: Path | !p.Hub? || p.kind != kind :: Agree(a, b, p)
  {
    forall key ensures |References(y, kind, observations, key)| >= Threshold(kind) <==> Enough(kind, hubs, key)
               ensures key in hubs ==> References(y, kind, observations, key) == hubs[key]
    {
      GatheredEnough(y, kind, observations, hubs, key);
    }
    if HubsOk(y, kind, observations, a) {
      forall p: Path ensures Agree(a, b, p) {
        if p.Hub? && p.kind == kind && Enough(kind, hubs, p.name) {
          assert Holds(a, Hub(kind, p.name), y.hub(kind, p.name, hubs[p.name]));
        }
      }
      SameFiles(a, b);
    }
  }

  lemma SameFiles(a: map<Path, string>, b: map<Path, string>)
    requires forall p: Path :: Agree(a, b, p)
    ensures a == b
  {
    forall p: Path ensures p in a <==> p in b { assert Agree(a, b, p); }
    forall p: Path | p in a ensures a[p] == b[p] { assert Agree(a, b, p); }
  }

  lemma NotesStay(y: Style, observations: seq<Observation>, a: map<Path, string>, b: map<Path, string>)
    requires NotesOk(y, observations, a) && forall p: Path | p.Note? :: Agree(a, b, p)
    ensures NotesOk(y, observations, b)
  {
    forall i | 0 <= i < |observations| ensures NoteOk(y, observations[i], b) {
      assert NoteOk(y, observations[i], a);
      assert Agree(a, b, Note(NameOf(y, observations[i])));
    }
  }

  lemma HubsStay(y: Style, kind: HubKind, observations: seq<Observation>, a: map<Path, string>, b: map<Path, string>)
    requires HubsOk(y, kind, observations, a) && forall p: Path | p.Hub? && p.kind == kind :: Agree(a, b, p)
    ensures HubsOk(y, kind, observations, b)
  {
    forall key | |References(y, kind, observations, key)| >= Threshold(kind)
      ensures Holds(b, Hub(kind, key), y.hub(kind, key, References(y, kind, observations, key)))
    {
      assert Agree(a, b, Hub(kind, key));
    }
  }

  /** Hubs do not disturb notes, nor one kind of hub the other, nor the graph any of them. */
  lemma Settles(y: Style, observations: seq<Observation>, f1: map<Path, string>, f2: map<Path, string>, f3: map<Path, string>,
                f4: map<Path, string>)
    requires NotesOk(y, observations, f1) && HubsOk(y, Session, observations, f2) && HubsOk(y, Topic, observations, f3)
    requires forall p: Path | !p.Hub? || p.kind != Session :: Agree(f1, f2, p)
    requires forall p: Path | !p.Hub? || p.kind != Topic :: Agree(f2, f3, p)
    requires forall p: Path | p != Graph :: Agree(f3, f4, p)
    ensures UpToDate(y, observations, f4) && KeptUnplanned(y, observations, f3, f4)
  {
    NotesStay(y, observations, f1, f2);
    NotesStay(y, observations, f2, f3);
    NotesStay(y, observations, f3, f4);
    HubsStay(y, Session, observations, f2, f3);
    HubsStay(y, Session, observations, f3, f4);
    HubsStay(y, Topic, observations, f3, f4);
  }

  lemma NamesGrow(y: Style, observations: seq<Observation>, o: Observation)
    ensures forall n :: Planned(y, observations + [o], Note(n)) <==> Planned(y, observations, Note(n)) || n == NameOf(y, o)
  {
    var all := observations + [o];
    forall n ensures Planned(y, all, Note(n)) <==> Planned(y, observations, Note(n)) || n == NameOf(y, o) {
      assert all[|observations|] == o;
      if Planned(y, observations, Note(n)) {
        var i :| 0 <= i < |observations| && NameOf(y, observations[i]) == n;
        assert all[i] == observations[i];
      }
    }
  }
}
