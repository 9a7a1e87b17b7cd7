/** The exported vault of `src/obsidian.rs` on a file system that folds case, as the
    usual ones of Windows and macOS do. Every name an export makes is of ASCII
    characters, so folding is theirs. */
module CaseFolding {
  import opened Decimal
  import opened Export
  import opened Slug
  import opened Wrappers

  function FoldedChar(c: char): char { if 'A' <= c <= 'Z' then 'a' + (c - 'A') else c }

  function Fold(s: string): (r: string)
    ensures |r| == |s| && forall i | 0 <= i < |s| :: r[i] == FoldedChar(s[i])
  {
    seq(|s|, i requires 0 <= i < |s| => FoldedChar(s[i]))
  }

  predicate LowerCase(s: string) { forall i | 0 <= i < |s| :: !('A' <= s[i] <= 'Z') }

  lemma FoldsToItself(s: string)
    requires LowerCase(s)
    ensures Fold(s) == s
  {
  }

  lemma FoldJoins(a: string, b: string)
    ensures Fold(a + b) == Fold(a) + Fold(b)
  {
  }

  /** The same file under the name a file system that folds case knows it by. */
  function FoldPath(path: Path): Path {
    match path
    case Note(name) => Note(Fold(name))
    case Hub(kind, name) => Hub(kind, Fold(name))
    case Graph => Graph
  }

  lemma DirectoryIsLowerCase(path: Path)
    ensures LowerCase(Directory(path) + ['/'])
  {
  }

  lemma FoldBaseName(path: Path)
    ensures Fold(BaseName(path)) == BaseName(FoldPath(path))
  {
    if path.Graph? {
      FoldsToItself("graph.json");
    } else {
      FoldJoins(path.name, ".md");
      FoldsToItself(".md");
    }
  }

  lemma FoldLocated(path: Path)
    ensures Fold(Located(path)) == Located(FoldPath(path))
  {
    DirectoryIsLowerCase(path);
    FoldsToItself(Directory(path) + ['/']);
    FoldJoins(Directory(path) + ['/'], BaseName(path));
    FoldBaseName(path);
  }

  lemma FoldsToOneComponent(path: Path)
    requires OneComponent(path)
    ensures OneComponent(FoldPath(path))
  {
  }

  /** Two files an export plans are one to such a file system exactly when their kind and
      their folded names are. */
  lemma FoldedLocation(y: Style, observations: seq<Observation>, p: Path, q: Path)
    requires Planned(y, observations, p) && Planned(y, observations, q)
    ensures Fold(Located(p)) == Fold(Located(q)) <==> FoldPath(p) == FoldPath(q)
  {
    PlannedIsOneComponent(y, observations, p);
    PlannedIsOneComponent(y, observations, q);
    FoldsToOneComponent(p);
    FoldsToOneComponent(q);
    FoldLocated(p);
    FoldLocated(q);
    ComponentsApart(FoldPath(p), FoldPath(q));
  }

  /// Notes

  lemma SignedIsLowerCase(id: int)
    ensures LowerCase("-" + Signed(id))
  {
    var digits := Digits(if id < 0 then -id else id);
    forall i | 0 <= i < |digits| ensures !('A' <= digits[i] <= 'Z') {
      assert IsDigit(digits[i]);
    }
  }

  lemma FoldTail(stem: string, dash: string, number: string)
    requires LowerCase(dash + number)
    ensures Fold(stem + dash + number) == Fold(stem) + dash + number
  {
    FoldsToItself(dash + number);
    FoldJoins(stem, dash + number);
    assert stem + dash + number == stem + (dash + number);
    assert Fold(stem) + dash + number == Fold(stem) + (dash + number);
  }

  lemma FoldedApart(stem: string, id: int, other: string, otherId: int)
    requires stem != [] && stem[|stem| - 1] != '-' && other != [] && other[|other| - 1] != '-'
    requires Fold(stem + "-" + Signed(id)) == Fold(other + "-" + Signed(otherId))
    ensures id == otherId
  {
    SignedIsLowerCase(id);
    SignedIsLowerCase(otherId);
    FoldTail(stem, "-", Signed(id));
    FoldTail(other, "-", Signed(otherId));
    NamedApart(Fold(stem), id, Fold(other), otherId);
  }

  /** A note's name stays its own when it is folded: the identifier in it does not change. */
  lemma {:induction false} FoldedNoteNamesAreApart(title: string, id: int, other: string, otherId: int)
    requires Fold(NoteName(title, id)) == Fold(NoteName(other, otherId))
    ensures id == otherId
  {
    NoteStemEnds(title);
    NoteStemEnds(other);
    FoldedApart(NoteStem(title), id, NoteStem(other), otherId);
  }

  lemma FoldedNotesAreApart(y: Style, observations: seq<Observation>, m: string, n: string)
    requires UniqueIds(observations) && Planned(y, observations, Note(m)) && Planned(y, observations, Note(n)) && Fold(m) == Fold(n)
    ensures m == n
  {
    var i :| 0 <= i < |observations| && NameOf(y, observations[i]) == m;
    var j :| 0 <= j < |observations| && NameOf(y, observations[j]) == n;
    FoldedNoteNamesAreApart(y.lower(observations[i].title), observations[i].id, y.lower(observations[j].title), observations[j].id);
    assert i == j;
  }

  /// Hubs

  /** No two hubs of one kind differ in nothing but case. */
  ghost predicate HubsFoldApart(y: Style, observations: seq<Observation>) {
    forall kind, a, b | Planned(y, observations, Hub(kind, a)) && Planned(y, observations, Hub(kind, b)) && Fold(a) == Fold(b) :: a == b
  }

  /** No two files of the export are one to a file system that folds case. */
  ghost predicate FilesFoldApart(y: Style, observations: seq<Observation>) {
    forall p, q | Planned(y, observations, p) && Planned(y, observations, q) && Fold(Located(p)) == Fold(Located(q)) :: p == q
  }

  /** Where case is folded an export is still one file for each thing exactly when its
      hubs are: notes always are, and nothing else is in their way. */
  lemma FilesFoldApartIff(y: Style, observations: seq<Observation>)
    requires UniqueIds(observations)
    ensures FilesFoldApart(y, observations) <==> HubsFoldApart(y, observations)
  {
    if HubsFoldApart(y, observations) {
      forall p, q | Planned(y, observations, p) && Planned(y, observations, q) && Fold(Located(p)) == Fold(Located(q)) ensures p == q {
        FoldedLocation(y, observations, p, q);
        if p.Note? { FoldedNotesAreApart(y, observations, p.name, q.name); }
      }
    }
    if FilesFoldApart(y, observations) {
      forall kind, a, b | Planned(y, observations, Hub(kind, a)) && Planned(y, observations, Hub(kind, b)) && Fold(a) == Fold(b) ensures a == b {
        FoldedLocation(y, observations, Hub(kind, a), Hub(kind, b));
      }
    }
  }

  /** A session identifier that is its hub's name. */
  predicate SafeName(y: Style, session: string) {
    && !y.blank(session) && SafeText(session) && 0 < |session| <= MAX_SLUG_LENGTH
    && session[0] !in {'.', '-'} && session[|session| - 1] !in {'.', '-'}
  }

  /** Two sessions whose identifiers differ in case only: their hubs are one file. */
  lemma SessionsFoldTogether(y: Style, o: Observation, p: Observation)
    requires o.id != p.id && SafeName(y, o.session) && SafeName(y, p.session)
    requires o.session != p.session && Fold(o.session) == Fold(p.session)
    ensures UniqueIds([o, p]) && !FilesFoldApart(y, [o, p])
  {
    SafeAlready(o.session);
    SafeAlready(p.session);
    HubsOfTwo(y, o, p, o.session, p.session);
  }

  /** There are such. */
  lemma RunAndRun(y: Style)
    requires !y.blank("Run") && !y.blank("run")
    ensures SafeName(y, "Run") && SafeName(y, "run") && "Run" != "run" && Fold("Run") == Fold("run")
  {
    assert "Run"[0] == 'R' && "run"[0] == 'r';
    assert Fold("Run")[0] == 'r' && Fold("Run") == "run" && Fold("run") == "run";
  }

  lemma HubsOfTwo(y: Style, o: Observation, p: Observation, a: string, b: string)
    requires o.id != p.id && HubOf(y, Session, o) == Some(a) && HubOf(y, Session, p) == Some(b) && a != b && Fold(a) == Fold(b)
    ensures UniqueIds([o, p]) && !FilesFoldApart(y, [o, p])
  {
    assert [o, p][..1] == [o] && [o][..0] == [];
    assert Planned(y, [o, p], Hub(Session, a)) && Planned(y, [o, p], Hub(Session, b));
    FilesFoldApartIff(y, [o, p]);
  }

  lemma SafeAlready(value: string)
    requires SafeText(value) && 0 < |value| <= MAX_SLUG_LENGTH && value[0] !in {'.', '-'} && value[|value| - 1] !in {'.', '-'}
    ensures SafeComponent(value) == value
  {
    assert Replaced(value) == value;
  }
}
