/** Which projects are proposed for merging (`similar_project_groups` in
    `src/cli/projects.rs`). */
module Grouping {
  import Similar = FindSimilar
  import opened Sorting
  import opened Text

  const MAX_DISTANCE := 3

  datatype Project = Project(name: string, observations: int, directories: seq<string>)

  datatype Group = Group(canonical: string, sources: seq<string>)

  ghost predicate UniqueNames(stats: seq<Project>) {
    forall i, j | 0 <= i < j < |stats| :: stats[i].name != stats[j].name
  }

  /// Being related, said of two projects

  predicate Resembles(fold: string -> string, a: string, b: string) {
    Similar.Resembles(fold, a, b, MAX_DISTANCE)
  }

  /** Every directory of every project, as often as it is recorded. */
  function Mentions(stats: seq<Project>): multiset<string> {
    if stats == [] then multiset{}
    else Mentions(stats[..|stats| - 1]) + multiset(stats[|stats| - 1].directories)
  }

  /** Two projects, and nobody else, recorded one directory. */
  ghost predicate ShareADirectory(stats: seq<Project>, p: Project, q: Project) {
    exists d | d in p.directories :: d in q.directories && Mentions(stats)[d] == 2
  }

  ghost predicate Related(fold: string -> string, stats: seq<Project>, p: Project, q: Project) {
    && p.name != q.name
    && (Resembles(fold, p.name, q.name) || Resembles(fold, q.name, p.name) || ShareADirectory(stats, p, q))
  }

  lemma RelatedIsSymmetric(fold: string -> string, stats: seq<Project>, p: Project, q: Project)
    ensures Related(fold, stats, p, q) <==> Related(fold, stats, q, p)
  {
  }

  /** Biggest first, then by name. */
  predicate Precedes(p: Project, q: Project) {
    p.observations > q.observations || (p.observations == q.observations && Le(p.name, q.name))
  }

  predicate ByCanonical(g: Group, h: Group) { Le(g.canonical, h.canonical) }

  /// The groups, as a function of the projects alone

  function Names(stats: seq<Project>): (r: seq<string>)
    ensures |r| == |stats| && forall i | 0 <= i < |stats| :: r[i] == stats[i].name
  {
    seq(|stats|, i requires 0 <= i < |stats| => stats[i].name)
  }

  lemma NameOf(stats: seq<Project>, p: Project)
    requires p in stats
    ensures p.name in Names(stats)
  {
    var i :| 0 <= i < |stats| && stats[i] == p;
    assert Names(stats)[i] == p.name;
  }

  ghost function Taken(fold: string -> string, stats: seq<Project>, p: Project, claimed: set<string>): set<string> {
    set q | q in stats && Related(fold, stats, p, q) && q.name !in claimed :: q.name
  }

  /** The names of a set, sorted: the one sorted list of them. */
  ghost function Listed(names: seq<string>, chosen: set<string>): (r: seq<string>)
  {
    Keep(SortBy(Le, names), chosen)
  }

  ghost function Keep(names: seq<string>, chosen: set<string>): (r: seq<string>)
    ensures forall n :: n in r <==> n in names && n in chosen
  {
    if names == [] then []
    else
      assert names == [names[0]] + names[1..];
      if names[0] in chosen then [names[0]] + Keep(names[1..], chosen) else Keep(names[1..], chosen)
  }

  ghost function Cluster(fold: string -> string, stats: seq<Project>, order: seq<Project>, claimed: set<string>): seq<Group> {
    if order == [] then []
    else
      var p := order[0];
      var taken := Taken(fold, stats, p, claimed);
      if p.name in claimed || taken == {} then Cluster(fold, stats, order[1..], claimed)
      else [Group(p.name, Listed(Names(stats), taken))] + Cluster(fold, stats, order[1..], claimed + taken + {p.name})
  }

  ghost function Groups(fold: string -> string, stats: seq<Project>): seq<Group> {
    SortBy(ByCanonical, Cluster(fold, stats, SortBy(Precedes, stats), {}))
  }

  /// What the groups promise

  ghost predicate Member(g: Group, n: string) { n == g.canonical || n in g.sources }

  ghost predicate Claimed(groups: seq<Group>, n: string) {
    exists g | g in groups :: Member(g, n)
  }

  /** No project is in two groups. */
  ghost predicate Disjoint(groups: seq<Group>) {
    && Distinct(groups)
    && forall g, h, n | g in groups && h in groups && Member(g, n) && Member(h, n) :: g == h
  }

  /** A canonical with something to merge into it, each source listed once and
      in order. */
  ghost predicate WellFormed(g: Group) {
    g.sources != [] && g.canonical !in g.sources && Sorted(Le, g.sources) && Distinct(g.sources)
  }

  /** `s` is a source of a group: it is related to the canonical itself, and the
      canonical is bigger. */
  ghost predicate Justified(fold: string -> string, stats: seq<Project>, c: Project, s: Project) {
    Related(fold, stats, c, s) && Precedes(c, s)
  }

  ghost predicate AllJustified(fold: string -> string, stats: seq<Project>, groups: seq<Group>) {
    forall g, c, s | g in groups && c in stats && s in stats && c.name == g.canonical && s.name in g.sources ::
      Justified(fold, stats, c, s)
  }

  ghost predicate OfProjects(stats: seq<Project>, groups: seq<Group>) {
    forall g, n | g in groups && Member(g, n) :: n in Names(stats)
  }

  /** Of two related projects at least one is in some group. */
  ghost predicate Covers(fold: string -> string, stats: seq<Project>, groups: seq<Group>) {
    forall p, q | p in stats && q in stats && Related(fold, stats, p, q) ::
      Claimed(groups, p.name) || Claimed(groups, q.name)
  }

  /// The claim loop keeps them

  lemma {:induction false} KeepSorted(names: seq<string>, chosen: set<string>)
    requires Sorted(Le, names) && Distinct(names)
    ensures Sorted(Le, Keep(names, chosen)) && Distinct(Keep(names, chosen))
  {
    if names != [] {
      KeepSorted(names[1..], chosen);
      var rest := Keep(names[1..], chosen);
      forall k | 0 <= k < |rest| ensures Le(names[0], rest[k]) && names[0] != rest[k] {
        assert rest[k] in rest;
      }
    }
  }

  lemma ListedIsSorted(stats: seq<Project>, chosen: set<string>)
    requires UniqueNames(stats) && forall n | n in chosen :: n in Names(stats)
    ensures forall n :: n in Listed(Names(stats), chosen) <==> n in chosen
    ensures Sorted(Le, Listed(Names(stats), chosen)) && Distinct(Listed(Names(stats), chosen))
  {
    LeIsAnOrder();
    SortByIsSorted(Le, Names(stats));
    KeepSorted(SortBy(Le, Names(stats)), chosen);
  }

  /** What holds between two turns of the claim loop: whoever had a turn and is
      still free has nobody free to take. */
  ghost predicate Settled(fold: string -> string, stats: seq<Project>, done: seq<Project>, claimed: set<string>) {
    forall p, q | p in done && q in stats && Related(fold, stats, p, q) :: p.name in claimed || q.name in claimed
  }

  ghost predicate Turns(stats: seq<Project>, done: seq<Project>, order: seq<Project>) {
    && UniqueNames(stats)
    && Sorted(Precedes, done + order)
    && forall p :: p in stats <==> p in done + order
  }

  /** The head of the order takes only what comes after it, although the loop
      looks only at who is free. */
  lemma TakenComesLater(fold: string -> string, stats: seq<Project>, done: seq<Project>, order: seq<Project>,
                        claimed: set<string>, s: Project)
    requires Turns(stats, done, order) && Settled(fold, stats, done, claimed)
    requires order != [] && order[0].name !in claimed
    requires s in stats && s.name in Taken(fold, stats, order[0], claimed)
    ensures Justified(fold, stats, order[0], s)
  {
    var q :| q in stats && Related(fold, stats, order[0], q) && q.name !in claimed && q.name == s.name;
    assert q == s;
    assert s !in done by {
      RelatedIsSymmetric(fold, stats, order[0], s);
      assert order[0] in done + order;
    }
    var k :| 0 <= k < |done + order| && (done + order)[k] == s;
    assert (done + order)[|done|] == order[0];
  }

  ghost predicate Unclaimed(groups: seq<Group>, claimed: set<string>) {
    forall g, n | g in groups && Member(g, n) :: n !in claimed
  }

  ghost predicate Sound(fold: string -> string, stats: seq<Project>, groups: seq<Group>) {
    && Disjoint(groups)
    && (forall g | g in groups :: WellFormed(g))
    && OfProjects(stats, groups)
    && AllJustified(fold, stats, groups)
  }

  ghost predicate CoversRest(fold: string -> string, stats: seq<Project>, groups: seq<Group>, claimed: set<string>) {
    forall p, q | p in stats && q in stats && Related(fold, stats, p, q) ::
      p.name in claimed || q.name in claimed || Claimed(groups, p.name) || Claimed(groups, q.name)
  }

  lemma {:induction false} ClusterIsSound(fold: string -> string, stats: seq<Project>, done: seq<Project>,
                                          order: seq<Project>, claimed: set<string>)
    requires Turns(stats, done, order) && Settled(fold, stats, done, claimed)
    ensures Sound(fold, stats, Cluster(fold, stats, order, claimed))
    ensures Unclaimed(Cluster(fold, stats, order, claimed), claimed)
    ensures CoversRest(fold, stats, Cluster(fold, stats, order, claimed), claimed)
    decreases |order|
  {
    if order == [] {
      assert done + order == done;
    } else {
      var p := order[0];
      var taken := Taken(fold, stats, p, claimed);
      assert done + order == (done + [p]) + order[1..];
      assert p in done + order;
      if p.name in claimed || taken == {} {
        if p.name !in claimed {
          forall q | q in stats && Related(fold, stats, p, q) ensures q.name in claimed {
            assert q.name in claimed || q.name in taken;
          }
        }
        ClusterIsSound(fold, stats, done + [p], order[1..], claimed);
      } else {
        var after := claimed + taken + {p.name};
        ClusterIsSound(fold, stats, done + [p], order[1..], after);
        OneMoreGroup(fold, stats, done, order, claimed, Cluster(fold, stats, order[1..], after));
      }
    }
  }

  /** The group the head of the order makes. */
  ghost function HeadGroup(fold: string -> string, stats: seq<Project>, p: Project, claimed: set<string>): Group {
    Group(p.name, Listed(Names(stats), Taken(fold, stats, p, claimed)))
  }

  lemma HeadGroupIsWellFormed(fold: string -> string, stats: seq<Project>, p: Project, claimed: set<string>)
    requires UniqueNames(stats) && p in stats && Taken(fold, stats, p, claimed) != {}
    ensures WellFormed(HeadGroup(fold, stats, p, claimed))
    ensures forall n :: n in HeadGroup(fold, stats, p, claimed).sources <==> n in Taken(fold, stats, p, claimed)
    ensures OfProjects(stats, [HeadGroup(fold, stats, p, claimed)])
  {
    var taken := Taken(fold, stats, p, claimed);
    forall q | q in stats ensures q.name in Names(stats) {
      NameOf(stats, q);
    }
    ListedIsSorted(stats, taken);
    var n :| n in taken;
    assert n in HeadGroup(fold, stats, p, claimed).sources;
  }

  lemma SameName(stats: seq<Project>, p: Project, q: Project)
    requires UniqueNames(stats) && p in stats && q in stats && p.name == q.name
    ensures p == q
  {
  }

  lemma HeadGroupIsJustified(fold: string -> string, stats: seq<Project>, done: seq<Project>, order: seq<Project>,
                             claimed: set<string>)
    requires Turns(stats, done, order) && Settled(fold, stats, done, claimed)
    requires order != [] && order[0].name !in claimed && Taken(fold, stats, order[0], claimed) != {}
    ensures AllJustified(fold, stats, [HeadGroup(fold, stats, order[0], claimed)])
  {
    var p := order[0];
    assert p in done + order;
    var g := HeadGroup(fold, stats, p, claimed);
    HeadGroupIsWellFormed(fold, stats, p, claimed);
    forall h, c, s | h in [g] && c in stats && s in stats && c.name == h.canonical && s.name in h.sources
      ensures Justified(fold, stats, c, s)
    {
      SameName(stats, c, p);
      assert s.name in Taken(fold, stats, p, claimed);
      TakenComesLater(fold, stats, done, order, claimed, s);
    }
  }

  lemma ConsIsSound(fold: string -> string, stats: seq<Project>, g: Group, rest: seq<Group>)
    requires Sound(fold, stats, [g]) && Sound(fold, stats, rest)
    requires forall h, n | h in rest && Member(h, n) :: !Member(g, n)
    ensures Sound(fold, stats, [g] + rest)
  {
    var groups := [g] + rest;
    assert g !in rest by {
      assert Member(g, g.canonical);
    }
    assert g in [g] && forall i | 0 < i < |groups| :: groups[i] == rest[i - 1] && groups[i] in rest;
  }

  lemma OneMoreGroup(fold: string -> string, stats: seq<Project>, done: seq<Project>, order: seq<Project>,
                     claimed: set<string>, rest: seq<Group>)
    requires Turns(stats, done, order) && Settled(fold, stats, done, claimed)
    requires order != [] && order[0].name !in claimed && Taken(fold, stats, order[0], claimed) != {}
    requires Sound(fold, stats, rest)
    requires Unclaimed(rest, claimed + Taken(fold, stats, order[0], claimed) + {order[0].name})
    requires CoversRest(fold, stats, rest, claimed + Taken(fold, stats, order[0], claimed) + {order[0].name})
    ensures Sound(fold, stats, [HeadGroup(fold, stats, order[0], claimed)] + rest)
    ensures Unclaimed([HeadGroup(fold, stats, order[0], claimed)] + rest, claimed)
    ensures CoversRest(fold, stats, [HeadGroup(fold, stats, order[0], claimed)] + rest, claimed)
  {
    var p := order[0];
    var g := HeadGroup(fold, stats, p, claimed);
    assert p in done + order;
    HeadGroupIsWellFormed(fold, stats, p, claimed);
    HeadGroupIsJustified(fold, stats, done, order, claimed);
    ConsIsSound(fold, stats, g, rest);
    assert (set n | n in g.sources) == Taken(fold, stats, p, claimed);
    ConsCovers(fold, stats, g, rest, claimed);
  }

  lemma ConsCovers(fold: string -> string, stats: seq<Project>, g: Group, rest: seq<Group>, claimed: set<string>)
    requires CoversRest(fold, stats, rest, claimed + (set n | n in g.sources) + {g.canonical})
    ensures CoversRest(fold, stats, [g] + rest, claimed)
  {
    forall n | Member(g, n) || Claimed(rest, n) ensures Claimed([g] + rest, n) {
      if Member(g, n) {
        assert g in [g] + rest;
      } else {
        var h :| h in rest && Member(h, n);
        assert h in [g] + rest;
      }
    }
  }

  /** What the command proposes: disjoint groups, each source related to its
      canonical and smaller, and no related pair left apart without a reason. */
  lemma GroupsAreSound(fold: string -> string, stats: seq<Project>)
    requires UniqueNames(stats)
    ensures Sound(fold, stats, Groups(fold, stats))
    ensures Covers(fold, stats, Groups(fold, stats))
    ensures Sorted(ByCanonical, Groups(fold, stats))
  {
    LeIsAnOrder();
    var order := SortBy(Precedes, stats);
    SortByIsSorted(Precedes, stats);
    assert [] + order == order;
    ClusterIsSound(fold, stats, [], order, {});
    var cluster := Cluster(fold, stats, order, {});
    SortByIsSorted(ByCanonical, cluster);
    SameGroupsAreSound(fold, stats, cluster, Groups(fold, stats));
  }

  lemma {:induction false} CanonicalComesFrom(fold: string -> string, stats: seq<Project>, order: seq<Project>, claimed: set<string>, g: Group)
    requires g in Cluster(fold, stats, order, claimed)
    ensures exists p | p in order :: p.name == g.canonical && p.name !in claimed
    decreases |order|
  {
    var p := order[0];
    var taken := Taken(fold, stats, p, claimed);
    assert p in order && forall q | q in order[1..] :: q in order;
    if p.name in claimed || taken == {} {
      CanonicalComesFrom(fold, stats, order[1..], claimed, g);
    } else if g != HeadGroup(fold, stats, p, claimed) {
      CanonicalComesFrom(fold, stats, order[1..], claimed + taken + {p.name}, g);
    }
  }

  /** A group of a project that comes before `c` has this name. */
  ghost predicate TakenBefore(stats: seq<Project>, groups: seq<Group>, c: Project, n: string) {
    exists h, p | h in groups && p in stats :: h.canonical == p.name != c.name && Precedes(p, c) && Member(h, n)
  }

  lemma {:induction false} ClusterTakesAll(fold: string -> string, stats: seq<Project>, done: seq<Project>, order: seq<Project>,
                                           claimed: set<string>, g: Group, c: Project, q: Project)
    requires Turns(stats, done, order) && g in Cluster(fold, stats, order, claimed)
    requires c in stats && c.name == g.canonical && q in stats && Related(fold, stats, c, q)
    ensures q.name in g.sources || q.name in claimed || TakenBefore(stats, Cluster(fold, stats, order, claimed), c, q.name)
    decreases |order|
  {
    var p := order[0];
    var taken := Taken(fold, stats, p, claimed);
    assert done + order == (done + [p]) + order[1..] && p in done + order;
    if p.name in claimed || taken == {} {
      ClusterTakesAll(fold, stats, done + [p], order[1..], claimed, g, c, q);
    } else {
      var (head, after) := (HeadGroup(fold, stats, p, claimed), claimed + taken + {p.name});
      var rest := Cluster(fold, stats, order[1..], after);
      HeadGroupIsWellFormed(fold, stats, p, claimed);
      if g == head {
        SameName(stats, c, p);
      } else {
        CanonicalComesFrom(fold, stats, order[1..], after, g);
        HeadPrecedes(stats, done, order, c);
        ClusterTakesAll(fold, stats, done + [p], order[1..], after, g, c, q);
        assert q.name in after ==> q.name in claimed || Member(head, q.name);
        TakenStaysBefore(stats, head, rest, p, c, q.name);
      }
    }
  }

  lemma HeadPrecedes(stats: seq<Project>, done: seq<Project>, order: seq<Project>, c: Project)
    requires Turns(stats, done, order) && order != [] && c in stats && exists q | q in order[1..] :: q.name == c.name
    ensures Precedes(order[0], c)
  {
    var q :| q in order[1..] && q.name == c.name;
    var i :| 0 <= i < |order[1..]| && order[1..][i] == q;
    var all := done + order;
    assert all[|done| + 1 + i] == q && all[|done|] == order[0] && q in all;
    SameName(stats, c, q);
  }

  lemma TakenStaysBefore(stats: seq<Project>, head: Group, rest: seq<Group>, p: Project, c: Project, n: string)
    requires p in stats && head.canonical == p.name != c.name && Precedes(p, c)
    ensures Member(head, n) || TakenBefore(stats, rest, c, n) ==> TakenBefore(stats, [head] + rest, c, n)
  {
    assert head in [head] + rest && forall h | h in rest :: h in [head] + rest;
  }

  /** A canonical takes every project related to it, but for those that a bigger one has
      taken before: no other reason keeps a related project out of its group. */
  lemma {:induction false} CanonicalTakesAll(fold: string -> string, stats: seq<Project>, g: Group, c: Project, q: Project)
    requires UniqueNames(stats) && g in Groups(fold, stats) && c in stats && c.name == g.canonical
    requires q in stats && Related(fold, stats, c, q)
    ensures q.name in g.sources || TakenBefore(stats, Groups(fold, stats), c, q.name)
  {
    var (order, groups) := (SortBy(Precedes, stats), Groups(fold, stats));
    FirstTurn(stats, order);
    var cluster := Cluster(fold, stats, order, {});
    ClusterTakesAll(fold, stats, [], order, {}, g, c, q);
    SameTakenBefore(stats, cluster, groups, c, q.name);
  }

  lemma FirstTurn(stats: seq<Project>, order: seq<Project>)
    requires UniqueNames(stats) && order == SortBy(Precedes, stats)
    ensures Turns(stats, [], order)
  {
    LeIsAnOrder();
    SortByIsSorted(Precedes, stats);
    assert [] + order == order;
  }

  lemma SameTakenBefore(stats: seq<Project>, a: seq<Group>, b: seq<Group>, c: Project, n: string)
    requires forall g | g in a :: g in b
    ensures TakenBefore(stats, a, c, n) ==> TakenBefore(stats, b, c, n)
  {
  }

  /** Read by the names they would be merged under. */
  lemma GroupsAreInOrder(fold: string -> string, stats: seq<Project>, i: nat, j: nat)
    requires UniqueNames(stats) && i < j < |Groups(fold, stats)|
    ensures Le(Groups(fold, stats)[i].canonical, Groups(fold, stats)[j].canonical)
  {
    GroupsAreSound(fold, stats);
  }

  lemma SameGroupsAreSound(fold: string -> string, stats: seq<Project>, a: seq<Group>, b: seq<Group>)
    requires Sound(fold, stats, a) && CoversRest(fold, stats, a, {}) && (forall g :: g in a <==> g in b) && Distinct(b)
    ensures Sound(fold, stats, b) && Covers(fold, stats, b)
  {
    forall n ensures Claimed(a, n) ==> Claimed(b, n) {}
  }

  /// The groups do not depend on the order the projects were listed in

  lemma {:induction false} MentionsThen(read: seq<Project>, p: Project)
    ensures Mentions(read + [p]) == Mentions(read) + multiset(p.directories)
  {
    assert (read + [p])[..|read|] == read;
  }

  lemma {:induction false} MentionsOneMore(read: seq<Project>, p: Project, d: string)
    ensures Mentions(read + [p])[d] == Mentions(read)[d] + multiset(p.directories)[d]
  {
    MentionsThen(read, p);
  }

  lemma {:induction false} MentionsJoin(a: seq<Project>, b: seq<Project>, d: string)
    ensures Mentions(a + b)[d] == Mentions(a)[d] + Mentions(b)[d]
    decreases |b|
  {
    if b == [] {
      assert a + b == a;
    } else {
      var (front, last) := (b[..|b| - 1], b[|b| - 1]);
      LastOfJoined(a, b);
      MentionsJoin(a, front, d);
      MentionsOneMore(a + front, last, d);
      MentionsOneMore(front, last, d);
    }
  }

  lemma LastOfJoined(a: seq<Project>, b: seq<Project>)
    requires b != []
    ensures var (front, last) := (b[..|b| - 1], b[|b| - 1]); a + b == (a + front) + [last] && b == front + [last]
  {
  }

  lemma {:induction false} MentionsWithoutOne(before: seq<Project>, p: Project, after: seq<Project>, d: string)
    ensures Mentions(before + [p] + after)[d] == Mentions(before + after)[d] + multiset(p.directories)[d]
  {
    MentionsJoin(before + [p], after, d);
    MentionsOneMore(before, p, d);
    MentionsJoin(before, after, d);
  }

  lemma {:induction false} MentionsWithoutIn(before: seq<Project>, p: Project, after: seq<Project>)
    ensures Mentions(before + [p] + after) == Mentions(before + after) + multiset(p.directories)
  {
    var (all, rest) := (Mentions(before + [p] + after), Mentions(before + after));
    forall d ensures all[d] == rest[d] + multiset(p.directories)[d] {
      MentionsWithoutOne(before, p, after, d);
    }
  }

  lemma {:induction false} MentionsWithout(s: seq<Project>, k: nat)
    requires k < |s|
    ensures Mentions(s) == Mentions(s[..k] + s[k + 1..]) + multiset(s[k].directories)
  {
    assert s == s[..k] + [s[k]] + s[k + 1..];
    MentionsWithoutIn(s[..k], s[k], s[k + 1..]);
  }

  lemma Without(s: seq<Project>, k: nat)
    requires k < |s|
    ensures multiset(s[..k] + s[k + 1..]) == multiset(s) - multiset{s[k]}
  {
    assert s == s[..k] + [s[k]] + s[k + 1..];
  }

  lemma {:induction false} MentionsPermuted(s: seq<Project>, t: seq<Project>)
    requires multiset(s) == multiset(t)
    ensures Mentions(s) == Mentions(t)
    decreases |s|
  {
    if s == [] {
      assert |multiset(t)| == 0;
    } else {
      var n := |s| - 1;
      assert s[n] in multiset(t);
      var k :| 0 <= k < |t| && t[k] == s[n];
      MentionsWithout(t, k);
      assert multiset(s[..n]) == multiset(t[..k] + t[k + 1..]) by {
        Without(s, n);
        Without(t, k);
        assert s[..n] + s[n + 1..] == s[..n];
      }
      MentionsPermuted(s[..n], t[..k] + t[k + 1..]);
    }
  }

  lemma {:induction false} ClusterPermuted(fold: string -> string, s: seq<Project>, t: seq<Project>,
                                           order: seq<Project>, claimed: set<string>)
    requires Mentions(s) == Mentions(t) && (forall p :: p in s <==> p in t)
    requires SortBy(Le, Names(s)) == SortBy(Le, Names(t))
    ensures Cluster(fold, s, order, claimed) == Cluster(fold, t, order, claimed)
    decreases |order|
  {
    if order != [] {
      var p := order[0];
      var taken := Taken(fold, s, p, claimed);
      assert taken == Taken(fold, t, p, claimed);
      if p.name in claimed || taken == {} {
        ClusterPermuted(fold, s, t, order[1..], claimed);
      } else {
        ClusterPermuted(fold, s, t, order[1..], claimed + taken + {p.name});
      }
    }
  }

  lemma SortedPermuted<T(!new)>(le: (T, T) -> bool, s: seq<T>, t: seq<T>)
    requires TotalPreorder(le) && Antisymmetric(le, s) && Distinct(s) && Distinct(t)
    requires forall x :: x in s <==> x in t
    ensures SortBy(le, s) == SortBy(le, t)
  {
    SortByIsSorted(le, s);
    SortByIsSorted(le, t);
    SortedIsUnique(le, SortBy(le, s), SortBy(le, t));
  }

  lemma NamesWithin(s: seq<Project>, t: seq<Project>)
    requires forall p | p in s :: p in t
    ensures forall n | n in Names(s) :: n in Names(t)
  {
    forall n | n in Names(s) ensures n in Names(t) {
      var i :| 0 <= i < |s| && Names(s)[i] == n;
      NameOf(t, s[i]);
    }
  }

  lemma PrecedesIsAnOrder(stats: seq<Project>)
    requires UniqueNames(stats)
    ensures TotalPreorder(Precedes) && Antisymmetric(Precedes, stats)
  {
    LeIsAnOrder();
    forall p, q | p in stats && q in stats && Precedes(p, q) && Precedes(q, p) ensures p == q {
      LeAntisymmetric(p.name, q.name);
    }
  }

  lemma NamesPermuted(s: seq<Project>, t: seq<Project>)
    requires UniqueNames(s) && UniqueNames(t) && forall p :: p in s <==> p in t
    ensures SortBy(Le, Names(s)) == SortBy(Le, Names(t))
  {
    LeIsAnOrder();
    LeIsAntisymmetric(Names(s));
    NamesWithin(s, t);
    NamesWithin(t, s);
    SortedPermuted(Le, Names(s), Names(t));
  }

  /** Listing the same projects in another order proposes the same groups. */
  lemma OrderIndependent(fold: string -> string, s: seq<Project>, t: seq<Project>)
    requires UniqueNames(s) && multiset(s) == multiset(t)
    ensures Groups(fold, s) == Groups(fold, t)
  {
    UniqueNamesPermuted(s, t);
    MentionsPermuted(s, t);
    NamesPermuted(s, t);
    PrecedesIsAnOrder(s);
    SortedPermuted(Precedes, s, t);
    ClusterPermuted(fold, s, t, SortBy(Precedes, s), {});
  }

  lemma UniqueNamesPermuted(s: seq<Project>, t: seq<Project>)
    requires UniqueNames(s) && multiset(s) == multiset(t)
    ensures UniqueNames(t) && forall p :: p in s <==> p in t
  {
    PermutationKeeps(s, t);
    forall i, j | 0 <= i < j < |t| ensures t[i].name != t[j].name {
      assert t[i] in t && t[j] in t;
    }
  }

  /// The program

  type Relations = seq<set<nat>>

  ghost predicate Over(stats: seq<Project>, related: Relations) {
    |related| == |stats| && forall a | 0 <= a < |related| :: forall b | b in related[a] :: b < |stats|
  }

  /** Relates two projects both ways; a project is never related to itself. */
  function Relate(related: Relations, left: nat, right: nat): (r: Relations)
    requires left < |related| && right < |related|
    ensures |r| == |related|
    ensures forall a: nat, b: nat | a < |related| ::
              b in r[a] <==> b in related[a] || (left != right && ((a == left && b == right) || (a == right && b == left)))
  {
    if left == right then related
    else related[left := related[left] + {right}][right := related[right] + {left}]
  }

  ghost predicate Named(matches: seq<Similar.Match>, n: string) {
    exists m | m in matches :: m.name == n
  }

  /** `index` and a project among its matches: the pairs one row of matches relates. */
  ghost predicate Matched(stats: seq<Project>, index: nat, matches: seq<Similar.Match>, a: nat, b: nat)
    requires a < |stats| && b < |stats|
  {
    a != b && ((a == index && Named(matches, stats[b].name)) || (b == index && Named(matches, stats[a].name)))
  }

  method RelateMatches(stats: seq<Project>, index: nat, matches: seq<Similar.Match>, related: Relations)
    returns (r: Relations)
    requires UniqueNames(stats) && Over(stats, related) && index < |stats|
    ensures Over(stats, r)
    ensures forall a: nat, b: nat | a < |stats| && b < |stats| ::
              b in r[a] <==> b in related[a] || Matched(stats, index, matches, a, b)
  {
    r := related;
    assert matches[..0] == [];
    for k := 0 to |matches|
      invariant Over(stats, r)
      invariant forall a: nat, b: nat | a < |stats| && b < |stats| ::
                  b in r[a] <==> b in related[a] || Matched(stats, index, matches[..k], a, b)
    {
      var name := matches[k].name;
      var other := 0;
      while other < |stats| && stats[other].name != name
        invariant other <= |stats| && forall j | 0 <= j < other :: stats[j].name != name
      {
        other := other + 1;
      }
      assert matches[..k + 1] == matches[..k] + [matches[k]];
      forall n ensures Named(matches[..k + 1], n) <==> Named(matches[..k], n) || n == name {
        assert matches[k] in matches[..k + 1];
      }
      if other < |stats| {
        r := Relate(r, index, other);
      }
    }
    assert matches[..|matches|] == matches;
  }

  /** Two different projects, one of the first `read` of which resembles the other. */
  predicate ResembleSoFar(fold: string -> string, stats: seq<Project>, read: nat, a: nat, b: nat)
    requires a < |stats| && b < |stats|
  {
    a != b && ((a < read && Resembles(fold, stats[a].name, stats[b].name))
            || (b < read && Resembles(fold, stats[b].name, stats[a].name)))
  }

  lemma ResembleOneMore(fold: string -> string, stats: seq<Project>, index: nat, matches: seq<Similar.Match>, a: nat, b: nat)
    requires a < |stats| && b < |stats| && index < |stats|
    requires forall m :: m in matches <==> m.name in Names(stats) && Similar.Reports(fold, stats[index].name, MAX_DISTANCE, m)
    ensures ResembleSoFar(fold, stats, index + 1, a, b)
       <==> ResembleSoFar(fold, stats, index, a, b) || Matched(stats, index, matches, a, b)
  {
    NamedIffResembles(fold, stats[index].name, stats, matches, a);
    NamedIffResembles(fold, stats[index].name, stats, matches, b);
  }

  method RelateByName(fold: string -> string, stats: seq<Project>) returns (related: Relations)
    requires UniqueNames(stats)
    ensures Over(stats, related)
    ensures forall a: nat, b: nat | a < |stats| && b < |stats| ::
              b in related[a] <==> ResembleSoFar(fold, stats, |stats|, a, b)
  {
    related := seq(|stats|, _ => {});
    for index := 0 to |stats|
      invariant Over(stats, related)
      invariant forall a: nat, b: nat | a < |stats| && b < |stats| ::
                  b in related[a] <==> ResembleSoFar(fold, stats, index, a, b)
    {
      var matches := Similar.FindSimilar(fold, stats[index].name, Names(stats), MAX_DISTANCE);
      forall a: nat, b: nat | a < |stats| && b < |stats|
        ensures ResembleSoFar(fold, stats, index + 1, a, b)
           <==> ResembleSoFar(fold, stats, index, a, b) || Matched(stats, index, matches, a, b)
      {
        ResembleOneMore(fold, stats, index, matches, a, b);
      }
      related := RelateMatches(stats, index, matches, related);
    }
  }

  lemma NamedIffResembles(fold: string -> string, name: string, stats: seq<Project>, matches: seq<Similar.Match>, b: nat)
    requires b < |stats|
    requires forall m :: m in matches <==> m.name in Names(stats) && Similar.Reports(fold, name, MAX_DISTANCE, m)
    ensures Named(matches, stats[b].name) <==> Resembles(fold, name, stats[b].name)
  {
    var other := stats[b].name;
    if Resembles(fold, name, other) {
      assert other in Names(stats) by { assert Names(stats)[b] == other; }
      var m := if Similar.SameFolded(fold, name, other) then Similar.Match(other, Similar.CaseInsensitive, 0)
               else if Similar.Overlaps(fold, name, other) then Similar.Match(other, Similar.Substring, 0)
               else Similar.Match(other, Similar.Levenshtein, Similar.EditDistance.Dist(fold(name), fold(other)));
      assert m in matches;
    }
  }

  /** What one directory's entry holds: a project's index for each time it
      recorded the directory. */
  ghost predicate RecordedFor(stats: seq<Project>, d: string, indexes: seq<nat>) {
    && |indexes| == Mentions(stats)[d]
    && forall j: nat :: j in indexes <==> j < |stats| && d in stats[j].directories
  }

  function Entry(byDirectory: map<string, seq<nat>>, d: string): seq<nat> {
    if d in byDirectory then byDirectory[d] else []
  }

  ghost predicate Recorded(stats: seq<Project>, byDirectory: map<string, seq<nat>>) {
    forall d :: RecordedFor(stats, d, Entry(byDirectory, d))
  }

  /** `p` as it is when only its first `k` directories have been read. */
  function Read(p: Project, k: nat): Project
    requires k <= |p.directories|
  {
    p.(directories := p.directories[..k])
  }

  method ByDirectory(stats: seq<Project>) returns (byDirectory: map<string, seq<nat>>)
    ensures Recorded(stats, byDirectory)
  {
    byDirectory := map[];
    for index := 0 to |stats|
      invariant Recorded(stats[..index], byDirectory)
    {
      byDirectory := ReadDirectories(stats[..index], stats[index], byDirectory);
      assert stats[..index + 1] == stats[..index] + [stats[index]];
    }
    assert stats[..|stats|] == stats;
  }

  method ReadDirectories(read: seq<Project>, p: Project, byDirectory: map<string, seq<nat>>)
    returns (after: map<string, seq<nat>>)
    requires Recorded(read, byDirectory)
    ensures Recorded(read + [p], after)
  {
    after := byDirectory;
    RecordedNone(read, p, byDirectory);
    for k := 0 to |p.directories|
      invariant Recorded(read + [Read(p, k)], after)
    {
      var d := p.directories[k];
      RecordedOneMore(read, p, k, after);
      after := after[d := Entry(after, d) + [|read|]];
    }
    assert Read(p, |p.directories|) == p;
  }

  lemma RecordedNone(read: seq<Project>, p: Project, byDirectory: map<string, seq<nat>>)
    requires Recorded(read, byDirectory)
    ensures Recorded(read + [Read(p, 0)], byDirectory)
  {
    MentionsThen(read, Read(p, 0));
    forall d ensures RecordedFor(read + [Read(p, 0)], d, Entry(byDirectory, d)) {
      assert RecordedFor(read, d, Entry(byDirectory, d));
    }
  }

  lemma RecordedOneMore(read: seq<Project>, p: Project, k: nat, byDirectory: map<string, seq<nat>>)
    requires k < |p.directories| && Recorded(read + [Read(p, k)], byDirectory)
    ensures var d := p.directories[k];
            Recorded(read + [Read(p, k + 1)], byDirectory[d := Entry(byDirectory, d) + [|read|]])
  {
    var d := p.directories[k];
    var now := byDirectory[d := Entry(byDirectory, d) + [|read|]];
    forall e ensures RecordedFor(read + [Read(p, k + 1)], e, Entry(now, e)) {
      assert RecordedFor(read + [Read(p, k)], e, Entry(byDirectory, e));
      RecordedOne(read, p, k, e, Entry(byDirectory, e));
    }
  }

  lemma ReadOneMore(p: Project, k: nat, e: string)
    requires k < |p.directories|
    ensures var (was, now) := (Read(p, k).directories, Read(p, k + 1).directories);
            && (e in now <==> e in was || e == p.directories[k])
            && multiset(now)[e] == multiset(was)[e] + if e == p.directories[k] then 1 else 0
  {
    assert p.directories[..k + 1] == p.directories[..k] + [p.directories[k]];
  }

  lemma RecordedOne(read: seq<Project>, p: Project, k: nat, e: string, indexes: seq<nat>)
    requires k < |p.directories| && RecordedFor(read + [Read(p, k)], e, indexes)
    ensures RecordedFor(read + [Read(p, k + 1)], e, if e == p.directories[k] then indexes + [|read|] else indexes)
  {
    var (before, after) := (read + [Read(p, k)], read + [Read(p, k + 1)]);
    var now := if e == p.directories[k] then indexes + [|read|] else indexes;
    ReadOneMore(p, k, e);
    MentionsThen(read, Read(p, k));
    MentionsThen(read, Read(p, k + 1));
    assert |now| == Mentions(after)[e];
    forall j: nat ensures j in now <==> j < |after| && e in after[j].directories {
      assert j in now <==> j in indexes || (e == p.directories[k] && j == |read|);
      assert j < |read| ==> after[j] == before[j];
    }
  }

  method RelateByDirectory(stats: seq<Project>, byDirectory: map<string, seq<nat>>, related: Relations)
    returns (r: Relations)
    requires Recorded(stats, byDirectory) && Over(stats, related)
    ensures Over(stats, r)
    ensures forall a: nat, b: nat | a < |stats| && b < |stats| ::
              b in r[a] <==> b in related[a] || (a != b && ShareADirectory(stats, stats[a], stats[b]))
  {
    r := related;
    var keys := byDirectory.Keys;
    while keys != {}
      invariant keys <= byDirectory.Keys && Over(stats, r)
      invariant forall a: nat, b: nat | a < |stats| && b < |stats| ::
                  b in r[a] <==> b in related[a] || PairedBy(byDirectory, byDirectory.Keys - keys, a, b)
      decreases keys
    {
      var d :| d in keys;
      var indexes := byDirectory[d];
      ghost var read := byDirectory.Keys - keys;
      assert byDirectory.Keys - (keys - {d}) == read + {d};
      forall a: nat, b: nat
        ensures PairedBy(byDirectory, read + {d}, a, b) <==> PairedBy(byDirectory, read, a, b) || PairedBy(byDirectory, {d}, a, b)
      {
      }
      if |indexes| == 2 {
        assert RecordedFor(stats, d, Entry(byDirectory, d));
        assert indexes[0] in indexes && indexes[1] in indexes;
        r := Relate(r, indexes[0], indexes[1]);
      }
      keys := keys - {d};
    }
    forall a: nat, b: nat | a < |stats| && b < |stats|
      ensures PairedBy(byDirectory, byDirectory.Keys, a, b) <==> a != b && ShareADirectory(stats, stats[a], stats[b])
    {
      PairedIffShared(stats, byDirectory, a, b);
    }
  }

  /** Some directory among `read` was recorded twice, by `a` and by `b`. */
  ghost predicate PairedBy(byDirectory: map<string, seq<nat>>, read: set<string>, a: nat, b: nat) {
    a != b && exists d | d in read && d in byDirectory :: byDirectory[d] == [a, b] || byDirectory[d] == [b, a]
  }

  lemma PairedIffShared(stats: seq<Project>, byDirectory: map<string, seq<nat>>, a: nat, b: nat)
    requires Recorded(stats, byDirectory) && a < |stats| && b < |stats|
    ensures PairedBy(byDirectory, byDirectory.Keys, a, b) <==> a != b && ShareADirectory(stats, stats[a], stats[b])
  {
    if PairedBy(byDirectory, byDirectory.Keys, a, b) {
      var d :| d in byDirectory && (byDirectory[d] == [a, b] || byDirectory[d] == [b, a]);
      assert RecordedFor(stats, d, Entry(byDirectory, d));
      assert a in byDirectory[d] && b in byDirectory[d];
      assert d in stats[a].directories;
    }
    if a != b && ShareADirectory(stats, stats[a], stats[b]) {
      var d :| d in stats[a].directories && d in stats[b].directories && Mentions(stats)[d] == 2;
      var indexes := Entry(byDirectory, d);
      assert RecordedFor(stats, d, indexes);
      assert a in indexes && b in indexes;
      assert indexes == [indexes[0], indexes[1]];
    }
  }

  /** The names behind the flags the claim loop keeps. */
  ghost function ClaimedNames(stats: seq<Project>, claimed: seq<bool>): set<string>
    requires |claimed| == |stats|
  {
    set i | 0 <= i < |stats| && claimed[i] :: stats[i].name
  }

  function At(stats: seq<Project>, i: int): Project {
    if 0 <= i < |stats| then stats[i] else Project("", 0, [])
  }

  /** The projects an order of indexes visits. */
  function Visited(stats: seq<Project>, order: seq<int>): (r: seq<Project>)
    ensures |r| == |order| && forall k | 0 <= k < |order| :: r[k] == At(stats, order[k])
  {
    seq(|order|, k requires 0 <= k < |order| => At(stats, order[k]))
  }

  ghost predicate Permutes(order: seq<int>, n: nat) {
    Distinct(order) && forall i :: i in order <==> 0 <= i < n
  }

  function Indexes(n: nat): (r: seq<int>)
    ensures |r| == n && forall i | 0 <= i < n :: r[i] == i
  {
    seq(n, i => i)
  }

  lemma IndexesPermute(n: nat)
    ensures Permutes(Indexes(n), n)
  {
    forall i | 0 <= i < n ensures i in Indexes(n) {
      assert Indexes(n)[i] == i;
    }
  }

  method Order(stats: seq<Project>) returns (order: seq<int>)
    requires UniqueNames(stats)
    ensures forall k | 0 <= k < |order| :: 0 <= order[k] < |stats|
    ensures Visited(stats, order) == SortBy(Precedes, stats)
  {
    var before := (i: int, j: int) => Precedes(At(stats, i), At(stats, j));
    var indexes := Indexes(|stats|);
    IndexesPermute(|stats|);
    order := SortBy(before, indexes);
    PrecedesIsAnOrder(stats);
    SortByIsSorted(before, indexes);
    forall k | 0 <= k < |order| ensures 0 <= order[k] < |stats| {
      assert order[k] in order;
    }
    VisitedInOrder(stats, order);
  }

  lemma VisitsAll(stats: seq<Project>, order: seq<int>)
    requires UniqueNames(stats) && Permutes(order, |stats|)
    ensures Distinct(Visited(stats, order)) && forall p :: p in Visited(stats, order) <==> p in stats
  {
    assert forall k | 0 <= k < |order| :: order[k] in order;
    forall p | p in stats ensures p in Visited(stats, order) {
      var i :| 0 <= i < |stats| && stats[i] == p;
      assert i in order;
      var k :| 0 <= k < |order| && order[k] == i;
      assert Visited(stats, order)[k] == p;
    }
  }

  lemma VisitedInOrder(stats: seq<Project>, order: seq<int>)
    requires UniqueNames(stats) && Permutes(order, |stats|)
    requires Sorted((i, j) => Precedes(At(stats, i), At(stats, j)), order)
    ensures Visited(stats, order) == SortBy(Precedes, stats)
  {
    VisitsAll(stats, order);
    PrecedesIsAnOrder(stats);
    SortByIsSorted(Precedes, stats);
    SortedIsUnique(Precedes, Visited(stats, order), SortBy(Precedes, stats));
  }

  method Free(related: set<nat>, claimed: array<bool>) returns (taken: seq<nat>)
    ensures Distinct(taken) && forall k | 0 <= k < |taken| :: taken[k] < claimed.Length
    ensures forall o :: o in taken <==> o in related && o < claimed.Length && !claimed[o]
  {
    taken := [];
    for other := 0 to claimed.Length
      invariant Distinct(taken) && forall k | 0 <= k < |taken| :: taken[k] < other
      invariant forall o :: o in taken <==> o in related && o < other && !claimed[o]
    {
      if other in related && !claimed[other] {
        taken := taken + [other];
      }
    }
  }

  method Claim(stats: seq<Project>, taken: seq<nat>, claimed: array<bool>) returns (sources: seq<string>)
    requires UniqueNames(stats) && claimed.Length == |stats|
    requires Distinct(taken) && forall k | 0 <= k < |taken| :: taken[k] < |stats|
    modifies claimed
    ensures |sources| == |taken| && forall k | 0 <= k < |taken| :: sources[k] == stats[taken[k]].name
    ensures forall o | 0 <= o < |stats| :: claimed[o] <==> old(claimed[o]) || o in taken
  {
    sources := [];
    for k := 0 to |taken|
      invariant |sources| == k && forall l | 0 <= l < k :: sources[l] == stats[taken[l]].name
      invariant forall o | 0 <= o < |stats| :: claimed[o] <==> old(claimed[o]) || o in taken[..k]
    {
      claimed[taken[k]] := true;
      sources := sources + [stats[taken[k]].name];
    }
    assert taken[..|taken|] == taken;
  }

  ghost predicate Complete(fold: string -> string, stats: seq<Project>, related: Relations) {
    && Over(stats, related)
    && forall a: nat, b: nat | a < |stats| && b < |stats| :: b in related[a] <==> Related(fold, stats, stats[a], stats[b])
  }

  /** `taken` and `sources` are what one turn gathers, before they are sorted. */
  ghost predicate Gathered(stats: seq<Project>, related: set<nat>, claimed: seq<bool>, taken: seq<nat>, sources: seq<string>) {
    && Distinct(taken) && |sources| == |taken|
    && (forall o :: o in taken <==> o in related && o < |claimed| && !claimed[o])
    && forall k | 0 <= k < |taken| :: taken[k] < |stats| && sources[k] == stats[taken[k]].name
  }

  lemma GatheredAreTaken(fold: string -> string, stats: seq<Project>, related: Relations, index: nat,
                         claimed: seq<bool>, taken: seq<nat>, sources: seq<string>)
    requires UniqueNames(stats) && Complete(fold, stats, related) && index < |stats| == |claimed|
    requires Gathered(stats, related[index], claimed, taken, sources)
    ensures (set n | n in sources) == Taken(fold, stats, stats[index], ClaimedNames(stats, claimed))
  {
    var t := Taken(fold, stats, stats[index], ClaimedNames(stats, claimed));
    forall n | n in sources ensures n in t {
      var k :| 0 <= k < |taken| && sources[k] == n;
      SourceIsTaken(fold, stats, related, index, claimed, taken, sources, k);
    }
    forall n | n in t ensures n in sources {
      TakenIsSource(fold, stats, related, index, claimed, taken, sources, n);
    }
  }

  lemma SourceIsTaken(fold: string -> string, stats: seq<Project>, related: Relations, index: nat,
                      claimed: seq<bool>, taken: seq<nat>, sources: seq<string>, k: nat)
    requires UniqueNames(stats) && Complete(fold, stats, related) && index < |stats| == |claimed|
    requires Gathered(stats, related[index], claimed, taken, sources) && k < |taken|
    ensures sources[k] in Taken(fold, stats, stats[index], ClaimedNames(stats, claimed))
  {
    assert taken[k] in taken && stats[taken[k]] in stats;
    assert sources[k] !in ClaimedNames(stats, claimed);
  }

  lemma TakenIsSource(fold: string -> string, stats: seq<Project>, related: Relations, index: nat,
                      claimed: seq<bool>, taken: seq<nat>, sources: seq<string>, n: string)
    requires UniqueNames(stats) && Complete(fold, stats, related) && index < |stats| == |claimed|
    requires Gathered(stats, related[index], claimed, taken, sources)
    requires n in Taken(fold, stats, stats[index], ClaimedNames(stats, claimed))
    ensures n in sources
  {
    var q :| q in stats && Related(fold, stats, stats[index], q) && q.name == n && n !in ClaimedNames(stats, claimed);
    var o: nat :| o < |stats| && stats[o] == q;
    assert o in taken;
    var k :| 0 <= k < |taken| && taken[k] == o;
    assert sources[k] == n;
  }

  /** Sorting what a turn gathered lists it the way `Cluster` does. */
  lemma SortedIsListed(stats: seq<Project>, sources: seq<string>, chosen: set<string>)
    requires UniqueNames(stats) && Distinct(sources)
    requires forall n :: n in sources <==> n in chosen
    requires forall n | n in chosen :: n in Names(stats)
    ensures SortBy(Le, sources) == Listed(Names(stats), chosen)
  {
    ListedIsSorted(stats, chosen);
    LeIsAnOrder();
    LeIsAntisymmetric(SortBy(Le, sources));
    SortByIsSorted(Le, sources);
    SortedIsUnique(Le, SortBy(Le, sources), Listed(Names(stats), chosen));
  }

  /** Claims the related projects nobody has claimed yet. */
  method ClaimFree(stats: seq<Project>, related: set<nat>, claimed: array<bool>) returns (sources: seq<string>, ghost taken: seq<nat>)
    requires UniqueNames(stats) && claimed.Length == |stats|
    modifies claimed
    ensures Gathered(stats, related, old(claimed[..]), taken, sources)
    ensures forall o | 0 <= o < |stats| :: claimed[o] <==> old(claimed[o]) || o in taken
  {
    var free := Free(related, claimed);
    sources := Claim(stats, free, claimed);
    taken := free;
  }

  /** One turn of the claim loop, for a project nobody has claimed. */
  method TakeTurn(fold: string -> string, stats: seq<Project>, related: Relations, index: nat, claimed: array<bool>)
    returns (sources: seq<string>)
    requires UniqueNames(stats) && Complete(fold, stats, related)
    requires index < |stats| == claimed.Length
    modifies claimed
    ensures var before := ClaimedNames(stats, old(claimed[..]));
            var taken := Taken(fold, stats, stats[index], before);
            && sources == Listed(Names(stats), taken)
            && (sources == [] <==> taken == {})
            && ClaimedNames(stats, claimed[..]) == if taken == {} then before else before + taken + {stats[index].name}
  {
    ghost var before := claimed[..];
    ghost var taken;
    sources, taken := ClaimFree(stats, related[index], claimed);
    if sources == [] {
      TurnTaken(fold, stats, related, index, before, claimed[..], taken, sources);
      return;
    }
    claimed[index] := true;
    TurnTaken(fold, stats, related, index, before, claimed[..], taken, sources);
    sources := SortBy(Le, sources);
  }

  lemma TurnTaken(fold: string -> string, stats: seq<Project>, related: Relations, index: nat,
                  claimed: seq<bool>, after: seq<bool>, taken: seq<nat>, sources: seq<string>)
    requires UniqueNames(stats) && Complete(fold, stats, related) && index < |stats| == |claimed| == |after|
    requires Gathered(stats, related[index], claimed, taken, sources)
    requires forall o | 0 <= o < |stats| :: after[o] <==> claimed[o] || o in taken || (o == index && sources != [])
    ensures var (before, names) := (ClaimedNames(stats, claimed), Taken(fold, stats, stats[index], ClaimedNames(stats, claimed)));
            && SortBy(Le, sources) == Listed(Names(stats), names) && (sources == [] <==> names == {})
            && ClaimedNames(stats, after) == if names == {} then before else before + names + {stats[index].name}
  {
    SortedAreTaken(fold, stats, related, index, claimed, taken, sources);
    if sources == [] {
      assert after == claimed;
    } else {
      ClaimedNamesAfter(stats, claimed, after, index, taken, sources);
    }
  }

  lemma SortedAreTaken(fold: string -> string, stats: seq<Project>, related: Relations, index: nat,
                       claimed: seq<bool>, taken: seq<nat>, sources: seq<string>)
    requires UniqueNames(stats) && Complete(fold, stats, related) && index < |stats| == |claimed|
    requires Gathered(stats, related[index], claimed, taken, sources)
    ensures var names := Taken(fold, stats, stats[index], ClaimedNames(stats, claimed));
            && (set n | n in sources) == names && (sources == [] <==> names == {})
            && SortBy(Le, sources) == Listed(Names(stats), names)
  {
    GatheredAreTaken(fold, stats, related, index, claimed, taken, sources);
    forall q | q in stats ensures q.name in Names(stats) { NameOf(stats, q); }
    var names := Taken(fold, stats, stats[index], ClaimedNames(stats, claimed));
    assert forall n :: n in sources <==> n in (set x | x in sources);
    assert sources != [] ==> sources[0] in names;
    GatheredAreDistinct(stats, related[index], claimed, taken, sources);
    SortedIsListed(stats, sources, names);
  }

  lemma GatheredAreDistinct(stats: seq<Project>, related: set<nat>, claimed: seq<bool>, taken: seq<nat>, sources: seq<string>)
    requires UniqueNames(stats) && Gathered(stats, related, claimed, taken, sources)
    ensures Distinct(sources)
  {
  }

  /** After so many turns `groups` is a prefix of what `Cluster` makes, and it
      makes the rest from `claimed`. */
  ghost predicate Progress(fold: string -> string, stats: seq<Project>, turns: seq<Project>, turn: nat, groups: seq<Group>,
                           claimed: set<string>)
    requires turn <= |turns|
  {
    Cluster(fold, stats, turns, {}) == groups + Cluster(fold, stats, turns[turn..], claimed)
  }

  lemma ProgressTurn(fold: string -> string, stats: seq<Project>, turns: seq<Project>, turn: nat, groups: seq<Group>,
                     claimed: set<string>)
    requires turn < |turns| && Progress(fold, stats, turns, turn, groups, claimed)
    ensures var (p, taken) := (turns[turn], Taken(fold, stats, turns[turn], claimed));
            if p.name in claimed || taken == {} then Progress(fold, stats, turns, turn + 1, groups, claimed)
            else Progress(fold, stats, turns, turn + 1, groups + [HeadGroup(fold, stats, p, claimed)], claimed + taken + {p.name})
  {
    assert turns[turn..][1..] == turns[turn + 1..];
  }

  method ClaimGroups(fold: string -> string, stats: seq<Project>, related: Relations, order: seq<int>)
    returns (groups: seq<Group>)
    requires UniqueNames(stats) && Complete(fold, stats, related)
    requires forall k | 0 <= k < |order| :: 0 <= order[k] < |stats|
    ensures groups == Cluster(fold, stats, Visited(stats, order), {})
  {
    ghost var turns := Visited(stats, order);
    var claimed := new bool[|stats|](_ => false);
    groups := [];
    ghost var names := {};
    assert turns[0..] == turns;
    for turn := 0 to |order|
      invariant names == ClaimedNames(stats, claimed[..])
      invariant Progress(fold, stats, turns, turn, groups, names)
    {
      var index := order[turn];
      ProgressTurn(fold, stats, turns, turn, groups, names);
      assert claimed[index] <==> stats[index].name in names;
      if claimed[index] {
        continue;
      }
      var sources := TakeTurn(fold, stats, related, index, claimed);
      names := ClaimedNames(stats, claimed[..]);
      if sources == [] {
        continue;
      }
      groups := groups + [Group(stats[index].name, sources)];
    }
  }

  lemma ClaimedNamesAfter(stats: seq<Project>, before: seq<bool>, after: seq<bool>, index: nat, taken: seq<nat>,
                          sources: seq<string>)
    requires |before| == |after| == |stats| && index < |stats| && |taken| == |sources|
    requires forall k | 0 <= k < |taken| :: taken[k] < |stats| && sources[k] == stats[taken[k]].name
    requires forall o | 0 <= o < |stats| :: after[o] <==> before[o] || o in taken || o == index
    ensures ClaimedNames(stats, after) == ClaimedNames(stats, before) + (set n | n in sources) + {stats[index].name}
  {
  }

  /** `similar_project_groups`. */
  method SimilarProjectGroups(fold: string -> string, stats: seq<Project>) returns (groups: seq<Group>)
    requires UniqueNames(stats)
    ensures groups == Groups(fold, stats)
  {
    var related := RelateByName(fold, stats);
    var byDirectory := ByDirectory(stats);
    related := RelateByDirectory(stats, byDirectory, related);
    assert Complete(fold, stats, related);
    var order := Order(stats);
    groups := ClaimGroups(fold, stats, related, order);
    groups := SortBy(ByCanonical, groups);
  }

  /// Consolidating into one named project (`similar_projects`)

  function AsciiLetter(c: char): bool { 'a' <= c <= 'z' || 'A' <= c <= 'Z' }

  /** A complete path as some platform spells one (`is_absolute_spelling`);
      `trim` stands for the library's. */
  predicate AbsoluteSpelling(trim: string -> string, directory: string) {
    var value := trim(directory);
    || (value != [] && value[0] in ['/', '\\'])
    || (|value| >= 3 && AsciiLetter(value[0]) && value[1] == ':' && value[2] in ['/', '\\'])
  }

  predicate ShareAbsolute(trim: string -> string, directories: seq<string>, others: seq<string>) {
    exists d | d in others :: AbsoluteSpelling(trim, d) && d in directories
  }

  /** The directories of the project of that name, none if there is none. */
  function DirectoriesOf(stats: seq<Project>, name: string): seq<string> {
    if stats == [] then []
    else if stats[0].name == name then stats[0].directories
    else DirectoriesOf(stats[1..], name)
  }

  ghost predicate ListedFor(fold: string -> string, trim: string -> string, canonical: string, directories: seq<string>, q: Project) {
    && q.name != canonical
    && (Resembles(fold, canonical, q.name) || ShareAbsolute(trim, directories, q.directories))
  }

  /** The projects that share an absolute directory, in the order they are listed. */
  function Sharing(trim: string -> string, canonical: string, directories: seq<string>, stats: seq<Project>, listed: seq<string>): seq<string> {
    if stats == [] then []
    else
      var (front, entry) := (Sharing(trim, canonical, directories, stats[..|stats| - 1], listed), stats[|stats| - 1]);
      if entry.name != canonical && entry.name !in listed && ShareAbsolute(trim, directories, entry.directories)
      then front + [entry.name] else front
  }

  lemma {:induction false} SharingMembers(trim: string -> string, canonical: string, directories: seq<string>, stats: seq<Project>,
                                          listed: seq<string>, n: string)
    ensures n in Sharing(trim, canonical, directories, stats, listed) <==>
            exists q | q in stats :: q.name == n != canonical && n !in listed && ShareAbsolute(trim, directories, q.directories)
  {
    if stats != [] {
      var front := stats[..|stats| - 1];
      SharingMembers(trim, canonical, directories, front, listed, n);
      assert stats == front + [stats[|stats| - 1]];
    }
  }

  function MatchNames(matches: seq<Similar.Match>): (r: seq<string>)
    ensures |r| == |matches| && forall k | 0 <= k < |matches| :: r[k] == matches[k].name
  {
    seq(|matches|, k requires 0 <= k < |matches| => matches[k].name)
  }

  /** First the projects with similar names, as the search orders them, then those
      that share an absolute directory, as they are listed. */
  method SimilarProjects(fold: string -> string, trim: string -> string, canonical: string, stats: seq<Project>)
    returns (sources: seq<string>, ghost matches: seq<Similar.Match>)
    requires UniqueNames(stats)
    ensures forall m :: m in matches <==> m.name in Names(stats) && Similar.Reports(fold, canonical, MAX_DISTANCE, m)
    ensures Similar.AllInOrder(Names(stats), matches)
    ensures sources == MatchNames(matches) + Sharing(trim, canonical, DirectoriesOf(stats, canonical), stats, MatchNames(matches))
    ensures Distinct(sources)
    ensures forall n :: n in sources <==>
                        exists q | q in stats :: q.name == n && ListedFor(fold, trim, canonical, DirectoriesOf(stats, canonical), q)
  {
    var found := Similar.FindSimilar(fold, canonical, Names(stats), MAX_DISTANCE);
    matches := found;
    sources := MatchNames(found);
    var directories := DirectoriesOf(stats, canonical);
    ghost var resembling := sources;
    for i := 0 to |stats|
      invariant Distinct(sources)
      invariant sources == resembling + Sharing(trim, canonical, directories, stats[..i], resembling)
    {
      var entry := stats[i];
      assert stats[..i + 1][..i] == stats[..i];
      NotYetSharing(trim, canonical, directories, stats, i, resembling);
      if entry.name == canonical || entry.name in sources {
        continue;
      }
      if ShareAbsolute(trim, directories, entry.directories) {
        sources := sources + [entry.name];
      }
    }
    assert stats[..|stats|] == stats;
    forall n ensures n in sources <==> exists q | q in stats :: q.name == n && ListedFor(fold, trim, canonical, directories, q) {
      SharingMembers(trim, canonical, directories, stats, resembling, n);
      SourceIffListed(fold, trim, canonical, stats, matches, directories, n);
    }
  }

  lemma NotYetSharing(trim: string -> string, canonical: string, directories: seq<string>, stats: seq<Project>, i: nat, listed: seq<string>)
    requires UniqueNames(stats) && i < |stats|
    ensures stats[i].name !in Sharing(trim, canonical, directories, stats[..i], listed)
  {
    SharingMembers(trim, canonical, directories, stats[..i], listed, stats[i].name);
  }

  lemma SourceIffListed(fold: string -> string, trim: string -> string, canonical: string, stats: seq<Project>,
                        matches: seq<Similar.Match>, directories: seq<string>, n: string)
    requires UniqueNames(stats)
    requires forall m :: m in matches <==> m.name in Names(stats) && Similar.Reports(fold, canonical, MAX_DISTANCE, m)
    ensures n in MatchNames(matches)
            || (exists q | q in stats :: q.name == n != canonical && n !in MatchNames(matches) && ShareAbsolute(trim, directories, q.directories))
            <==> exists q | q in stats :: q.name == n && ListedFor(fold, trim, canonical, directories, q)
  {
    if n in MatchNames(matches) {
      var k :| 0 <= k < |matches| && matches[k].name == n;
      assert matches[k] in matches;
      var i :| 0 <= i < |stats| && Names(stats)[i] == n;
      MatchesListed(fold, canonical, stats, matches, MatchNames(matches), i);
      assert stats[i] in stats && ListedFor(fold, trim, canonical, directories, stats[i]);
    }
    forall q | q in stats && q.name == n ensures n in MatchNames(matches) <==> Resembles(fold, canonical, n) {
      var i :| 0 <= i < |stats| && stats[i] == q;
      MatchesListed(fold, canonical, stats, matches, MatchNames(matches), i);
    }
  }

  lemma MatchesListed(fold: string -> string, canonical: string, stats: seq<Project>, matches: seq<Similar.Match>,
                      sources: seq<string>, i: nat)
    requires i < |stats| && |sources| == |matches| && forall k | 0 <= k < |matches| :: sources[k] == matches[k].name
    requires forall m :: m in matches <==> m.name in Names(stats) && Similar.Reports(fold, canonical, MAX_DISTANCE, m)
    ensures stats[i].name in sources <==> Resembles(fold, canonical, stats[i].name)
  {
    NamedIffResembles(fold, canonical, stats, matches, i);
    assert stats[i].name in sources <==> Named(matches, stats[i].name);
  }

  /** Naming one project ignores a relative directory; grouping all of them does
      not. Two projects that share only relative directories are related exactly
      when one of those was recorded by the two and nobody else. */
  lemma RelativeDirectoriesStillRelate(fold: string -> string, trim: string -> string, stats: seq<Project>, p: Project, q: Project)
    requires p in stats && q in stats && p.name != q.name
    requires !Resembles(fold, p.name, q.name) && !Resembles(fold, q.name, p.name)
    requires forall d | d in p.directories && d in q.directories :: !AbsoluteSpelling(trim, d)
    ensures !ListedFor(fold, trim, p.name, p.directories, q)
    ensures Related(fold, stats, p, q) <==>
            exists d | d in p.directories :: d in q.directories && !AbsoluteSpelling(trim, d) && Mentions(stats)[d] == 2
  {
    if Related(fold, stats, p, q) {
      var d :| d in p.directories && d in q.directories && Mentions(stats)[d] == 2;
      assert !AbsoluteSpelling(trim, d);
    }
  }

  /** The two are in one group. */
  ghost predicate Together(groups: seq<Group>, m: string, n: string) {
    exists g | g in groups :: Member(g, m) && Member(g, n)
  }

  /** Nobody else is related to either of the two. */
  ghost predicate Alone(fold: string -> string, stats: seq<Project>, p: Project, q: Project) {
    forall r | r in stats && r.name != p.name && r.name != q.name :: !Related(fold, stats, p, r) && !Related(fold, stats, q, r)
  }

  /** A group with one of two such projects in it is the two of them. */
  lemma GroupOfTheTwo(fold: string -> string, stats: seq<Project>, p: Project, q: Project, g: Group)
    requires UniqueNames(stats) && p in stats && q in stats && p.name != q.name && Alone(fold, stats, p, q)
    requires WellFormed(g) && OfProjects(stats, [g]) && AllJustified(fold, stats, [g]) && Member(g, p.name)
    ensures Member(g, q.name) && Related(fold, stats, p, q)
  {
    assert g in [g] && g.sources[0] in g.sources;
    var c := ProjectNamed(stats, g, g.canonical);
    var s := ProjectNamed(stats, g, if p.name == g.canonical then g.sources[0] else p.name);
    assert Justified(fold, stats, c, s);
    RelatedIsSymmetric(fold, stats, c, s);
    if p.name == g.canonical {
      SameName(stats, p, c);
      OtherIsTheOther(fold, stats, p, q, s);
    } else {
      SameName(stats, p, s);
      OtherIsTheOther(fold, stats, p, q, c);
    }
  }

  lemma ProjectNamed(stats: seq<Project>, g: Group, n: string) returns (r: Project)
    requires OfProjects(stats, [g]) && Member(g, n)
    ensures r in stats && r.name == n
  {
    assert g in [g] && n in Names(stats);
    var i :| 0 <= i < |stats| && Names(stats)[i] == n;
    r := stats[i];
  }

  lemma OtherIsTheOther(fold: string -> string, stats: seq<Project>, p: Project, q: Project, r: Project)
    requires UniqueNames(stats) && q in stats && r in stats && Alone(fold, stats, p, q) && Related(fold, stats, p, r)
    ensures r == q
  {
    if r.name == q.name {
      SameName(stats, r, q);
    }
  }

  /** Two projects nobody else is related to are proposed for merging exactly when
      they are related. */
  lemma GroupedIffRelated(fold: string -> string, stats: seq<Project>, p: Project, q: Project)
    requires UniqueNames(stats) && p in stats && q in stats && p.name != q.name && Alone(fold, stats, p, q)
    ensures Together(Groups(fold, stats), p.name, q.name) <==> Related(fold, stats, p, q)
  {
    var groups := Groups(fold, stats);
    GroupsAreSound(fold, stats);
    forall g | g in groups ensures WellFormed(g) && OfProjects(stats, [g]) && AllJustified(fold, stats, [g]) {}
    if Together(groups, p.name, q.name) {
      var g :| g in groups && Member(g, p.name) && Member(g, q.name);
      GroupOfTheTwo(fold, stats, p, q, g);
    }
    if Related(fold, stats, p, q) {
      RelatedIsSymmetric(fold, stats, p, q);
      var n := if Claimed(groups, p.name) then p.name else q.name;
      var g :| g in groups && Member(g, n);
      if n == p.name {
        GroupOfTheTwo(fold, stats, p, q, g);
      } else {
        assert Alone(fold, stats, q, p);
        GroupOfTheTwo(fold, stats, q, p, g);
      }
    }
  }

  /** Naming one of two projects that share only relative directories never lists the
      other; grouping all projects proposes to merge the two exactly when one of those
      directories was recorded by the two and nobody else. */
  lemma RelativeDirectoriesStillGroup(fold: string -> string, trim: string -> string, stats: seq<Project>, p: Project, q: Project)
    requires UniqueNames(stats) && p in stats && q in stats && p.name != q.name && Alone(fold, stats, p, q)
    requires !Resembles(fold, p.name, q.name) && !Resembles(fold, q.name, p.name)
    requires forall d | d in p.directories && d in q.directories :: !AbsoluteSpelling(trim, d)
    ensures !ListedFor(fold, trim, p.name, p.directories, q) && !ListedFor(fold, trim, q.name, q.directories, p)
    ensures Together(Groups(fold, stats), p.name, q.name) <==>
            exists d | d in p.directories :: d in q.directories && !AbsoluteSpelling(trim, d) && Mentions(stats)[d] == 2
  {
    GroupedIffRelated(fold, stats, p, q);
    RelativeDirectoriesStillRelate(fold, trim, stats, p, q);
  }

  /** Whoever else is related to them: a project in a group resembles the one it is to be
      merged into or shares an absolute directory with it, and one of the two is listed
      when the other is named, whenever the directories the two alone recorded are
      absolute. */
  lemma AbsoluteDirectoriesAgree(fold: string -> string, trim: string -> string, stats: seq<Project>, g: Group, c: Project, s: Project)
    requires UniqueNames(stats) && c in stats && s in stats && g in Groups(fold, stats)
    requires c.name == g.canonical && s.name in g.sources
    requires forall d | d in c.directories && d in s.directories && Mentions(stats)[d] == 2 :: AbsoluteSpelling(trim, d)
    ensures Resembles(fold, c.name, s.name) || Resembles(fold, s.name, c.name) || ShareAbsolute(trim, c.directories, s.directories)
    ensures ListedFor(fold, trim, c.name, c.directories, s) || ListedFor(fold, trim, s.name, s.directories, c)
  {
    GroupsAreSound(fold, stats);
    assert Justified(fold, stats, c, s);
  }

  /** The case the test for the single form calls impossible, in the grouped form. */
  lemma DotMergesTwoProjects(fold: string -> string)
    ensures var stats := [Project("alpha-service", 10, ["."]), Project("omega-worker", 5, ["."])];
            Group("alpha-service", ["omega-worker"]) in Groups(fold, stats)
  {
    var a, o := Project("alpha-service", 10, ["."]), Project("omega-worker", 5, ["."]);
    assert a.name != o.name by { assert a.name[0] != o.name[0]; }
    MentionsThen([], a);
    MentionsThen([a], o);
    assert [] + [a] == [a] && [a] + [o] == [a, o];
    assert Mentions([a, o]) == multiset(["."]) + multiset(["."]);
    assert "." in a.directories && "." in o.directories;
    TwoRelatedMakeOneGroup(fold, a, o);
  }

  lemma TwoRelatedMakeOneGroup(fold: string -> string, a: Project, o: Project)
    requires Related(fold, [a, o], a, o) && a.observations > o.observations
    ensures Group(a.name, [o.name]) in Groups(fold, [a, o])
  {
    assert a in [a, o] && o in [a, o];
    var g := SomeGroup(fold, [a, o], a, o);
    OnlyGroupOfTwo(fold, a, o, g);
  }

  lemma SomeGroup(fold: string -> string, stats: seq<Project>, p: Project, q: Project) returns (g: Group)
    requires UniqueNames(stats) && p in stats && q in stats && Related(fold, stats, p, q)
    ensures g in Groups(fold, stats)
    ensures WellFormed(g) && OfProjects(stats, [g]) && AllJustified(fold, stats, [g])
  {
    GroupsAreSound(fold, stats);
    var groups := Groups(fold, stats);
    var n := if Claimed(groups, p.name) then p.name else q.name;
    assert Claimed(groups, n);
    g :| g in groups && Member(g, n);
  }

  lemma OnlyGroupOfTwo(fold: string -> string, a: Project, o: Project, g: Group)
    requires a.name != o.name && a.observations > o.observations
    requires WellFormed(g) && OfProjects([a, o], [g]) && AllJustified(fold, [a, o], [g])
    ensures g == Group(a.name, [o.name])
  {
    assert Names([a, o]) == [a.name, o.name];
    assert g in [g] && a in [a, o] && o in [a, o];
    assert Member(g, g.canonical);
    forall k | 0 <= k < |g.sources| ensures g.sources[k] in [a.name, o.name] && g.sources[k] != g.canonical {
      assert g.sources[k] in g.sources && Member(g, g.sources[k]);
    }
    assert g.sources[0] in g.sources;
    var (c, s) := if g.canonical == a.name then (a, o) else (o, a);
    CanonicalPrecedes(fold, [a, o], g, c, s);
    OnlyOne(g.sources, s.name);
  }

  lemma CanonicalPrecedes(fold: string -> string, stats: seq<Project>, g: Group, c: Project, s: Project)
    requires AllJustified(fold, stats, [g]) && c in stats && s in stats && c.name == g.canonical && s.name in g.sources
    ensures Precedes(c, s)
  {
    assert g in [g];
    assert Justified(fold, stats, c, s);
  }

  lemma OnlyOne(s: seq<string>, x: string)
    requires Distinct(s) && s != [] && forall k | 0 <= k < |s| :: s[k] == x
    ensures s == [x]
  {
    OnceEach(s, x);
    AllOfThem(s, x);
  }

  lemma {:induction false} AllOfThem(s: seq<string>, x: string)
    requires forall k | 0 <= k < |s| :: s[k] == x
    ensures multiset(s)[x] == |s|
  {
    if s != [] {
      AllOfThem(s[1..], x);
      assert s == [s[0]] + s[1..];
    }
  }
}
