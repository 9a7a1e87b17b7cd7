/** Which existing project names resemble a name (`find_similar` in
    `src/project.rs`).

    `fold` stands for the library's `trim().to_lowercase()`; nothing below
    depends on what it does. */
module FindSimilar {
  import EditDistance
  import opened Math
  import opened Sorting
  import opened Text

  datatype Kind = CaseInsensitive | Substring | Levenshtein
  {
    function Rank(): nat {
      match this
      case CaseInsensitive => 0
      case Substring => 1
      case Levenshtein => 2
    }
  }

  datatype Match = Match(name: string, kind: Kind, distance: nat)

  function EffectiveMax(lowered: string, maxDistance: nat): nat {
    Min(maxDistance, Max(|lowered| / 2, 1))
  }

  /// The three ways of resembling, each for itself

  predicate SameFolded(fold: string -> string, name: string, candidate: string) {
    fold(candidate) == fold(name)
  }

  predicate Overlaps(fold: string -> string, name: string, candidate: string) {
    |fold(name)| >= 3 && (Contains(fold(candidate), fold(name)) || Contains(fold(name), fold(candidate)))
  }

  predicate Near(fold: string -> string, name: string, candidate: string, maxDistance: nat) {
    EditDistance.Dist(fold(name), fold(candidate)) <= EffectiveMax(fold(name), maxDistance)
  }

  predicate Resembles(fold: string -> string, name: string, candidate: string, maxDistance: nat) {
    && candidate != name
    && (SameFolded(fold, name, candidate) || Overlaps(fold, name, candidate) || Near(fold, name, candidate, maxDistance))
  }

  /** `m` reports a resembling name under the first way it resembles. */
  predicate Reports(fold: string -> string, name: string, maxDistance: nat, m: Match) {
    && Resembles(fold, name, m.name, maxDistance)
    && (m.kind == CaseInsensitive <==> SameFolded(fold, name, m.name))
    && (m.kind == Substring <==> !SameFolded(fold, name, m.name) && Overlaps(fold, name, m.name))
    && m.distance == if m.kind == Levenshtein then EditDistance.Dist(fold(name), fold(m.name)) else 0
  }

  /** `b` is a part of `a`. */
  ghost predicate HasPart(a: string, b: string) { exists i, j | 0 <= i <= j <= |a| :: a[i..j] == b }

  lemma ContainsIff(a: string, b: string)
    ensures Contains(a, b) <==> HasPart(a, b)
  {
    if Contains(a, b) {
      var i :| 0 <= i <= |a| && b <= a[i..];
      assert a[i..i + |b|] == b;
    }
    if HasPart(a, b) {
      var i, j :| 0 <= i <= j <= |a| && a[i..j] == b;
      assert b <= a[i..];
    }
  }

  /** What a report says, from the names alone: equal once folded; else, for a folded name
      of three characters or more, one a part of the other; else, within the distance
      allowed, and when more than one apart then by at most half the name's length. */
  lemma ReportsIff(fold: string -> string, name: string, maxDistance: nat, m: Match)
    ensures var (n, c) := (fold(name), fold(m.name));
            var part := |n| >= 3 && (HasPart(c, n) || HasPart(n, c));
            Reports(fold, name, maxDistance, m) <==>
              && m.name != name
              && match m.kind
                 case CaseInsensitive => c == n && m.distance == 0
                 case Substring => c != n && part && m.distance == 0
                 case Levenshtein =>
                   && c != n && !part && m.distance == EditDistance.Dist(n, c) <= maxDistance
                   && (m.distance <= 1 || 2 * m.distance <= |n|)
  {
    ContainsIff(fold(m.name), fold(name));
    ContainsIff(fold(name), fold(m.name));
    assert m.kind == CaseInsensitive || m.kind == Substring || m.kind == Levenshtein;
  }

  /** Nearest first, and by name between names equally near. */
  predicate Nearer(a: Match, b: Match) {
    a.distance < b.distance || (a.distance == b.distance && Le(a.name, b.name))
  }

  lemma NearerIsAPreorder()
    ensures TotalPreorder(Nearer)
  {
    LeIsAnOrder();
  }

  /** `a` is first met in `existing` before `b` is. */
  ghost predicate MetBefore(existing: seq<string>, a: string, b: string) {
    exists i | 0 <= i < |existing| :: existing[i] == a && b !in existing[..i + 1]
  }

  /** The order of the answer: the classes in turn, the first two in the order
      the names are met, the third nearest first. */
  ghost predicate InOrder(existing: seq<string>, a: Match, b: Match) {
    && a.kind.Rank() <= b.kind.Rank()
    && (a.kind == b.kind != Levenshtein ==> MetBefore(existing, a.name, b.name))
    && (a.kind == b.kind == Levenshtein ==> Nearer(a, b))
  }

  ghost predicate AllInOrder(existing: seq<string>, s: seq<Match>) {
    forall i, j | 0 <= i < j < |s| :: s[i].name != s[j].name && InOrder(existing, s[i], s[j])
  }

  /** What one of the three vectors holds once `existing` has been read. */
  ghost predicate Collected(fold: string -> string, name: string, maxDistance: nat,
                            existing: seq<string>, kind: Kind, s: seq<Match>)
  {
    && (forall m :: m in s <==> m.kind == kind && m.name in existing && Reports(fold, name, maxDistance, m))
    && (forall i, j | 0 <= i < j < |s| :: MetBefore(existing, s[i].name, s[j].name))
  }

  lemma CollectedSkips(fold: string -> string, name: string, maxDistance: nat,
                       existing: seq<string>, candidate: string, kind: Kind, s: seq<Match>)
    requires Collected(fold, name, maxDistance, existing, kind, s)
    requires candidate in existing
          || forall m: Match | m.name == candidate && m.kind == kind :: !Reports(fold, name, maxDistance, m)
    ensures Collected(fold, name, maxDistance, existing + [candidate], kind, s)
  {
    forall i, j | 0 <= i < j < |s|
      ensures MetBefore(existing + [candidate], s[i].name, s[j].name)
    {
      MetBeforeStays(existing, s[i].name, s[j].name, candidate);
    }
  }

  lemma MetBeforeStays(existing: seq<string>, a: string, b: string, more: string)
    requires MetBefore(existing, a, b)
    ensures MetBefore(existing + [more], a, b)
  {
    var k :| 0 <= k < |existing| && existing[k] == a && b !in existing[..k + 1];
    assert (existing + [more])[..k + 1] == existing[..k + 1];
  }

  lemma CollectedTakes(fold: string -> string, name: string, maxDistance: nat,
                       existing: seq<string>, m: Match, s: seq<Match>)
    requires Collected(fold, name, maxDistance, existing, m.kind, s)
    requires m.name !in existing && Reports(fold, name, maxDistance, m)
    ensures Collected(fold, name, maxDistance, existing + [m.name], m.kind, s + [m])
  {
    var after := existing + [m.name];
    forall i, j | 0 <= i < j < |s| + 1
      ensures MetBefore(after, (s + [m])[i].name, (s + [m])[j].name)
    {
      if j < |s| {
        MetBeforeStays(existing, s[i].name, s[j].name, m.name);
      } else {
        assert s[i] in s;
        var k :| 0 <= k < |existing| && existing[k] == s[i].name;
        assert after[..k + 1] == existing[..k + 1] && after[k] == s[i].name;
      }
    }
  }

  /** The order of an answer, spelled out. */
  lemma InOrderMeans(existing: seq<string>, s: seq<Match>, i: nat, j: nat)
    requires AllInOrder(existing, s) && i < j < |s|
    ensures s[j].kind == CaseInsensitive ==> s[i].kind == CaseInsensitive
    ensures s[j].kind == Substring ==> s[i].kind != Levenshtein
    ensures s[i].kind == s[j].kind == Levenshtein ==>
              s[i].distance < s[j].distance || (s[i].distance == s[j].distance && Le(s[i].name, s[j].name))
    ensures s[i].kind == s[j].kind != Levenshtein ==>
              exists k | 0 <= k < |existing| :: existing[k] == s[i].name && s[j].name !in existing[..k + 1]
  {
  }

  /** Sound and complete: exactly the resembling names, each once, each under
      its first class, in the order of `InOrder`. */
  method FindSimilar(fold: string -> string, name: string, existing: seq<string>, maxDistance: nat)
    returns (matches: seq<Match>)
    ensures forall m :: m in matches <==> m.name in existing && Reports(fold, name, maxDistance, m)
    ensures AllInOrder(existing, matches)
  {
    var lowered := fold(name);
    var effectiveMax := EffectiveMax(lowered, maxDistance);
    var caseMatches: seq<Match>, substringMatches: seq<Match>, distanceMatches: seq<Match> := [], [], [];
    var seen: set<string> := {};
    for i := 0 to |existing|
      invariant forall c :: c in seen <==> c in existing[..i] && c != name
      invariant Collected(fold, name, maxDistance, existing[..i], CaseInsensitive, caseMatches)
      invariant Collected(fold, name, maxDistance, existing[..i], Substring, substringMatches)
      invariant Collected(fold, name, maxDistance, existing[..i], Levenshtein, distanceMatches)
    {
      var candidate := existing[i];
      ghost var before := existing[..i];
      assert existing[..i + 1] == before + [candidate];
      if candidate == name || candidate in seen {
        CollectedSkips(fold, name, maxDistance, before, candidate, CaseInsensitive, caseMatches);
        CollectedSkips(fold, name, maxDistance, before, candidate, Substring, substringMatches);
        CollectedSkips(fold, name, maxDistance, before, candidate, Levenshtein, distanceMatches);
        continue;
      }
      seen := seen + {candidate};
      var candidateLowered := fold(candidate);
      if candidateLowered == lowered {
        CollectedTakes(fold, name, maxDistance, before, Match(candidate, CaseInsensitive, 0), caseMatches);
        CollectedSkips(fold, name, maxDistance, before, candidate, Substring, substringMatches);
        CollectedSkips(fold, name, maxDistance, before, candidate, Levenshtein, distanceMatches);
        caseMatches := caseMatches + [Match(candidate, CaseInsensitive, 0)];
        continue;
      }
      CollectedSkips(fold, name, maxDistance, before, candidate, CaseInsensitive, caseMatches);
      if |lowered| >= 3 && (Contains(candidateLowered, lowered) || Contains(lowered, candidateLowered)) {
        CollectedTakes(fold, name, maxDistance, before, Match(candidate, Substring, 0), substringMatches);
        CollectedSkips(fold, name, maxDistance, before, candidate, Levenshtein, distanceMatches);
        substringMatches := substringMatches + [Match(candidate, Substring, 0)];
        continue;
      }
      CollectedSkips(fold, name, maxDistance, before, candidate, Substring, substringMatches);
      var distance := EditDistance.Levenshtein(lowered, candidateLowered);
      if distance <= effectiveMax {
        CollectedTakes(fold, name, maxDistance, before, Match(candidate, Levenshtein, distance), distanceMatches);
        distanceMatches := distanceMatches + [Match(candidate, Levenshtein, distance)];
      } else {
        CollectedSkips(fold, name, maxDistance, before, candidate, Levenshtein, distanceMatches);
      }
    }
    assert existing[..|existing|] == existing;
    var sorted := SortBy(Nearer, distanceMatches);
    NearerIsAPreorder();
    SortByIsSorted(Nearer, distanceMatches);
    Concatenated(existing, caseMatches, substringMatches, distanceMatches, sorted);
    matches := caseMatches + substringMatches + sorted;
  }

  lemma Concatenated(existing: seq<string>, cases: seq<Match>, substrings: seq<Match>, distances: seq<Match>,
                     sorted: seq<Match>)
    requires forall i, j | 0 <= i < j < |cases| :: MetBefore(existing, cases[i].name, cases[j].name)
    requires forall i, j | 0 <= i < j < |substrings| :: MetBefore(existing, substrings[i].name, substrings[j].name)
    requires forall i, j | 0 <= i < j < |distances| :: MetBefore(existing, distances[i].name, distances[j].name)
    requires Sorted(Nearer, sorted) && (Distinct(distances) ==> Distinct(sorted))
    requires forall m :: m in sorted <==> m in distances
    requires forall m | m in cases :: m.kind == CaseInsensitive
    requires forall m | m in substrings :: m.kind == Substring
    requires forall m | m in distances :: m.kind == Levenshtein
    requires forall m, n | m in cases + substrings + distances && n in cases + substrings + distances && m.name == n.name :: m == n
    ensures AllInOrder(existing, cases + substrings + sorted)
  {
    var s := cases + substrings + sorted;
    forall a, b | MetBefore(existing, a, b) ensures a != b {
      var k :| 0 <= k < |existing| && existing[k] == a && b !in existing[..k + 1];
      assert existing[..k + 1][k] == a;
    }
    assert Distinct(distances);
    forall i, j | 0 <= i < j < |s|
      ensures s[i].name != s[j].name && InOrder(existing, s[i], s[j])
    {
      assert s[i] in s && s[j] in s;
      var p, q := |cases|, |cases| + |substrings|;
      if j < p {
        assert s[i] == cases[i] && s[j] == cases[j];
      } else if i >= q {
        assert s[i] == sorted[i - q] && s[j] == sorted[j - q];
      } else if p <= i && j < q {
        assert s[i] == substrings[i - p] && s[j] == substrings[j - p];
      }
    }
  }

  lemma MetBeforeIsAsymmetric(existing: seq<string>, a: string, b: string)
    requires MetBefore(existing, a, b)
    ensures a != b && !MetBefore(existing, b, a)
  {
    var i :| 0 <= i < |existing| && existing[i] == a && b !in existing[..i + 1];
    assert existing[..i + 1][i] == a;
  }

  /** The contract of `FindSimilar` leaves one answer only. */
  lemma AnswerIsDetermined(fold: string -> string, name: string, existing: seq<string>, maxDistance: nat,
                           s: seq<Match>, t: seq<Match>)
    requires forall m :: m in s <==> m.name in existing && Reports(fold, name, maxDistance, m)
    requires forall m :: m in t <==> m.name in existing && Reports(fold, name, maxDistance, m)
    requires AllInOrder(existing, s) && AllInOrder(existing, t)
    ensures s == t
  {
    var le := (a, b) => InOrder(existing, a, b);
    forall a, b | a in s && b in s && le(a, b) && le(b, a) ensures a == b {
      if a.kind == Levenshtein {
        LeAntisymmetric(a.name, b.name);
      } else if MetBefore(existing, a.name, b.name) {
        MetBeforeIsAsymmetric(existing, a.name, b.name);
      }
    }
    SortedIsUnique(le, s, t);
  }
}
