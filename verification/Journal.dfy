/** The two halves of replication as data: the log a client pulls and the queue
    it pushes (`src/store/replication.rs`, and the paging of
    `src/cloud/cloudstore/mod.rs`). */
module Journal {

  const MIN_NUMBER := -0x8000_0000_0000_0000
  const MAX_NUMBER := 0x7FFF_FFFF_FFFF_FFFF

  /** A sequence number on the wire: a signed 64-bit integer. */
  type Number = s: int | MIN_NUMBER <= s <= MAX_NUMBER

  datatype Mutation = Mutation(number: Number, body: string)

  ghost predicate Ascending(log: seq<Mutation>) {
    forall i, j | 0 <= i < j < |log| :: log[i].number < log[j].number
  }

  /// The log

  /** The mutations a client whose cursor is `cursor` has yet to see. */
  function Above(log: seq<Mutation>, cursor: int): seq<Mutation> {
    if log == [] then []
    else if log[0].number > cursor then [log[0]] + Above(log[1..], cursor)
    else Above(log[1..], cursor)
  }

  /** Where the cursor stands once these have been applied. */
  function CursorAfter(cursor: int, applied: seq<Mutation>): int {
    if applied == [] then cursor else applied[|applied| - 1].number
  }

  lemma AboveHead(m: Mutation, rest: seq<Mutation>, cursor: int)
    ensures Above([m] + rest, cursor) == (if m.number > cursor then [m] else []) + Above(rest, cursor)
  {
    assert ([m] + rest)[1..] == rest;
  }

  lemma {:induction false} AboveSplits(a: seq<Mutation>, b: seq<Mutation>, cursor: int)
    ensures Above(a + b, cursor) == Above(a, cursor) + Above(b, cursor)
  {
    if a == [] {
      assert a + b == b;
    } else {
      var (head, rest) := (a[0], a[1..]);
      var one := if head.number > cursor then [head] else [];
      assert a == [head] + rest && a + b == [head] + (rest + b);
      AboveHead(head, rest + b, cursor);
      AboveHead(head, rest, cursor);
      AboveSplits(rest, b, cursor);
      assert one + (Above(rest, cursor) + Above(b, cursor)) == (one + Above(rest, cursor)) + Above(b, cursor);
    }
  }

  /** What is above a cursor in an ordered log is a suffix of it. */
  lemma {:induction false} AboveIsSuffix(log: seq<Mutation>, cursor: int) returns (k: nat)
    requires Ascending(log)
    ensures k <= |log| && Above(log, cursor) == log[k..]
    ensures forall i | 0 <= i < |log| :: log[i].number > cursor <==> i >= k
  {
    if log == [] {
      k := 0;
    } else {
      var rest := log[1..];
      assert Ascending(rest) && log == [log[0]] + rest;
      var r := AboveIsSuffix(rest, cursor);
      assert forall i | 1 <= i < |log| :: rest[i - 1] == log[i];
      if log[0].number > cursor {
        k := 0;
        assert forall i | 0 <= i < |rest| :: rest[i].number > cursor;
        assert r == 0;
      } else {
        k := r + 1;
      }
    }
  }

  /** Having taken `n` of what was above `cursor`, the rest is above the last. */
  lemma AboveAdvances(log: seq<Mutation>, cursor: int, n: nat)
    requires Ascending(log) && n <= |Above(log, cursor)|
    ensures Above(log, CursorAfter(cursor, Above(log, cursor)[..n])) == Above(log, cursor)[n..]
  {
    var k := AboveIsSuffix(log, cursor);
    if n > 0 {
      var after := CursorAfter(cursor, Above(log, cursor)[..n]);
      assert after == log[k + n - 1].number;
      var l := AboveIsSuffix(log, after);
      assert l == k + n by {
        assert l <= |log| && !(log[k + n - 1].number > after);
        if k + n < |log| { assert log[k + n].number > after; }
      }
    }
  }

  ghost predicate HandedFrom(whole: seq<Mutation>, c0: int, a0: seq<Mutation>, c1: int, a1: seq<Mutation>) {
    var n := |a1| - |a0|;
    0 <= n <= |whole| && a1 == a0 + whole[..n] && c1 == CursorAfter(c0, whole[..n])
  }

  /** Everything from `c0` to `c1` has been handed over: nothing skipped, nothing
      twice, in order, and the cursor is the last one handed over. */
  ghost predicate Handed(log: seq<Mutation>, c0: int, a0: seq<Mutation>, c1: int, a1: seq<Mutation>) {
    HandedFrom(Above(log, c0), c0, a0, c1, a1)
  }

  lemma HandedFromComposes(whole: seq<Mutation>, c0: int, a0: seq<Mutation>, c1: int, a1: seq<Mutation>, c2: int, a2: seq<Mutation>)
    requires HandedFrom(whole, c0, a0, c1, a1)
    requires HandedFrom(whole[|a1| - |a0|..], c1, a1, c2, a2)
    ensures HandedFrom(whole, c0, a0, c2, a2)
  {
    var (n, m) := (|a1| - |a0|, |a2| - |a1|);
    assert whole[..n + m] == whole[..n] + whole[n..][..m];
  }

  lemma HandedComposes(log: seq<Mutation>, c0: int, a0: seq<Mutation>, c1: int, a1: seq<Mutation>, c2: int, a2: seq<Mutation>)
    requires Ascending(log)
    requires Handed(log, c0, a0, c1, a1) && Handed(log, c1, a1, c2, a2)
    ensures Handed(log, c0, a0, c2, a2)
  {
    AboveAdvances(log, c0, |a1| - |a0|);
    HandedFromComposes(Above(log, c0), c0, a0, c1, a1, c2, a2);
  }

  /** How many leading mutations of a page are in strictly ascending order. */
  function AscendingPrefix(page: seq<Mutation>): (r: nat)
    ensures r <= |page| && Ascending(page[..r])
    ensures r < |page| ==> r > 0 && page[r].number <= page[r - 1].number
  {
    if page == [] then 0
    else
      var r := AscendingPrefix(page[..|page| - 1]);
      assert page[..|page| - 1][..r] == page[..r];
      if r == |page| - 1 && (r == 0 || page[r - 1].number < page[r].number) then |page| else r
  }

  lemma AscendingAt(page: seq<Mutation>, k: nat, i: nat)
    requires i + 1 < k <= |page| && Ascending(page[..k])
    ensures page[i].number < page[i + 1].number
  {
    assert page[..k][i] == page[i] && page[..k][i + 1] == page[i + 1];
  }

  lemma AscendingPrefixIsLongest(page: seq<Mutation>, k: nat)
    requires k <= |page| && Ascending(page[..k])
    ensures k <= AscendingPrefix(page)
  {
    var r := AscendingPrefix(page);
    if 0 < r < k {
      AscendingAt(page, k, r - 1);
    }
  }

  /// The server

  datatype PullAnswer =
    | Page(mutations: seq<Mutation>, hasMore: bool)
    | PullFailed(status: nat)
    | PullLost

  /** `list_mutations_since`, over what is published so far. */
  function Serve(log: seq<Mutation>, since: int, limit: nat): PullAnswer {
    var limit := if limit < 1 then 1 else if limit > 100 then 100 else limit;
    var rows := Above(log, if since < 0 then 0 else since);
    if |rows| > limit then Page(rows[..limit], true) else Page(rows, false)
  }

  /** A page is the first so many mutations above the cursor, as many as were asked for
      but at least one and at most a hundred; it says that there is more exactly when
      there is, and in a log of positive numbers nothing else is ever asked for. */
  lemma ServeGives(log: seq<Mutation>, since: int, limit: nat)
    requires forall m | m in log :: m.number > 0
    ensures var (answer, rows) := (Serve(log, since, limit), Above(log, since));
            && answer.Page? && answer.mutations <= rows && (answer.hasMore <==> |answer.mutations| < |rows|)
            && |answer.mutations| <= 100 && |answer.mutations| <= (if limit == 0 then 1 else limit)
            && (answer.hasMore ==> |answer.mutations| == if limit == 0 then 1 else if limit >= 100 then 100 else limit)
  {
    if since < 0 { AllAbove(log, since); AllAbove(log, 0); }
  }

  lemma {:induction false} AllAbove(log: seq<Mutation>, cursor: int)
    requires forall m | m in log :: m.number > cursor
    ensures Above(log, cursor) == log
  {
    if log != [] { AllAbove(log[1..], cursor); }
  }

  /// The queue

  /** A journalled local write; `allowed` says its project may be pushed and
      `sendable` that its payload parses. */
  datatype Row = Row(number: int, allowed: bool, sendable: bool, acked: bool, body: string)

  datatype NewRow = NewRow(allowed: bool, sendable: bool, body: string)

  /** Positive numbers, growing. */
  ghost predicate Numbered(queue: seq<Row>) {
    && (forall i | 0 <= i < |queue| :: queue[i].number > 0)
    && forall i, j | 0 <= i < j < |queue| :: queue[i].number < queue[j].number
  }

  /** Among the rows that may be pushed, the acknowledged ones come first. */
  ghost predicate AckedFirst(queue: seq<Row>) {
    forall i, j | 0 <= i < j < |queue| && queue[i].allowed && queue[j].allowed && queue[j].acked :: queue[i].acked
  }

  predicate Waiting(row: Row) { row.allowed && !row.acked }

  function Pending(queue: seq<Row>): seq<Row> {
    if queue == [] then []
    else if Waiting(queue[0]) then [queue[0]] + Pending(queue[1..])
    else Pending(queue[1..])
  }

  /** `list_pending_sync_mutations`: the first pending rows, never over a hundred. */
  function Batch(queue: seq<Row>, limit: nat): seq<Row> {
    var n := if limit < 1 then 1 else if limit > 100 then 100 else limit;
    if |Pending(queue)| <= n then Pending(queue) else Pending(queue)[..n]
  }

  function Numbers(rows: seq<Row>): set<int> { set r | r in rows :: r.number }

  /** `ack_sync_mutation_seqs`. */
  function Acked(queue: seq<Row>, numbers: set<int>): (r: seq<Row>)
    ensures |r| == |queue|
    ensures forall i | 0 <= i < |queue| :: r[i] == queue[i].(acked := queue[i].acked || queue[i].number in numbers)
  {
    seq(|queue|, i requires 0 <= i < |queue| => queue[i].(acked := queue[i].acked || queue[i].number in numbers))
  }

  function Appended(queue: seq<Row>, rows: seq<NewRow>): (r: seq<Row>)
    ensures queue <= r && |r| == |queue| + |rows|
    ensures forall i | |queue| <= i < |r| :: !r[i].acked
    ensures forall i | 0 <= i < |rows| :: r[|queue| + i].allowed == rows[i].allowed && r[|queue| + i].sendable == rows[i].sendable
    decreases |rows|
  {
    if rows == [] then queue
    else
      var next := if queue == [] then 1 else queue[|queue| - 1].number + 1;
      Appended(queue + [Row(next, rows[0].allowed, rows[0].sendable, false, rows[0].body)], rows[1..])
  }

  /** New rows go on counting. */
  lemma {:induction false} AppendedIsNumbered(queue: seq<Row>, rows: seq<NewRow>)
    requires Numbered(queue)
    ensures Numbered(Appended(queue, rows))
    decreases |rows|
  {
    if rows != [] {
      var next := if queue == [] then 1 else queue[|queue| - 1].number + 1;
      AppendedIsNumbered(queue + [Row(next, rows[0].allowed, rows[0].sendable, false, rows[0].body)], rows[1..]);
    }
  }

  lemma {:induction false} PendingMembers(queue: seq<Row>)
    ensures forall r :: r in Pending(queue) <==> r in queue && r.allowed && !r.acked
  {
    if queue != [] {
      PendingMembers(queue[1..]);
      assert queue == [queue[0]] + queue[1..];
    }
  }

  lemma {:induction false} AckedUntouched(queue: seq<Row>, numbers: set<int>)
    requires forall r | r in queue :: r.number !in numbers
    ensures Acked(queue, numbers) == queue
  {
  }

  lemma AckedSame(queue: seq<Row>, s: set<int>, t: set<int>)
    requires forall r | r in queue :: r.number in s <==> r.number in t
    ensures Acked(queue, s) == Acked(queue, t)
  {
  }

  lemma AckedThenPending(queue: seq<Row>, numbers: set<int>)
    requires queue != []
    ensures var (head, rest) := (queue[0], Pending(Acked(queue[1..], numbers)));
            Pending(Acked(queue, numbers)) == if Waiting(head) && head.number !in numbers then [head] + rest else rest
  {
    assert Acked(queue, numbers)[1..] == Acked(queue[1..], numbers);
  }

  lemma HeadIsApart(queue: seq<Row>)
    requires Numbered(queue) && queue != []
    ensures forall r | r in queue[1..] :: r.number != queue[0].number
    ensures forall r | r in Pending(queue[1..]) :: r.number != queue[0].number
  {
    PendingMembers(queue[1..]);
  }

  /** Acknowledging the first `m` pending rows leaves exactly the others pending. */
  lemma {:induction false} AckTakesAPrefix(queue: seq<Row>, m: nat)
    requires Numbered(queue) && m <= |Pending(queue)|
    ensures Pending(Acked(queue, Numbers(Pending(queue)[..m]))) == Pending(queue)[m..]
    decreases |queue|
  {
    if m == 0 {
      AckedUntouched(queue, Numbers([]));
    } else if queue != [] {
      HeadIsApart(queue);
      if Waiting(queue[0]) {
        AckTakesHead(queue, m);
        AckTakesAPrefix(queue[1..], m - 1);
      } else {
        assert queue[0].number !in Numbers(Pending(queue[1..])[..m]);
        AckTakesAPrefix(queue[1..], m);
        AckedThenPending(queue, Numbers(Pending(queue[1..])[..m]));
      }
    }
  }

  lemma AckTakesHead(queue: seq<Row>, m: nat)
    requires queue != [] && Waiting(queue[0]) && 0 < m <= |Pending(queue)|
    requires forall r | r in queue[1..] :: r.number != queue[0].number
    ensures Pending(Acked(queue, Numbers(Pending(queue)[..m])))
         == Pending(Acked(queue[1..], Numbers(Pending(queue[1..])[..m - 1])))
  {
    var (taken, later) := (Numbers(Pending(queue)[..m]), Numbers(Pending(queue[1..])[..m - 1]));
    assert Pending(queue)[..m] == [queue[0]] + Pending(queue[1..])[..m - 1];
    assert queue[0] in Pending(queue)[..m];
    AckedThenPending(queue, taken);
    AckedSame(queue[1..], taken, later);
  }

  lemma PendingAfterAcked(queue: seq<Row>, i: nat, m: nat)
    requires Numbered(queue) && i < |queue| && m <= |Pending(queue)|
    requires queue[i].allowed && !queue[i].acked && queue[i].number in Numbers(Pending(queue)[..m])
    ensures forall h | 0 <= h < i && queue[h].allowed && !queue[h].acked :: queue[h].number in Numbers(Pending(queue)[..m])
  {
    var p := Pending(queue);
    PendingIsOrdered(queue);
    PendingMembers(queue);
    forall h | 0 <= h < i && queue[h].allowed && !queue[h].acked
      ensures queue[h].number in Numbers(p[..m])
    {
      assert queue[h] in p;
      TakenBelow(p, m, queue[i].number, queue[h]);
    }
  }

  /** What is numbered lower than something taken from an ordered list is taken too. */
  lemma TakenBelow(p: seq<Row>, m: nat, number: int, row: Row)
    requires m <= |p| && forall a, b | 0 <= a < b < |p| :: p[a].number < p[b].number
    requires number in Numbers(p[..m]) && row in p && row.number < number
    ensures row.number in Numbers(p[..m])
  {
    var a :| 0 <= a < |p| && p[a] == row;
    var r :| r in p[..m] && r.number == number;
    var b :| 0 <= b < m && p[b] == r;
    assert p[..m][a] == row;
  }

  lemma {:induction false} PendingIsOrdered(queue: seq<Row>)
    requires Numbered(queue)
    ensures forall a, b | 0 <= a < b < |Pending(queue)| :: Pending(queue)[a].number < Pending(queue)[b].number
  {
    if queue != [] {
      PendingIsOrdered(queue[1..]);
      PendingMembers(queue[1..]);
      forall b | 0 <= b < |Pending(queue[1..])| ensures queue[0].number < Pending(queue[1..])[b].number {
        assert Pending(queue[1..])[b] in Pending(queue[1..]);
      }
    }
  }

  lemma AckKeepsAckedFirst(queue: seq<Row>, m: nat)
    requires Numbered(queue) && AckedFirst(queue) && m <= |Pending(queue)|
    ensures AckedFirst(Acked(queue, Numbers(Pending(queue)[..m]))) && Numbered(Acked(queue, Numbers(Pending(queue)[..m])))
  {
    var numbers := Numbers(Pending(queue)[..m]);
    var after := Acked(queue, numbers);
    forall i, j | 0 <= i < j < |after| && after[i].allowed && after[j].allowed && after[j].acked
      ensures after[i].acked
    {
      if !queue[j].acked && !queue[i].acked {
        PendingAfterAcked(queue, j, m);
      }
    }
  }

  /** New rows wait behind the ones already waiting. */
  lemma {:induction false} PendingGrows(queue: seq<Row>, longer: seq<Row>)
    requires queue <= longer
    ensures Pending(queue) <= Pending(longer)
    decreases |queue|
  {
    if queue != [] {
      PendingGrows(queue[1..], longer[1..]);
    }
  }
}
