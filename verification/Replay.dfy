/** The event bus's store of published events, each with a time to live, and its replay. Times are
    those of the clock at the operation. */
module Replay {
  import opened Collections
  import opened Subscribers

  datatype Row = Row(channel: Id, event: string, createdAt: int, expiresAt: int)

  const DEFAULT_TTL_MS := 24 * 60 * 60 * 1000

  /** The condition of the `listSince` query. */
  predicate Matches(r: Row, channel: Id, since: int, now: int) {
    r.channel == channel && r.createdAt >= since && r.expiresAt > now
  }

  function Select(rows: seq<Row>, channel: Id, since: int, now: int): seq<Row> {
    if rows == [] then []
    else
      var r := rows[|rows| - 1];
      Select(rows[..|rows| - 1], channel, since, now) + (if Matches(r, channel, since, now) then [r] else [])
  }

  /** Of the rows, exactly those of the channel are there that are not older than asked for and have not
      lapsed, each as often as among the rows. */
  ghost predicate Picked(rows: seq<Row>, channel: Id, since: int, now: int, answer: seq<Row>) {
    forall r :: multiset(answer)[r] ==
      (if r.channel == channel && r.createdAt >= since && r.expiresAt > now then multiset(rows)[r] else 0)
  }

  lemma SelectPicked(rows: seq<Row>, channel: Id, since: int, now: int)
    ensures Picked(rows, channel, since, now, Select(rows, channel, since, now))
  {
    forall r { SelectCount(rows, channel, since, now, r); }
  }

  lemma {:induction false} SelectCount(rows: seq<Row>, channel: Id, since: int, now: int, r: Row)
    ensures multiset(Select(rows, channel, since, now))[r] ==
      if r.channel == channel && r.createdAt >= since && r.expiresAt > now then multiset(rows)[r] else 0
  {
    if rows != [] {
      SelectCount(rows[..|rows| - 1], channel, since, now, r);
      CountLast(rows);
    }
  }

  ghost predicate Sorted(rows: seq<Row>) {
    forall i, j :: 0 <= i < j < |rows| ==> rows[i].createdAt <= rows[j].createdAt
  }

  /** A possible answer of the query: the matching rows by creation time, ties in any order. */
  ghost predicate IsAnswer(rows: seq<Row>, channel: Id, since: int, now: int, answer: seq<Row>) {
    multiset(answer) == multiset(Select(rows, channel, since, now)) && Sorted(answer)
  }

  /** Rows by creation time, earlier rows first among equals. */
  function Insert(rows: seq<Row>, r: Row): seq<Row> {
    if rows == [] || rows[|rows| - 1].createdAt <= r.createdAt then rows + [r]
    else Insert(rows[..|rows| - 1], r) + [rows[|rows| - 1]]
  }

  function OrderByCreated(rows: seq<Row>): seq<Row> {
    if rows == [] then [] else Insert(OrderByCreated(rows[..|rows| - 1]), rows[|rows| - 1])
  }

  lemma {:induction false} InsertCounts(rows: seq<Row>, r: Row)
    ensures multiset(Insert(rows, r)) == multiset(rows) + multiset{r}
  {
    if rows != [] && rows[|rows| - 1].createdAt > r.createdAt {
      var n := |rows| - 1;
      InsertCounts(rows[..n], r);
      assert rows == rows[..n] + [rows[n]];
    }
  }

  /** Nothing later than the rows and the new one comes out. */
  lemma {:induction false} InsertSorts(rows: seq<Row>, r: Row, bound: int)
    requires Sorted(rows)
    requires r.createdAt <= bound && forall i :: 0 <= i < |rows| ==> rows[i].createdAt <= bound
    ensures Sorted(Insert(rows, r)) && forall i :: 0 <= i < |Insert(rows, r)| ==> Insert(rows, r)[i].createdAt <= bound
  {
    if rows != [] && rows[|rows| - 1].createdAt > r.createdAt {
      InsertSorts(rows[..|rows| - 1], r, rows[|rows| - 1].createdAt);
    }
  }

  function Latest(rows: seq<Row>): int {
    if rows == [] then 0
    else if Latest(rows[..|rows| - 1]) > rows[|rows| - 1].createdAt then Latest(rows[..|rows| - 1])
    else rows[|rows| - 1].createdAt
  }

  lemma {:induction false} LatestBounds(rows: seq<Row>)
    ensures forall i :: 0 <= i < |rows| ==> rows[i].createdAt <= Latest(rows)
  {
    if rows != [] { LatestBounds(rows[..|rows| - 1]); }
  }

  lemma CountLast(rows: seq<Row>)
    requires rows != []
    ensures multiset(rows) == multiset(rows[..|rows| - 1]) + multiset{rows[|rows| - 1]}
  {
    assert rows == rows[..|rows| - 1] + [rows[|rows| - 1]];
  }

  lemma {:induction false} OrderCounts(rows: seq<Row>)
    ensures multiset(OrderByCreated(rows)) == multiset(rows)
  {
    if rows != [] {
      OrderCounts(rows[..|rows| - 1]);
      InsertCounts(OrderByCreated(rows[..|rows| - 1]), rows[|rows| - 1]);
      CountLast(rows);
    }
  }

  lemma {:induction false} OrderSorts(rows: seq<Row>)
    ensures Sorted(OrderByCreated(rows))
  {
    if rows != [] {
      var ordered, last := OrderByCreated(rows[..|rows| - 1]), rows[|rows| - 1];
      OrderSorts(rows[..|rows| - 1]);
      LatestBounds(ordered);
      var bound := if Latest(ordered) > last.createdAt then Latest(ordered) else last.createdAt;
      InsertSorts(ordered, last, bound);
    }
  }

  function Unexpired(rows: seq<Row>, now: int): seq<Row> {
    if rows == [] then []
    else
      var r := rows[|rows| - 1];
      Unexpired(rows[..|rows| - 1], now) + (if r.expiresAt <= now then [] else [r])
  }

  /** Exactly the rows that have lapsed are gone. */
  ghost predicate Purged(rows: seq<Row>, kept: seq<Row>, now: int) {
    forall r :: multiset(kept)[r] == if r.expiresAt <= now then 0 else multiset(rows)[r]
  }

  lemma UnexpiredPurged(rows: seq<Row>, now: int)
    ensures Purged(rows, Unexpired(rows, now), now)
  {
    forall r { UnexpiredCount(rows, now, r); }
  }

  lemma {:induction false} UnexpiredCount(rows: seq<Row>, now: int, r: Row)
    ensures multiset(Unexpired(rows, now))[r] == if r.expiresAt <= now then 0 else multiset(rows)[r]
  {
    if rows != [] {
      UnexpiredCount(rows[..|rows| - 1], now, r);
      CountLast(rows);
    }
  }

  // ---------------------------------------------------------------------------------------------
  // Histories
  // ---------------------------------------------------------------------------------------------

  /** An operation that writes, at a time; a publication whose audit fails stores nothing. */
  datatype Op =
    | Publish(at: int, channel: Id, event: string, ttl: int, audited: bool)
    | PurgeExpired(at: int)

  function NewRow(op: Op): Row
    requires op.Publish?
  {
    Row(op.channel, op.event, op.at, op.at + op.ttl)
  }

  /** The table after the operations. */
  function Table(ops: seq<Op>): seq<Row> {
    if ops == [] then []
    else
      var before := Table(ops[..|ops| - 1]);
      match ops[|ops| - 1]
      case Publish(_, _, _, _, audited) => if audited then before + [NewRow(ops[|ops| - 1])] else before
      case PurgeExpired(at) => Unexpired(before, at)
  }

  lemma TableLast(ops: seq<Op>, op: Op)
    ensures Table(ops + [op]) ==
      if op.PurgeExpired? then Unexpired(Table(ops), op.at)
      else if op.audited then Table(ops) + [NewRow(op)]
      else Table(ops)
  {
    assert (ops + [op])[..|ops + [op]| - 1] == ops;
  }

  /** Everything ever published, in order: the log that replay stands for. */
  function Log(ops: seq<Op>): seq<Row> {
    if ops == [] then []
    else
      var op := ops[|ops| - 1];
      Log(ops[..|ops| - 1]) + (if op.Publish? && op.audited then [NewRow(op)] else [])
  }

  /** The operations, and then the replay, are dated in their order. */
  ghost predicate ClockNeverBack(ops: seq<Op>, now: int) {
    InTime(ops) && AllBy(ops, now)
  }

  ghost predicate InTime(ops: seq<Op>) {
    forall i, j :: 0 <= i < j < |ops| ==> ops[i].at <= ops[j].at
  }

  ghost predicate AllBy(ops: seq<Op>, at: int) {
    forall i :: 0 <= i < |ops| ==> ops[i].at <= at
  }

  /** A purge at that time would drop a row that has not lapsed now. */
  predicate DroppedEarly(r: Row, at: int, now: int) {
    now < r.expiresAt <= at
  }

  ghost predicate Stored(op: Op) {
    op.Publish? && op.audited
  }

  /** No publication met a later purge that dropped it early. */
  ghost predicate NothingLost(ops: seq<Op>, now: int) {
    forall i, j :: 0 <= i < j < |ops| && Stored(ops[i]) && ops[j].PurgeExpired? ==>
      !DroppedEarly(NewRow(ops[i]), ops[j].at, now)
  }

  /** The two tables answer every query at that time alike. */
  ghost predicate SameReplays(a: seq<Row>, b: seq<Row>, now: int) {
    forall channel, since, answer ::
      IsAnswer(a, channel, since, now, answer) <==> IsAnswer(b, channel, since, now, answer)
  }

  lemma {:induction false} SelectUnexpired(rows: seq<Row>, at: int, channel: Id, since: int, now: int)
    requires forall r :: r in rows ==> !DroppedEarly(r, at, now)
    ensures Select(Unexpired(rows, at), channel, since, now) == Select(rows, channel, since, now)
  {
    if rows != [] {
      var n := |rows| - 1;
      SelectUnexpired(rows[..n], at, channel, since, now);
      if rows[n].expiresAt > at {
        assert Unexpired(rows, at)[..|Unexpired(rows, at)| - 1] == Unexpired(rows[..n], at);
      } else {
        assert !DroppedEarly(rows[n], at, now);
        assert Unexpired(rows, at) == Unexpired(rows[..n], at);
      }
    }
  }

  lemma UnexpiredLast(front: seq<Row>, last: Row, at: int, channel: Id, since: int, now: int)
    ensures Select(Unexpired(front + [last], at), channel, since, now) ==
      Select(Unexpired(front, at), channel, since, now)
      + (if last.expiresAt > at && Matches(last, channel, since, now) then [last] else [])
    ensures Select(front + [last], channel, since, now) ==
      Select(front, channel, since, now) + (if Matches(last, channel, since, now) then [last] else [])
  {
    var rows, kept := front + [last], Unexpired(front, at);
    assert rows[..|rows| - 1] == front;
    if last.expiresAt > at {
      assert (kept + [last])[..|kept + [last]| - 1] == kept;
    } else {
      assert kept + [] == kept;
    }
  }

  lemma ShrinkStep(rows: seq<Row>, n: nat, at: int, channel: Id, since: int, now: int)
    requires n < |rows|
    ensures |Select(Unexpired(rows[..n + 1], at), channel, since, now)|
      - |Select(Unexpired(rows[..n], at), channel, since, now)| <=
      |Select(rows[..n + 1], channel, since, now)| - |Select(rows[..n], channel, since, now)|
  {
    assert rows[..n + 1] == rows[..n] + [rows[n]];
    UnexpiredLast(rows[..n], rows[n], at, channel, since, now);
  }

  /** Dropping never adds to an answer. */
  lemma SelectShrinks(rows: seq<Row>, at: int, channel: Id, since: int, now: int)
    ensures |Select(Unexpired(rows, at), channel, since, now)| <= |Select(rows, channel, since, now)|
  {
    for n := 0 to |rows|
      invariant |Select(Unexpired(rows[..n], at), channel, since, now)| <= |Select(rows[..n], channel, since, now)|
    {
      ShrinkStep(rows, n, at, channel, since, now);
    }
    assert rows[..|rows|] == rows;
  }

  /** Dropping a row that matches takes from it. */
  lemma {:induction false} SelectLoses(rows: seq<Row>, at: int, channel: Id, since: int, now: int, r: Row)
    requires r in rows && Matches(r, channel, since, now) && r.expiresAt <= at
    ensures |Select(Unexpired(rows, at), channel, since, now)| < |Select(rows, channel, since, now)|
  {
    var front, last := rows[..|rows| - 1], rows[|rows| - 1];
    assert rows == front + [last];
    UnexpiredLast(front, last, at, channel, since, now);
    if r == last { SelectShrinks(front, at, channel, since, now); }
    else { SelectLoses(front, at, channel, since, now, r); }
  }

  lemma DifferentCounts(a: seq<Row>, b: seq<Row>, channel: Id, since: int, now: int)
    requires |Select(a, channel, since, now)| != |Select(b, channel, since, now)|
    ensures !SameReplays(a, b, now)
  {
    var answer := OrderByCreated(Select(a, channel, since, now));
    OrderSorts(Select(a, channel, since, now));
    OrderCounts(Select(a, channel, since, now));
    assert |multiset(Select(a, channel, since, now))| != |multiset(Select(b, channel, since, now))|;
    assert IsAnswer(a, channel, since, now, answer) && !IsAnswer(b, channel, since, now, answer);
  }

  /** When a purge shows: it leaves every later replay at that time as it was if and only if it drops no
      row that has not lapsed at that time. */
  lemma PurgeInvisibleIff(rows: seq<Row>, at: int, now: int)
    ensures SameReplays(Unexpired(rows, at), rows, now) <==> forall r :: r in rows ==> !DroppedEarly(r, at, now)
  {
    if forall r :: r in rows ==> !DroppedEarly(r, at, now) {
      forall channel, since, answer
        ensures IsAnswer(Unexpired(rows, at), channel, since, now, answer) <==>
          IsAnswer(rows, channel, since, now, answer)
      {
        SelectUnexpired(rows, at, channel, since, now);
      }
    } else {
      var r :| r in rows && DroppedEarly(r, at, now);
      SelectLoses(rows, at, r.channel, r.createdAt, now, r);
      DifferentCounts(Unexpired(rows, at), rows, r.channel, r.createdAt, now);
    }
  }

  lemma {:induction false} UnexpiredMembers(rows: seq<Row>, at: int, r: Row)
    ensures r in Unexpired(rows, at) <==> r in rows && r.expiresAt > at
  {
    if rows != [] {
      var n := |rows| - 1;
      UnexpiredMembers(rows[..n], at, r);
      assert rows == rows[..n] + [rows[n]];
    }
  }

  /** What is in the table was published. */
  lemma {:induction false} TableRow(ops: seq<Op>, r: Row)
    requires r in Table(ops)
    ensures exists i :: 0 <= i < |ops| && Stored(ops[i]) && NewRow(ops[i]) == r
  {
    var n := |ops| - 1;
    var op := ops[n];
    if op.PurgeExpired? { UnexpiredMembers(Table(ops[..n]), op.at, r); }
    if Stored(op) && r == NewRow(op) {
    } else {
      TableRow(ops[..n], r);
      var i :| 0 <= i < n && Stored(ops[..n][i]) && NewRow(ops[..n][i]) == r;
      assert Stored(ops[i]) && NewRow(ops[i]) == r;
    }
  }

  /** What was published is in the table unless a later purge found it lapsed. */
  lemma {:induction false} PublishedStays(ops: seq<Op>, i: nat) returns (j: nat)
    requires i < |ops| && Stored(ops[i])
    ensures NewRow(ops[i]) in Table(ops) ||
      (i < j < |ops| && ops[j].PurgeExpired? && NewRow(ops[i]).expiresAt <= ops[j].at)
  {
    var n := |ops| - 1;
    j := n;
    if i < n {
      j := PublishedStays(ops[..n], i);
      if ops[n].PurgeExpired? && NewRow(ops[i]) in Table(ops[..n]) {
        UnexpiredMembers(Table(ops[..n]), ops[n].at, NewRow(ops[i]));
        j := n;
      }
    }
  }

  /** A purge under which nothing is lost drops nothing early. */
  lemma NoneDropped(ops: seq<Op>, now: int, r: Row)
    requires NothingLost(ops, now) && ops != [] && ops[|ops| - 1].PurgeExpired? && r in Table(ops[..|ops| - 1])
    ensures !DroppedEarly(r, ops[|ops| - 1].at, now)
  {
    var n := |ops| - 1;
    TableRow(ops[..n], r);
    var i :| 0 <= i < n && Stored(ops[..n][i]) && NewRow(ops[..n][i]) == r;
    assert Stored(ops[i]);
  }

  lemma {:induction false} TableSelectsLog(ops: seq<Op>, channel: Id, since: int, now: int)
    requires NothingLost(ops, now)
    ensures Select(Table(ops), channel, since, now) == Select(Log(ops), channel, since, now)
  {
    if ops != [] {
      var op, before := ops[|ops| - 1], ops[..|ops| - 1];
      TableSelectsLog(before, channel, since, now);
      if Stored(op) {
        assert Table(ops)[..|Table(ops)| - 1] == Table(before);
        assert Log(ops)[..|Log(ops)| - 1] == Log(before);
      } else {
        assert Log(ops) == Log(before);
        if op.PurgeExpired? {
          forall r | r in Table(before) ensures !DroppedEarly(r, op.at, now) { NoneDropped(ops, now, r); }
          SelectUnexpired(Table(before), op.at, channel, since, now);
        }
      }
    }
  }

  /** A replay never answers more than the log. */
  lemma {:induction false} TableSmaller(ops: seq<Op>, channel: Id, since: int, now: int)
    ensures |Select(Table(ops), channel, since, now)| <= |Select(Log(ops), channel, since, now)|
  {
    if ops != [] {
      var n := |ops| - 1;
      TableSmaller(ops[..n], channel, since, now);
      var op := ops[n];
      if Stored(op) {
        assert Table(ops)[..|Table(ops)| - 1] == Table(ops[..n]);
        assert Log(ops)[..|Log(ops)| - 1] == Log(ops[..n]);
      } else {
        assert Log(ops) == Log(ops[..n]);
        if op.PurgeExpired? { SelectShrinks(Table(ops[..n]), op.at, channel, since, now); }
      }
    }
  }

  /** The replay of the channel misses something. */
  ghost predicate Short(ops: seq<Op>, r: Row, now: int) {
    |Select(Table(ops), r.channel, r.createdAt, now)| < |Select(Log(ops), r.channel, r.createdAt, now)|
  }

  lemma StaysShort(ops: seq<Op>, r: Row, now: int)
    requires ops != [] && Short(ops[..|ops| - 1], r, now)
    ensures Short(ops, r, now)
  {
    var op, before := ops[|ops| - 1], ops[..|ops| - 1];
    if Stored(op) {
      assert Table(ops)[..|Table(ops)| - 1] == Table(before);
      assert Log(ops)[..|Log(ops)| - 1] == Log(before);
    } else {
      assert Log(ops) == Log(before);
      if op.PurgeExpired? { SelectShrinks(Table(before), op.at, r.channel, r.createdAt, now); }
    }
  }

  lemma PurgeMakesShort(ops: seq<Op>, r: Row, now: int)
    requires ops != [] && ops[|ops| - 1].PurgeExpired? && r in Table(ops[..|ops| - 1])
    requires DroppedEarly(r, ops[|ops| - 1].at, now)
    ensures Short(ops, r, now)
  {
    var op, before := ops[|ops| - 1], ops[..|ops| - 1];
    assert Log(ops) == Log(before);
    TableSmaller(before, r.channel, r.createdAt, now);
    SelectLoses(Table(before), op.at, r.channel, r.createdAt, now, r);
  }

  /** And it answers less once a publication has been dropped early. */
  lemma {:induction false} LossShows(ops: seq<Op>, i: nat, j: nat, now: int)
    requires i < j < |ops| && Stored(ops[i]) && ops[j].PurgeExpired? && DroppedEarly(NewRow(ops[i]), ops[j].at, now)
    ensures Short(ops, NewRow(ops[i]), now)
  {
    var r, n := NewRow(ops[i]), |ops| - 1;
    assert ops[..n][i] == ops[i];
    if j == n && r in Table(ops[..n]) {
      PurgeMakesShort(ops, r, now);
    } else {
      var k := j;
      if j == n { k := PublishedStays(ops[..n], i); }
      LossShows(ops[..n], i, k, now);
      StaysShort(ops, r, now);
    }
  }

  /** Replay refines the log, and exactly when: whatever was published and purged in between, every
      replay at a time answers what it would answer over everything ever published if and only if no
      purge dropped an event that has not lapsed by that time. */
  lemma ReplayRefinesLogIff(ops: seq<Op>, now: int)
    ensures SameReplays(Table(ops), Log(ops), now) <==> NothingLost(ops, now)
  {
    if NothingLost(ops, now) {
      forall channel, since, answer
        ensures IsAnswer(Table(ops), channel, since, now, answer) <==> IsAnswer(Log(ops), channel, since, now, answer)
      {
        TableSelectsLog(ops, channel, since, now);
      }
    } else {
      var i, j :| 0 <= i < j < |ops| && Stored(ops[i]) && ops[j].PurgeExpired? &&
        DroppedEarly(NewRow(ops[i]), ops[j].at, now);
      LossShows(ops, i, j, now);
      DifferentCounts(Table(ops), Log(ops), ops[i].channel, ops[i].at, now);
    }
  }

  /** Sorted, and nothing in it later than the time given. */
  ghost predicate SortedUpTo(rows: seq<Row>, at: int) {
    Sorted(rows) && forall i :: 0 <= i < |rows| ==> rows[i].createdAt <= at
  }

  lemma SortedLonger(rows: seq<Row>, more: seq<Row>, at: int, later: int)
    requires SortedUpTo(rows, at) && at <= later && |more| <= 1 && (more != [] ==> more[0].createdAt == at)
    ensures SortedUpTo(rows + more, later)
  {}

  /** One more operation adds at most one row to an answer over the log. */
  lemma LogLast(ops: seq<Op>, channel: Id, since: int, now: int) returns (more: seq<Row>)
    requires ops != []
    ensures Select(Log(ops), channel, since, now) == Select(Log(ops[..|ops| - 1]), channel, since, now) + more
    ensures |more| <= 1 && (more != [] ==> more[0].createdAt == ops[|ops| - 1].at)
  {
    var op, before := ops[|ops| - 1], Log(ops[..|ops| - 1]);
    more := [];
    if Stored(op) {
      assert Log(ops)[..|Log(ops)| - 1] == before;
      if Matches(NewRow(op), channel, since, now) { more := [NewRow(op)]; }
    } else {
      assert Log(ops) == before;
    }
  }

  lemma InTimePrefix(ops: seq<Op>)
    requires InTime(ops) && ops != []
    ensures InTime(ops[..|ops| - 1]) && AllBy(ops[..|ops| - 1], ops[|ops| - 1].at)
  {}

  lemma {:induction false} LogSorted(ops: seq<Op>, channel: Id, since: int, now: int, at: int)
    requires InTime(ops) && AllBy(ops, at)
    ensures SortedUpTo(Select(Log(ops), channel, since, now), at)
  {
    if ops != [] {
      var op, before := ops[|ops| - 1], ops[..|ops| - 1];
      InTimePrefix(ops);
      LogSorted(before, channel, since, now, op.at);
      var more := LogLast(ops, channel, since, now);
      SortedLonger(Select(Log(before), channel, since, now), more, op.at, at);
    }
  }

  /** A clock that does not go back is enough, and then the order of publication is an answer. */
  lemma ReplayUnderClock(ops: seq<Op>, channel: Id, since: int, now: int)
    requires ClockNeverBack(ops, now)
    ensures NothingLost(ops, now) && SameReplays(Table(ops), Log(ops), now)
    ensures IsAnswer(Table(ops), channel, since, now, Select(Log(ops), channel, since, now))
  {
    ReplayRefinesLogIff(ops, now);
    LogSorted(ops, channel, since, now, now);
    assert IsAnswer(Log(ops), channel, since, now, Select(Log(ops), channel, since, now));
  }

  /** It is not necessary: here the clock goes back twice and every replay is as over the log. */
  lemma BackwardClockMayKeep(now: int)
    ensures var ops := [Publish(5, Id("c"), "e", 10, true), Publish(3, Id("d"), "f", 10, true), PurgeExpired(4)];
      !ClockNeverBack(ops, now) && SameReplays(Table(ops), Log(ops), now)
  {
    var ops := [Publish(5, Id("c"), "e", 10, true), Publish(3, Id("d"), "f", 10, true), PurgeExpired(4)];
    assert ops[0].at > ops[1].at;
    ReplayRefinesLogIff(ops, now);
  }

  /** A replay dated before a purge can miss an event that had not lapsed by that date. */
  lemma BackwardClockLoses(channel: Id)
    ensures var ops := [Publish(0, channel, "e", 10, true), PurgeExpired(10)];
      Select(Table(ops), channel, 0, 5) == [] && Select(Log(ops), channel, 0, 5) == [Row(channel, "e", 0, 10)]
  {
    var ops := [Publish(0, channel, "e", 10, true), PurgeExpired(10)];
    var one := [Publish(0, channel, "e", 10, true)];
    var row := Row(channel, "e", 0, 10);
    assert ops[..1] == one && one[..0] == [];
    assert Table(one) == [row] && Log(one) == [row] && [row][..0] == [];
    assert Unexpired([row], 10) == [];
    assert Log(ops) == [row];
  }

  // ---------------------------------------------------------------------------------------------
  // The bus
  // ---------------------------------------------------------------------------------------------

  /** The statement that deletes what has lapsed. */
  method Delete(rows: seq<Row>, now: int) returns (kept: seq<Row>)
    ensures kept == Unexpired(rows, now) && |kept| <= |rows|
  {
    kept := [];
    for i := 0 to |rows|
      invariant kept == Unexpired(rows[..i], now) && |kept| <= i
    {
      assert rows[..i + 1][..i] == rows[..i];
      if rows[i].expiresAt > now { kept := kept + [rows[i]]; }
    }
    assert rows[..|rows|] == rows;
  }

  /** An emitter's channel of this name throws when nobody listens on it. */
  const ERROR_CHANNEL := Id("error")

  class EventBus {
    var rows: seq<Row>
    var listeners: seq<Listener>
    var delivered: seq<Delivery>  // the calls of handlers, in order
    const replayTtlMs: Option<int>
    ghost var ops: seq<Op>
    ghost var steps: seq<Step>

    ghost predicate Valid()
      reads this
    {
      rows == Table(ops) && listeners == ListenersAfter(steps) && delivered == DeliveredAfter(steps)
    }

    function Ttl(): int {
      if replayTtlMs.Some? then replayTtlMs.value else DEFAULT_TTL_MS
    }

    constructor (replayTtlMs: Option<int>)
      ensures Valid() && ops == [] && steps == [] && this.replayTtlMs == replayTtlMs
    {
      rows, ops, this.replayTtlMs := [], [], replayTtlMs;
      listeners, delivered, steps := [], [], [];
    }

    method Add(now: int, channel: Id, event: string)
      requires Valid()
      modifies `rows, `ops
      ensures Valid() && ops == old(ops) + [Op.Publish(now, channel, event, Ttl(), true)]
      ensures rows == old(rows) + [Row(channel, event, now, now + Ttl())]
    {
      TableLast(ops, Op.Publish(now, channel, event, Ttl(), true));
      ops := ops + [Op.Publish(now, channel, event, Ttl(), true)];
      rows := rows + [Row(channel, event, now, now + Ttl())];
    }

    /** The listeners of the channel are called in turn. */
    method CallListeners(channel: Id, event: string) returns (none: bool)
      modifies `delivered
      ensures delivered == old(delivered) + Deliveries(listeners, channel, event)
      ensures none <==> Unheard(listeners, channel)
    {
      none := true;
      for i := 0 to |listeners|
        invariant delivered == old(delivered) + Deliveries(listeners[..i], channel, event)
        invariant none <==> Unheard(listeners[..i], channel)
      {
        assert listeners[..i + 1] == listeners[..i] + [listeners[i]];
        DeliveriesLast(listeners[..i], listeners[i], channel, event);
        if listeners[i].channel == channel {
          none := false;
          delivered := delivered + [Delivery(listeners[i].handler, event)];
        }
      }
      assert listeners[..|listeners|] == listeners;
    }

    method Emit(channel: Id, event: string) returns (threw: bool)
      requires Valid()
      modifies `delivered, `steps
      ensures Valid() && steps == old(steps) + [Emits(channel, event)]
      ensures delivered == old(delivered) + Deliveries(listeners, channel, event)
      ensures threw <==> channel == ERROR_CHANNEL && Unheard(listeners, channel)
    {
      OneStep(steps, Emits(channel, event));
      steps := steps + [Emits(channel, event)];
      var none := CallListeners(channel, event);
      threw := none && channel == ERROR_CHANNEL;
    }

    /** The event is audited, stored and then emitted to whoever listens. */
    method Publish(now: int, channel: Id, event: string, audited: bool) returns (threw: bool)
      requires Valid()
      modifies this
      ensures Valid() && listeners == old(listeners)
      ensures ops == old(ops) + [Op.Publish(now, channel, event, Ttl(), audited)]
      ensures steps == if audited then old(steps) + [Emits(channel, event)] else old(steps)
      ensures threw <==> !audited || (channel == ERROR_CHANNEL && Unheard(listeners, channel))
      ensures audited ==>
        delivered == old(delivered) + Deliveries(listeners, channel, event) &&
        rows == old(rows) +
          [Row(channel, event, now, now + if replayTtlMs.Some? then replayTtlMs.value else 86400000)]
      ensures !audited ==> rows == old(rows) && delivered == old(delivered)
    {
      if audited {
        Add(now, channel, event);
        threw := Emit(channel, event);
      } else {
        TableLast(ops, Op.Publish(now, channel, event, Ttl(), false));
        ops := ops + [Op.Publish(now, channel, event, Ttl(), false)];
        threw := true;
      }
    }

    /** `subscribe`; a handler is a new subscription. */
    method Subscribe(handler: nat, channel: Id)
      requires Valid()
      modifies `listeners, `steps
      ensures Valid() && steps == old(steps) + [Subscribes(handler, channel)]
      ensures listeners == old(listeners) + [Listener(handler, channel)]
    {
      listeners := listeners + [Listener(handler, channel)];
      OneStep(steps, Subscribes(handler, channel));
      steps := steps + [Subscribes(handler, channel)];
    }

    /** What `subscribe` returns. */
    method Unsubscribe(handler: nat)
      requires Valid()
      modifies `listeners, `steps
      ensures Valid() && steps == old(steps) + [Unsubscribes(handler)]
    {
      listeners := Removed(listeners, handler);
      OneStep(steps, Unsubscribes(handler));
      steps := steps + [Unsubscribes(handler)];
    }

    method Close()
      requires Valid()
      modifies `listeners, `steps
      ensures Valid() && steps == old(steps) + [Closes] && listeners == []
    {
      listeners := [];
      OneStep(steps, Closes);
      steps := steps + [Closes];
    }

    method PurgeExpired(now: int) returns (purged: nat)
      requires Valid()
      modifies `rows, `ops
      ensures Valid() && ops == old(ops) + [Op.PurgeExpired(now)]
      ensures purged == |old(rows)| - |rows|
      ensures Purged(old(rows), rows, now)
    {
      ghost var longer := ops + [Op.PurgeExpired(now)];
      var kept := Delete(rows, now);
      assert Table(longer) == kept by { TableLast(ops, Op.PurgeExpired(now)); }
      assert Purged(rows, kept, now) by { UnexpiredPurged(rows, now); }
      purged := |rows| - |kept|;
      rows, ops := kept, longer;
    }

    /** `replay`, with the rows rather than their payloads. */
    method Replay(now: int, channel: Id, since: int) returns (answer: seq<Row>)
      requires Valid()
      ensures IsAnswer(rows, channel, since, now, answer)
      ensures NothingLost(ops, now) ==> IsAnswer(Log(ops), channel, since, now, answer)
      ensures Sorted(answer) && Picked(rows, channel, since, now, answer)
    {
      var found := Select(rows, channel, since, now);
      OrderSorts(found);
      OrderCounts(found);
      answer := OrderByCreated(found);
      ReplayRefinesLogIff(ops, now);
      SelectPicked(rows, channel, since, now);
    }
  }
}
