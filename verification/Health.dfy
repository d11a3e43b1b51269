/**
 Recent-call health: log rows are counted into twenty ten-minute buckets, and the health of a
 service that is not connected is read off the latest bucket with calls. Times are
 nanoseconds since the epoch.
 */
module Health {
  const SECOND := 1_000_000_000
  const BUCKET_COUNT := 20
  const BUCKET_LENGTH := 600 * SECOND
  const CACHE_TTL := 30 * SECOND

  datatype CallRow = CallRow(service: int, success: bool, message: string, at: int)

  /** Integer division as the source's language does it: toward zero. */
  function Quotient(a: int, b: int): int
    requires b > 0
  {
    if a >= 0 then a / b else -((-a) / b)
  }

  function Index(at: int, first: int): int { Quotient(at - first, BUCKET_LENGTH) }

  predicate InRange(r: CallRow, first: int) { 0 <= Index(r.at, first) < BUCKET_COUNT }

  function Unix(at: int): int { at / SECOND }

  /** firstHealthBucket. */
  function FirstBucket(now: int): int
    requires now >= 0
  {
    now / BUCKET_LENGTH * BUCKET_LENGTH - (BUCKET_COUNT - 1) * BUCKET_LENGTH
  }

  /** The window ends with the bucket that holds now and starts on a ten-minute mark. */
  lemma WindowHoldsNow(now: int)
    requires now >= 0
    ensures Index(now, FirstBucket(now)) == BUCKET_COUNT - 1
    ensures FirstBucket(now) % BUCKET_LENGTH == 0
  {
  }

  /** A row is counted if and only if it lies less than one bucket before the window or inside
      it: division toward zero puts the bucket before the first into the first. */
  lemma CountedIff(r: CallRow, first: int)
    ensures InRange(r, first) <==> -BUCKET_LENGTH < r.at - first < BUCKET_COUNT * BUCKET_LENGTH
  {
  }

  /** Rows of the query (not before the window) are counted in the bucket they fall in. */
  lemma RightBucket(r: CallRow, first: int)
    requires r.at >= first && InRange(r, first)
    ensures var i := Index(r.at, first); first + i * BUCKET_LENGTH <= r.at < first + (i + 1) * BUCKET_LENGTH
  {
  }

  // ------------------------------------------------------------------ accumulating

  datatype Acc = Acc(succ: seq<int>, fail: seq<int>, lastCall: int, lastErrAt: int, lastErrMsg: string)

  function Zeros(n: nat): (s: seq<int>)
    ensures |s| == n && forall i :: 0 <= i < n ==> s[i] == 0
  {
    if n == 0 then [] else Zeros(n - 1) + [0]
  }

  const NO_CALLS := Acc(Zeros(BUCKET_COUNT), Zeros(BUCKET_COUNT), 0, 0, "")

  type KeyOf = int -> int

  predicate Relevant(r: CallRow, keyOf: KeyOf, key: int, first: int) { keyOf(r.service) == key && InRange(r, first) }

  function Counted(acc: Acc, r: CallRow, first: int): Acc
    requires InRange(r, first) && |acc.succ| == |acc.fail| == BUCKET_COUNT
  {
    var i, t := Index(r.at, first), Unix(r.at);
    var last := if t > acc.lastCall then t else acc.lastCall;
    if r.success then acc.(succ := acc.succ[i := acc.succ[i] + 1], lastCall := last)
    else
      var latest := t >= acc.lastErrAt;
      acc.(fail := acc.fail[i := acc.fail[i] + 1], lastCall := last,
           lastErrAt := if latest then t else acc.lastErrAt, lastErrMsg := if latest then r.message else acc.lastErrMsg)
  }

  /** What is accumulated for one key. */
  function Tally(rows: seq<CallRow>, keyOf: KeyOf, key: int, first: int): (acc: Acc)
    ensures |acc.succ| == |acc.fail| == BUCKET_COUNT
  {
    if rows == [] then NO_CALLS
    else
      var acc, r := Tally(rows[..|rows| - 1], keyOf, key, first), rows[|rows| - 1];
      if Relevant(r, keyOf, key, first) then Counted(acc, r, first) else acc
  }

  /** Which rows count for a key, and where. */
  lemma InCellIff(r: CallRow, keyOf: KeyOf, key: int, first: int, i: int, ok: bool)
    requires first <= r.at
    ensures Relevant(r, keyOf, key, first) <==> keyOf(r.service) == key && r.at < first + BUCKET_COUNT * BUCKET_LENGTH
    ensures 0 <= i < BUCKET_COUNT ==>
              (InCell(r, keyOf, key, first, i, ok)
               <==> keyOf(r.service) == key && r.success == ok
                    && first + i * BUCKET_LENGTH <= r.at < first + (i + 1) * BUCKET_LENGTH)
  {
  }

  predicate InCell(r: CallRow, keyOf: KeyOf, key: int, first: int, i: int, ok: bool) {
    Relevant(r, keyOf, key, first) && Index(r.at, first) == i && r.success == ok
  }

  /** The rows of one key, bucket and outcome. */
  function Cell(rows: seq<CallRow>, keyOf: KeyOf, key: int, first: int, i: int, ok: bool): (n: nat) {
    if rows == [] then 0
    else
      Cell(rows[..|rows| - 1], keyOf, key, first, i, ok)
      + if InCell(rows[|rows| - 1], keyOf, key, first, i, ok) then 1 else 0
  }

  function Calls(rows: seq<CallRow>, keyOf: KeyOf, key: int, first: int): (n: nat) {
    if rows == [] then 0
    else Calls(rows[..|rows| - 1], keyOf, key, first) + if Relevant(rows[|rows| - 1], keyOf, key, first) then 1 else 0
  }

  function Total(s: seq<int>): int { if s == [] then 0 else Total(s[..|s| - 1]) + s[|s| - 1] }

  lemma {:induction false} TotalUpdate(s: seq<int>, i: nat, v: int)
    requires i < |s|
    ensures Total(s[i := v]) == Total(s) - s[i] + v
  {
    var n := |s| - 1;
    if i == n {
      assert s[i := v][..n] == s[..n];
    } else {
      TotalUpdate(s[..n], i, v);
      assert s[i := v][..n] == s[..n][i := v];
    }
  }

  lemma {:induction false} TotalOfZeros(s: seq<int>)
    requires forall i :: 0 <= i < |s| ==> s[i] == 0
    ensures Total(s) == 0
  {
    if s != [] { TotalOfZeros(s[..|s| - 1]); }
  }

  /** The buckets partition the calls: each counter holds its own rows, and together they hold
      every row of the key once. */
  lemma {:induction false} BucketsPartitionCalls(rows: seq<CallRow>, keyOf: KeyOf, key: int, first: int)
    ensures var acc := Tally(rows, keyOf, key, first);
            && (forall i :: 0 <= i < BUCKET_COUNT ==> acc.succ[i] == Cell(rows, keyOf, key, first, i, true))
            && (forall i :: 0 <= i < BUCKET_COUNT ==> acc.fail[i] == Cell(rows, keyOf, key, first, i, false))
            && Total(acc.succ) + Total(acc.fail) == Calls(rows, keyOf, key, first)
  {
    if rows == [] {
      TotalOfZeros(NO_CALLS.succ);
      TotalOfZeros(NO_CALLS.fail);
    } else {
      var before, r := rows[..|rows| - 1], rows[|rows| - 1];
      BucketsPartitionCalls(before, keyOf, key, first);
      if Relevant(r, keyOf, key, first) {
        var acc, i := Tally(before, keyOf, key, first), Index(r.at, first);
        TotalUpdate(acc.succ, i, acc.succ[i] + 1);
        TotalUpdate(acc.fail, i, acc.fail[i] + 1);
      }
    }
  }

  // ------------------------------------------------------------------ order of rows

  function Removed(rows: seq<CallRow>, j: nat): (r: seq<CallRow>)
    requires j < |rows|
    ensures |r| == |rows| - 1
  {
    rows[..j] + rows[j + 1..]
  }

  lemma RemovedMultiset(rows: seq<CallRow>, j: nat)
    requires j < |rows|
    ensures multiset(rows) == multiset(Removed(rows, j)) + multiset{rows[j]}
  {
    assert rows == rows[..j] + [rows[j]] + rows[j + 1..];
  }

  lemma {:induction false} CellRemoved(rows: seq<CallRow>, j: nat, keyOf: KeyOf, key: int, first: int, i: int, ok: bool)
    requires j < |rows|
    ensures Cell(rows, keyOf, key, first, i, ok)
         == Cell(Removed(rows, j), keyOf, key, first, i, ok)
            + if InCell(rows[j], keyOf, key, first, i, ok) then 1 else 0
  {
    var n := |rows| - 1;
    if j == n {
      assert Removed(rows, j) == rows[..n];
    } else {
      CellRemoved(rows[..n], j, keyOf, key, first, i, ok);
      assert Removed(rows, j)[..n - 1] == Removed(rows[..n], j);
    }
  }

  lemma {:induction false} CellIgnoresOrder(a: seq<CallRow>, b: seq<CallRow>,
                                            keyOf: KeyOf, key: int, first: int, i: int, ok: bool)
    requires multiset(a) == multiset(b)
    ensures Cell(a, keyOf, key, first, i, ok) == Cell(b, keyOf, key, first, i, ok)
    decreases |a|
  {
    if a == [] {
      assert |multiset(b)| == 0;
      assert b == [];
    } else {
      var n := |a| - 1;
      assert a[n] in multiset(b);
      var j :| 0 <= j < |b| && b[j] == a[n];
      RemovedMultiset(a, n);
      RemovedMultiset(b, j);
      assert multiset(Removed(a, n)) == multiset(a) - multiset{a[n]};
      assert multiset(Removed(b, j)) == multiset(b) - multiset{b[j]};
      CellRemoved(a, n, keyOf, key, first, i, ok);
      CellRemoved(b, j, keyOf, key, first, i, ok);
      CellIgnoresOrder(Removed(a, n), Removed(b, j), keyOf, key, first, i, ok);
    }
  }

  predicate Failure(r: CallRow, keyOf: KeyOf, key: int, first: int) { Relevant(r, keyOf, key, first) && !r.success }

  lemma {:induction false} LatestTimes(rows: seq<CallRow>, keyOf: KeyOf, key: int, first: int)
    ensures var acc := Tally(rows, keyOf, key, first);
            && acc.lastCall >= 0 && acc.lastErrAt >= 0
            && (forall r :: r in rows && Relevant(r, keyOf, key, first) ==> Unix(r.at) <= acc.lastCall)
            && (forall r :: r in rows && Failure(r, keyOf, key, first) ==> Unix(r.at) <= acc.lastErrAt)
            && (acc.lastCall > 0 ==>
                  exists r :: r in rows && Relevant(r, keyOf, key, first) && Unix(r.at) == acc.lastCall)
            && (acc.lastErrAt > 0 ==>
                  exists r :: r in rows && Failure(r, keyOf, key, first) && Unix(r.at) == acc.lastErrAt)
  {
    if rows != [] {
      var before, last := rows[..|rows| - 1], rows[|rows| - 1];
      LatestTimes(before, keyOf, key, first);
      assert rows == before + [last];
      assert forall r :: r in before ==> r in rows;
      assert last in rows;
    }
  }

  /** Counters, last call and last error time are the same for every order of the rows. */
  lemma SnapshotIgnoresOrder(a: seq<CallRow>, b: seq<CallRow>, keyOf: KeyOf, key: int, first: int)
    requires multiset(a) == multiset(b)
    ensures var x, y := Tally(a, keyOf, key, first), Tally(b, keyOf, key, first);
            x.succ == y.succ && x.fail == y.fail && x.lastCall == y.lastCall && x.lastErrAt == y.lastErrAt
  {
    var x, y := Tally(a, keyOf, key, first), Tally(b, keyOf, key, first);
    BucketsPartitionCalls(a, keyOf, key, first);
    BucketsPartitionCalls(b, keyOf, key, first);
    forall i | 0 <= i < BUCKET_COUNT ensures x.succ[i] == y.succ[i] && x.fail[i] == y.fail[i] {
      CellIgnoresOrder(a, b, keyOf, key, first, i, true);
      CellIgnoresOrder(a, b, keyOf, key, first, i, false);
    }
    LatestTimes(a, keyOf, key, first);
    LatestTimes(b, keyOf, key, first);
    SameRows(a, b);
  }

  lemma SameRows(a: seq<CallRow>, b: seq<CallRow>)
    requires multiset(a) == multiset(b)
    ensures forall r :: r in a <==> r in b
  {
    forall r ensures r in a <==> r in b { assert r in a <==> r in multiset(a); assert r in b <==> r in multiset(b); }
  }

  /** A failure in the latest failing second. */
  predicate LatestFailure(rows: seq<CallRow>, r: CallRow, keyOf: KeyOf, key: int, first: int) {
    r in rows && Failure(r, keyOf, key, first) && Unix(r.at) == Tally(rows, keyOf, key, first).lastErrAt
  }

  lemma {:induction false} MessageOfLatest(rows: seq<CallRow>, keyOf: KeyOf, key: int, first: int)
    requires forall r :: r in rows ==> r.at >= 0
    requires exists r :: r in rows && Failure(r, keyOf, key, first)
    ensures var shown := Tally(rows, keyOf, key, first).lastErrMsg;
            exists r :: LatestFailure(rows, r, keyOf, key, first) && r.message == shown
  {
    var before, last := rows[..|rows| - 1], rows[|rows| - 1];
    assert rows == before + [last];
    LatestTimes(before, keyOf, key, first);
    if forall r :: r in before ==> !Failure(r, keyOf, key, first) { NoFailureNoTime(before, keyOf, key, first); }
    if Failure(last, keyOf, key, first) && Unix(last.at) >= Tally(before, keyOf, key, first).lastErrAt {
      assert LatestFailure(rows, last, keyOf, key, first);
    } else {
      MessageOfLatest(before, keyOf, key, first);
      var r :| LatestFailure(before, r, keyOf, key, first) && r.message == Tally(before, keyOf, key, first).lastErrMsg;
      assert LatestFailure(rows, r, keyOf, key, first);
    }
  }

  lemma {:induction false} NoFailureNoTime(rows: seq<CallRow>, keyOf: KeyOf, key: int, first: int)
    requires forall r :: r in rows ==> !Failure(r, keyOf, key, first)
    ensures Tally(rows, keyOf, key, first).lastErrAt == 0
  {
    if rows != [] {
      assert rows[|rows| - 1] in rows;
      NoFailureNoTime(rows[..|rows| - 1], keyOf, key, first);
    }
  }

  /** Any of the latest failures can be the one whose message is shown. */
  lemma AnyLatestCanShow(rows: seq<CallRow>, j: nat, keyOf: KeyOf, key: int, first: int)
    requires j < |rows| && LatestFailure(rows, rows[j], keyOf, key, first)
    ensures var moved := Removed(rows, j) + [rows[j]];
            multiset(moved) == multiset(rows) && Tally(moved, keyOf, key, first).lastErrMsg == rows[j].message
  {
    var rest := Removed(rows, j);
    var moved := rest + [rows[j]];
    RemovedMultiset(rows, j);
    assert moved[..|rest|] == rest;
    SnapshotIgnoresOrder(moved, rows, keyOf, key, first);
    LatestTimes(moved, keyOf, key, first);
  }

  ghost predicate MessageIgnoresOrder(rows: seq<CallRow>, keyOf: KeyOf, key: int, first: int) {
    forall other: seq<CallRow> :: multiset(other) == multiset(rows)
      ==> Tally(other, keyOf, key, first).lastErrMsg == Tally(rows, keyOf, key, first).lastErrMsg
  }

  /** The message shown does not depend on the order of the rows if and only if all failures of
      the latest failing second say the same. */
  lemma MessageStableIff(rows: seq<CallRow>, keyOf: KeyOf, key: int, first: int)
    requires forall r :: r in rows ==> r.at >= 0
    ensures MessageIgnoresOrder(rows, keyOf, key, first)
            <==> forall r, s :: LatestFailure(rows, r, keyOf, key, first) && LatestFailure(rows, s, keyOf, key, first)
                   ==> r.message == s.message
  {
    if MessageIgnoresOrder(rows, keyOf, key, first) {
      forall r | LatestFailure(rows, r, keyOf, key, first)
        ensures r.message == Tally(rows, keyOf, key, first).lastErrMsg
      {
        var j :| 0 <= j < |rows| && rows[j] == r;
        AnyLatestCanShow(rows, j, keyOf, key, first);
      }
    } else {
      var other: seq<CallRow> :| multiset(other) == multiset(rows)
                  && Tally(other, keyOf, key, first).lastErrMsg != Tally(rows, keyOf, key, first).lastErrMsg;
      SameRows(other, rows);
      SnapshotIgnoresOrder(other, rows, keyOf, key, first);
      if exists r :: r in rows && Failure(r, keyOf, key, first) {
        MessageOfLatest(rows, keyOf, key, first);
        MessageOfLatest(other, keyOf, key, first);
        var r :| LatestFailure(rows, r, keyOf, key, first) && r.message == Tally(rows, keyOf, key, first).lastErrMsg;
        var s :| LatestFailure(other, s, keyOf, key, first) && s.message == Tally(other, keyOf, key, first).lastErrMsg;
        assert LatestFailure(rows, s, keyOf, key, first);
      } else {
        NoFailureNoMessage(rows, keyOf, key, first);
        NoFailureNoMessage(other, keyOf, key, first);
      }
    }
  }

  lemma {:induction false} NoFailureNoMessage(rows: seq<CallRow>, keyOf: KeyOf, key: int, first: int)
    requires forall r :: r in rows ==> !Failure(r, keyOf, key, first)
    ensures Tally(rows, keyOf, key, first).lastErrMsg == ""
  {
    if rows != [] {
      assert rows[|rows| - 1] in rows;
      NoFailureNoMessage(rows[..|rows| - 1], keyOf, key, first);
    }
  }

  // ----------------------------------------------------------------------- verdict

  datatype Verdict = Unknown | Healthy | Unhealthy

  predicate WellSized(acc: Acc) { |acc.succ| == BUCKET_COUNT && |acc.fail| == BUCKET_COUNT }

  /** Bucket i is the latest with calls. */
  predicate LatestUsed(acc: Acc, i: int)
    requires WellSized(acc)
  {
    && 0 <= i < BUCKET_COUNT && acc.succ[i] + acc.fail[i] != 0
    && forall j :: i < j < BUCKET_COUNT ==> acc.succ[j] + acc.fail[j] == 0
  }

  /** derivePassiveHealth. */
  method DerivePassiveHealth(enabled: bool, connected: bool, acc: Acc) returns (v: Verdict)
    requires WellSized(acc)
    ensures !enabled ==> v == Unknown
    ensures enabled && connected ==> v == Healthy
    ensures enabled && !connected ==>
              && (v == Unknown <==> forall i :: 0 <= i < BUCKET_COUNT ==> acc.succ[i] + acc.fail[i] == 0)
              && (v == Healthy <==> exists i :: LatestUsed(acc, i) && acc.succ[i] > 0)
  {
    if !enabled { return Unknown; }
    if connected { return Healthy; }
    var i := BUCKET_COUNT - 1;
    while i >= 0
      invariant -1 <= i < BUCKET_COUNT
      invariant forall j :: i < j < BUCKET_COUNT ==> acc.succ[j] + acc.fail[j] == 0
    {
      if acc.succ[i] + acc.fail[i] != 0 {
        assert LatestUsed(acc, i) && forall j :: LatestUsed(acc, j) ==> j == i;
        if acc.succ[i] > 0 { return Healthy; }
        return Unhealthy;
      }
      i := i - 1;
    }
    return Unknown;
  }

  /** Row r of the key lies in the latest ten minutes that have a call of the key. */
  predicate InLatestSlot(rows: seq<CallRow>, r: CallRow, keyOf: KeyOf, key: int, first: int) {
    && r in rows && Relevant(r, keyOf, key, first)
    && forall s :: s in rows && Relevant(s, keyOf, key, first) ==> Index(s.at, first) <= Index(r.at, first)
  }

  lemma {:induction false} CellUsedIff(rows: seq<CallRow>, keyOf: KeyOf, key: int, first: int, i: int, ok: bool)
    ensures Cell(rows, keyOf, key, first, i, ok) > 0 <==> exists r :: r in rows && InCell(r, keyOf, key, first, i, ok)
  {
    if rows != [] {
      var before, last := rows[..|rows| - 1], rows[|rows| - 1];
      CellUsedIff(before, keyOf, key, first, i, ok);
      assert rows == before + [last];
    }
  }

  lemma BucketUsedIff(rows: seq<CallRow>, keyOf: KeyOf, key: int, first: int, i: int)
    requires 0 <= i < BUCKET_COUNT
    ensures var acc := Tally(rows, keyOf, key, first);
            && (acc.succ[i] + acc.fail[i] != 0 <==>
                  exists r :: r in rows && Relevant(r, keyOf, key, first) && Index(r.at, first) == i)
            && (acc.succ[i] > 0 <==> exists r :: r in rows && InCell(r, keyOf, key, first, i, true))
  {
    BucketsPartitionCalls(rows, keyOf, key, first);
    CellUsedIff(rows, keyOf, key, first, i, true);
    CellUsedIff(rows, keyOf, key, first, i, false);
    if r :| r in rows && Relevant(r, keyOf, key, first) && Index(r.at, first) == i {
      assert InCell(r, keyOf, key, first, i, r.success);
    }
  }

  predicate BucketFacts(rows: seq<CallRow>, keyOf: KeyOf, key: int, first: int, acc: Acc, i: int)
    requires 0 <= i < BUCKET_COUNT && WellSized(acc)
  {
    && (acc.succ[i] + acc.fail[i] != 0 <==>
          exists r :: r in rows && Relevant(r, keyOf, key, first) && Index(r.at, first) == i)
    && (acc.succ[i] > 0 <==> exists r :: r in rows && InCell(r, keyOf, key, first, i, true))
  }

  ghost predicate TallyFacts(rows: seq<CallRow>, keyOf: KeyOf, key: int, first: int, acc: Acc) {
    WellSized(acc) && forall i :: 0 <= i < BUCKET_COUNT ==> BucketFacts(rows, keyOf, key, first, acc, i)
  }

  lemma SomethingCounted(rows: seq<CallRow>, keyOf: KeyOf, key: int, first: int, acc: Acc)
    requires TallyFacts(rows, keyOf, key, first, acc)
    ensures (forall i :: 0 <= i < BUCKET_COUNT ==> acc.succ[i] + acc.fail[i] == 0)
            <==> forall r :: r in rows ==> !Relevant(r, keyOf, key, first)
  {
    forall r | r in rows && Relevant(r, keyOf, key, first)
      ensures acc.succ[Index(r.at, first)] + acc.fail[Index(r.at, first)] != 0
    {
      assert BucketFacts(rows, keyOf, key, first, acc, Index(r.at, first));
    }
    forall i | 0 <= i < BUCKET_COUNT && acc.succ[i] + acc.fail[i] != 0
      ensures exists r :: r in rows && Relevant(r, keyOf, key, first)
    {
      assert BucketFacts(rows, keyOf, key, first, acc, i);
    }
  }

  lemma LatestBucketIsLatestSlot(rows: seq<CallRow>, keyOf: KeyOf, key: int, first: int, acc: Acc)
    requires TallyFacts(rows, keyOf, key, first, acc)
    ensures (exists i :: LatestUsed(acc, i) && acc.succ[i] > 0)
            <==> exists r :: InLatestSlot(rows, r, keyOf, key, first) && r.success
  {
    if i :| LatestUsed(acc, i) && acc.succ[i] > 0 {
      assert BucketFacts(rows, keyOf, key, first, acc, i);
      var r :| r in rows && InCell(r, keyOf, key, first, i, true);
      forall s | s in rows && Relevant(s, keyOf, key, first) ensures Index(s.at, first) <= i {
        assert BucketFacts(rows, keyOf, key, first, acc, Index(s.at, first));
      }
      assert InLatestSlot(rows, r, keyOf, key, first);
    }
    if r :| InLatestSlot(rows, r, keyOf, key, first) && r.success {
      var i := Index(r.at, first);
      assert BucketFacts(rows, keyOf, key, first, acc, i);
      assert InCell(r, keyOf, key, first, i, true);
      forall j | i < j < BUCKET_COUNT ensures acc.succ[j] + acc.fail[j] == 0 {
        assert BucketFacts(rows, keyOf, key, first, acc, j);
      }
      assert LatestUsed(acc, i);
    }
  }

  /** End to end, from log rows to verdict: a disconnected enabled service is unknown without
      calls in the window, and otherwise healthy exactly if the latest ten-minute slot with a
      call has a successful one. */
  method HealthOfRows(enabled: bool, connected: bool, rows: seq<CallRow>, keyOf: KeyOf, key: int, first: int)
    returns (v: Verdict)
    ensures enabled && !connected ==>
              && (v == Unknown <==> forall r :: r in rows ==> !Relevant(r, keyOf, key, first))
              && (v == Healthy <==> exists r :: InLatestSlot(rows, r, keyOf, key, first) && r.success)
    ensures !enabled ==> v == Unknown
    ensures enabled && connected ==> v == Healthy
  {
    var acc := Tally(rows, keyOf, key, first);
    v := DerivePassiveHealth(enabled, connected, acc);
    forall i | 0 <= i < BUCKET_COUNT ensures BucketFacts(rows, keyOf, key, first, acc, i) {
      BucketUsedIff(rows, keyOf, key, first, i);
    }
    SomethingCounted(rows, keyOf, key, first, acc);
    LatestBucketIsLatestSlot(rows, keyOf, key, first, acc);
  }

  // ------------------------------------------------------------------ the snapshots

  /** One row of the accumulation loop. */
  method CountRow(before: Acc, r: CallRow, first: int) returns (acc: Acc)
    requires WellSized(before)
    ensures acc == if InRange(r, first) then Counted(before, r, first) else before
  {
    acc := before;
    var idx := Quotient(r.at - first, BUCKET_LENGTH);
    if idx < 0 || idx >= BUCKET_COUNT { return; }
    if r.success {
      acc := acc.(succ := acc.succ[idx := acc.succ[idx] + 1]);
    } else {
      acc := acc.(fail := acc.fail[idx := acc.fail[idx] + 1]);
      if Unix(r.at) >= acc.lastErrAt { acc := acc.(lastErrAt := Unix(r.at), lastErrMsg := r.message); }
    }
    if Unix(r.at) > acc.lastCall { acc := acc.(lastCall := Unix(r.at)); }
  }

  predicate Accumulated(accs: map<int, Acc>, rows: seq<CallRow>, keyOf: KeyOf, k: int, first: int) {
    Tally(rows, keyOf, k, first) == if k in accs then accs[k] else NO_CALLS
  }

  method AccumulateRows(rows: seq<CallRow>, keyOf: KeyOf, first: int) returns (accs: map<int, Acc>)
    ensures forall k :: Accumulated(accs, rows, keyOf, k, first)
  {
    accs := map[];
    for i := 0 to |rows|
      invariant forall k :: Accumulated(accs, rows[..i], keyOf, k, first)
    {
      ghost var done, upTo := accs, rows[..i + 1];
      assert upTo[..i] == rows[..i];
      var r := rows[i];
      var key := keyOf(r.service);
      assert Accumulated(done, rows[..i], keyOf, key, first);
      var before := if key in accs then accs[key] else NO_CALLS;
      var acc := CountRow(before, r, first);
      accs := accs[key := acc];
      forall k ensures Accumulated(accs, upTo, keyOf, k, first) {
        assert Accumulated(done, rows[..i], keyOf, k, first);
      }
    }
    assert rows[..|rows|] == rows;
  }

  /** buildSnapshotsFromRows: one accumulator per key met, then a snapshot per key asked for. */
  method BuildSnapshots(rows: seq<CallRow>, keyOf: KeyOf, keys: seq<int>, first: int) returns (snaps: map<int, Acc>)
    ensures forall k :: k in snaps <==> k in keys
    ensures forall k :: k in keys ==> snaps[k] == Tally(rows, keyOf, k, first)
  {
    var accs := AccumulateRows(rows, keyOf, first);
    snaps := map[];
    for i := 0 to |keys|
      invariant forall k :: k in snaps <==> k in keys[..i]
      invariant forall k :: k in snaps ==> snaps[k] == Tally(rows, keyOf, k, first)
    {
      var key := keys[i];
      assert Accumulated(accs, rows, keyOf, key, first);
      snaps := snaps[key := if key in accs then accs[key] else NO_CALLS];
    }
  }

  // -------------------------------------------------------------------- the cache

  function Elements(s: seq<int>): set<int> { set x | x in s }

  predicate NoRepeats(s: seq<int>) { forall i, j :: 0 <= i < j < |s| ==> s[i] != s[j] }

  /** sameIDSets: compares sizes, then membership one way. */
  method SameIDSets(cached: set<int>, want: seq<int>) returns (same: bool)
    ensures same == (|cached| == |want| && forall id :: id in want ==> id in cached)
  {
    if |cached| != |want| { return false; }
    for i := 0 to |want|
      invariant forall id :: id in want[..i] ==> id in cached
    {
      var id := want[i];
      if id !in cached {
        assert id in want;
        return false;
      }
    }
    assert want[..|want|] == want;
    return true;
  }

  lemma {:induction false} SizeOfElements(s: seq<int>)
    ensures |Elements(s)| <= |s|
    ensures |Elements(s)| == |s| <==> NoRepeats(s)
  {
    if s == [] {
      assert Elements(s) == {};
    } else {
      var before, last := s[..|s| - 1], s[|s| - 1];
      SizeOfElements(before);
      assert s == before + [last];
      assert Elements(s) == Elements(before) + {last};
    }
  }

  lemma SameSize(a: set<int>, b: set<int>)
    requires a <= b && |a| == |b|
    ensures a == b
  {
    assert b == a + (b - a);
    assert |b| == |a| + |b - a|;
  }

  /** When the test says yes, the sets are equal if and only if the request repeats no id: a
      repeated id can pass for a missing one ([1, 1] for {1, 2}), which is harmless because
      every requested id is cached. */
  lemma SameIDSetsSound(cached: set<int>, want: seq<int>)
    requires |cached| == |want| && forall id :: id in want ==> id in cached
    ensures Elements(want) == cached <==> NoRepeats(want)
    ensures Elements(want) <= cached
  {
    SizeOfElements(want);
    forall id | id in Elements(want) ensures id in cached { assert id in want; }
    if NoRepeats(want) { SameSize(Elements(want), cached); }
  }

  /** For requests without repetitions the test is set equality. */
  lemma SameIDSetsIff(cached: set<int>, want: seq<int>)
    requires NoRepeats(want)
    ensures (|cached| == |want| && forall id :: id in want ==> id in cached) <==> Elements(want) == cached
  {
    SizeOfElements(want);
    if |cached| == |want| && forall id :: id in want ==> id in cached { SameSize(Elements(want), cached); }
  }

  datatype Maybe<T> = Nothing | Just(value: T)

  class HealthCache {
    var builtAt: int
    var ids: set<int>
    var data: Maybe<map<int, Acc>>

    /** Cached snapshots exist for exactly the ids they were built for. */
    predicate Valid()
      reads this
    {
      data.Just? ==> data.value.Keys == ids
    }

    constructor ()
      ensures Valid() && data.Nothing?
    {
      builtAt, ids, data := 0, {}, Nothing;
    }

    /** GetServiceHealthSnapshots: a hit serves the stored snapshots, less than the TTL old; a
        miss rebuilds them; either way every requested service has one. rows is what the query
        would return, Nothing when it fails. */
    method GetSnapshots(want: seq<int>, rows: Maybe<seq<CallRow>>, now: int)
      returns (r: Maybe<map<int, Acc>>, hit: bool)
      requires Valid() && now >= 0
      modifies this
      ensures Valid()
      ensures r.Just? ==> r == data && (forall id :: id in want ==> id in r.value) && now - builtAt < CACHE_TTL
      ensures hit ==> r.Just? && r == old(data)
      ensures hit || r.Nothing? ==> ids == old(ids) && data == old(data) && builtAt == old(builtAt)
      ensures !hit ==> (r.Nothing? <==> want == [] || rows.Nothing?)
      ensures !hit && r.Just? ==>
                && builtAt == now && ids == Elements(want)
                && forall id :: id in want ==> r.value[id] == Tally(rows.value, x => x, id, FirstBucket(now))
    {
      if want == [] { return Nothing, false; }
      if data.Just? && now - builtAt < CACHE_TTL {
        var same := SameIDSets(ids, want);
        if same { return data, true; }
      }
      if rows.Nothing? { return Nothing, false; }
      var snaps := BuildSnapshots(rows.value, x => x, want, FirstBucket(now));
      assert forall k :: k in snaps.Keys <==> k in Elements(want);
      builtAt, ids, data := now, Elements(want), Just(snaps);
      return data, false;
    }
  }
}
