/** Retention of the diagnostics store: by age, then by size in batches, at most once an interval. */
module Diagnostics {
  import opened Results
  import opened Timestamps

  datatype Row = Row(seqNo: nat, ts: string, text: string)

  const BATCH := 500

  /** The size in use, a function of the two tables' contents that the store cannot predict. */
  type Size = (seq<Row>, seq<Row>) -> int

  // ---- What retention leaves ---------------------------------------------

  /** The age pass: rows not stamped before the cutoff, in order. */
  function NotBefore(rows: seq<Row>, cutoff: string): seq<Row> {
    if rows == [] then []
    else
      NotBefore(rows[..|rows| - 1], cutoff)
      + if TextBefore(rows[|rows| - 1].ts, cutoff) then [] else [rows[|rows| - 1]]
  }

  function Aged(rows: seq<Row>, cutoff: Option<string>): seq<Row> {
    if cutoff.Some? then NotBefore(rows, cutoff.value) else rows
  }

  /** Without the n oldest rows of the table, by sequence number. */
  function Drop(rows: seq<Row>, n: nat): seq<Row> {
    if n <= |rows| then rows[n..] else []
  }

  /** After k batches from both tables. */
  function SizeAfter(size: Size, records: seq<Row>, chunks: seq<Row>, k: nat): int {
    size(Drop(records, BATCH * k), Drop(chunks, BATCH * k))
  }

  /** The size pass stops after the first number of batches that meets the budget or empties the store. */
  ghost predicate StopsAfter(size: Size, budget: int, records: seq<Row>, chunks: seq<Row>, k: nat) {
    && (forall j: nat | j < k :: SizeAfter(size, records, chunks, j) > budget)
    && (SizeAfter(size, records, chunks, k) <= budget || (Drop(records, BATCH * k) == [] && Drop(chunks, BATCH * k) == []))
  }

  lemma {:induction false} KeptByAge(rows: seq<Row>, cutoff: string)
    ensures forall r :: r in NotBefore(rows, cutoff) <==> r in rows && !TextBefore(r.ts, cutoff)
    ensures |NotBefore(rows, cutoff)| <= |rows|
  {
    if rows != [] {
      KeptByAge(rows[..|rows| - 1], cutoff);
      assert rows == rows[..|rows| - 1] + [rows[|rows| - 1]];
    }
  }

  /** Over stored stamps the age pass deletes exactly what is older than the cutoff. */
  lemma AgePassDeletesTheOlder(rows: seq<Row>, r: Row, t: Time, cutoff: Time)
    requires r in rows && r.ts == IsoFormat(t) && Timestamps.Valid(t) && Timestamps.Valid(cutoff)
    ensures r !in NotBefore(rows, IsoFormat(cutoff)) <==> Earlier(t, cutoff)
  {
    KeptByAge(rows, IsoFormat(cutoff));
    StampsCompareAsTimes(t, cutoff);
  }

  lemma DropAgain(rows: seq<Row>, n: nat, m: nat)
    ensures Drop(Drop(rows, n), m) == Drop(rows, n + m)
    ensures Drop(rows, 0) == rows && |Drop(rows, n)| <= |rows|
  {
  }

  // ---- The store ---------------------------------------------------------

  class DiagnosticsStore {
    var records: seq<Row>
    var chunks: seq<Row>
    var lastSweep: Option<int>

    constructor ()
      ensures records == [] && chunks == [] && lastSweep.None?
    {
      records, chunks, lastSweep := [], [], None;
    }

    /** Deletes from one table what is stamped before the cutoff. */
    static method DeleteBefore(rows: seq<Row>, cutoff: string) returns (kept: seq<Row>, deleted: nat)
      ensures kept == NotBefore(rows, cutoff) && deleted == |rows| - |kept|
    {
      kept, deleted := [], 0;
      for i := 0 to |rows|
        invariant kept == NotBefore(rows[..i], cutoff) && deleted == i - |kept|
      {
        assert rows[..i + 1][..i] == rows[..i];
        if TextBefore(rows[i].ts, cutoff) { deleted := deleted + 1; } else { kept := kept + [rows[i]]; }
      }
      assert rows[..|rows|] == rows;
    }

    static method DeleteOldest(rows: seq<Row>) returns (kept: seq<Row>, deleted: nat)
      ensures kept == Drop(rows, BATCH) && deleted == |rows| - |kept|
    {
      deleted := if |rows| < BATCH then |rows| else BATCH;
      kept := rows[deleted..];
    }

    method AgePass(cutoff: Option<string>) returns (recordsDeleted: nat, chunksDeleted: nat)
      modifies this`records, this`chunks
      ensures records == Aged(old(records), cutoff) && chunks == Aged(old(chunks), cutoff)
      ensures recordsDeleted == |old(records)| - |records| && chunksDeleted == |old(chunks)| - |chunks|
    {
      recordsDeleted, chunksDeleted := 0, 0;
      if cutoff.Some? {
        records, recordsDeleted := DeleteBefore(records, cutoff.value);
        chunks, chunksDeleted := DeleteBefore(chunks, cutoff.value);
      }
    }

    method SizePass(budget: int, size: Size) returns (recordsDeleted: nat, chunksDeleted: nat, ghost batches: nat)
      modifies this`records, this`chunks
      ensures records == Drop(old(records), BATCH * batches) && chunks == Drop(old(chunks), BATCH * batches)
      ensures StopsAfter(size, budget, old(records), old(chunks), batches)
      ensures recordsDeleted == |old(records)| - |records| && chunksDeleted == |old(chunks)| - |chunks|
    {
      recordsDeleted, chunksDeleted, batches := 0, 0, 0;
      while size(records, chunks) > budget
        invariant records == Drop(old(records), BATCH * batches) && chunks == Drop(old(chunks), BATCH * batches)
        invariant forall j: nat | j < batches :: SizeAfter(size, old(records), old(chunks), j) > budget
        invariant recordsDeleted == |old(records)| - |records| && chunksDeleted == |old(chunks)| - |chunks|
        decreases |records| + |chunks|
      {
        var nRecords, nChunks;
        DropAgain(old(records), BATCH * batches, BATCH);
        DropAgain(old(chunks), BATCH * batches, BATCH);
        var keptRecords, keptChunks;
        keptRecords, nRecords := DeleteOldest(records);
        keptChunks, nChunks := DeleteOldest(chunks);
        recordsDeleted, chunksDeleted := recordsDeleted + nRecords, chunksDeleted + nChunks;
        records, chunks := keptRecords, keptChunks;
        if nRecords == 0 && nChunks == 0 {
          break;
        }
        batches := batches + 1;
      }
    }

    /** Age first, then size. The survivors of the size pass are the newest rows of each table,
        as few batches as possible are deleted, and the counts are the rows removed. */
    method ApplyRetention(cutoff: Option<string>, budget: Option<int>, size: Size)
      returns (recordsDeleted: nat, chunksDeleted: nat, ghost batches: nat)
      modifies this`records, this`chunks
      ensures records == Drop(Aged(old(records), cutoff), BATCH * batches)
      ensures chunks == Drop(Aged(old(chunks), cutoff), BATCH * batches)
      ensures if budget.Some?
              then StopsAfter(size, budget.value, Aged(old(records), cutoff), Aged(old(chunks), cutoff), batches)
              else batches == 0
      ensures budget.Some? ==> size(records, chunks) <= budget.value || (records == [] && chunks == [])
      ensures recordsDeleted == |old(records)| - |records| && chunksDeleted == |old(chunks)| - |chunks|
    {
      recordsDeleted, chunksDeleted := AgePass(cutoff);
      batches := 0;
      if budget.Some? {
        var r, c;
        r, c, batches := SizePass(budget.value, size);
        recordsDeleted, chunksDeleted := recordsDeleted + r, chunksDeleted + c;
      }
    }

    /** Sweeps when none was recorded, the write-ahead log has grown, or the interval has passed. */
    method MaybeSweep(now: int, interval: int, grown: bool, cutoff: Option<string>, budget: Option<int>, size: Size)
      returns (counts: Option<(nat, nat)>, ghost batches: nat)
      modifies this
      ensures counts.Some? <==> Due(old(lastSweep), now, interval, grown)
      ensures lastSweep == NextSweep(old(lastSweep), now, interval, grown)
      ensures counts.None? ==> records == old(records) && chunks == old(chunks)
      ensures counts.Some? ==> counts.value == (|old(records)| - |records|, |old(chunks)| - |chunks|)
      ensures counts.Some? ==>
                && records == Drop(Aged(old(records), cutoff), BATCH * batches)
                && chunks == Drop(Aged(old(chunks), cutoff), BATCH * batches)
                && if budget.Some? then
                     StopsAfter(size, budget.value, Aged(old(records), cutoff), Aged(old(chunks), cutoff), batches)
                   else batches == 0
    {
      batches := 0;
      if lastSweep.Some? && !grown && now - lastSweep.value < interval { return None, batches; }
      var r, c;
      r, c, batches := ApplyRetention(cutoff, budget, size);
      lastSweep := Some(now);
      return Some((r, c)), batches;
    }
  }

  // ---- Spacing of sweeps -------------------------------------------------

  predicate Due(last: Option<int>, now: int, interval: int, grown: bool) {
    last.None? || grown || now - last.value >= interval
  }

  function NextSweep(last: Option<int>, now: int, interval: int, grown: bool): Option<int> {
    if Due(last, now, interval, grown) then Some(now) else last
  }

  /** A call of the maintenance step: when, and whether the log had grown. */
  datatype Call = Call(now: int, grown: bool)

  /** Which of the calls sweep, and the time of the last sweep that is recorded after them. */
  function Sweeps(calls: seq<Call>, interval: int): (seq<nat>, Option<int>) {
    if calls == [] then ([], None)
    else
      var (before, last) := Sweeps(calls[..|calls| - 1], interval);
      var call := calls[|calls| - 1];
      (if Due(last, call.now, interval, call.grown) then before + [|calls| - 1] else before,
       NextSweep(last, call.now, interval, call.grown))
  }

  /** The sweep at d is the last one before the call c. */
  ghost predicate PreviousSweep(swept: seq<nat>, d: nat, c: nat) {
    d in swept && d < c && forall e | e in swept :: e <= d || e >= c
  }

  /** A call is to sweep if it is the first, finds the log grown, or comes an interval or more
      after the sweep before it. */
  ghost predicate ShouldSweep(calls: seq<Call>, interval: int, swept: seq<nat>, c: nat)
    requires c < |calls|
  {
    c == 0 || calls[c].grown || forall d: nat | PreviousSweep(swept, d, c) :: calls[c].now - calls[d].now >= interval
  }

  /** Exactly the calls that should have swept, in their order. */
  ghost predicate RightlySwept(calls: seq<Call>, interval: int, swept: seq<nat>) {
    && (forall i | 0 <= i < |swept| :: swept[i] < |calls|)
    && (forall i, j | 0 <= i < j < |swept| :: swept[i] < swept[j])
    && (forall c: nat | c < |calls| :: c in swept <==> ShouldSweep(calls, interval, swept, c))
  }

  /** The recorded time is that of the last sweep, and the last call is not an interval past it. */
  ghost predicate LastSwept(calls: seq<Call>, interval: int, swept: seq<nat>, last: Option<int>) {
    if calls == [] then swept == [] && last.None?
    else
      && swept != [] && swept[|swept| - 1] < |calls| && last == Some(calls[swept[|swept| - 1]].now)
      && calls[|calls| - 1].now - calls[swept[|swept| - 1]].now < interval
  }

  lemma SweptUpTo(calls: seq<Call>, interval: int, before: seq<nat>, swept: seq<nat>, c: nat)
    requires calls != [] && RightlySwept(calls[..|calls| - 1], interval, before) && c < |calls| - 1
    requires swept == before || swept == before + [|calls| - 1]
    ensures c in swept <==> ShouldSweep(calls, interval, swept, c)
  {
    var front := calls[..|calls| - 1];
    assert forall e | e < |calls| - 1 :: e in swept <==> e in before;
    forall d: nat
      ensures PreviousSweep(swept, d, c) <==> PreviousSweep(before, d, c)
    {
    }
    assert ShouldSweep(calls, interval, swept, c) <==> ShouldSweep(front, interval, before, c);
  }

  lemma PreviousIsLast(calls: seq<Call>, interval: int, before: seq<nat>, swept: seq<nat>, n: nat)
    requires n == |calls| - 1
    requires calls != [] && RightlySwept(calls[..|calls| - 1], interval, before) && before != []
    requires swept == before || swept == before + [|calls| - 1]
    ensures forall d: nat :: PreviousSweep(swept, d, n) <==> d == before[|before| - 1]
  {
    assert forall e | e != n :: e in swept <==> e in before;
    assert before[|before| - 1] in before;
    forall e | e in before
      ensures e <= before[|before| - 1] < n
    {
      var i :| 0 <= i < |before| && before[i] == e;
    }
  }

  lemma LastIsRight(calls: seq<Call>, interval: int, before: seq<nat>, last: Option<int>, swept: seq<nat>, n: nat)
    requires n == |calls| - 1 && RightlySwept(calls[..n], interval, before) && LastSwept(calls[..n], interval, before, last)
    requires swept == if Due(last, calls[n].now, interval, calls[n].grown) then before + [n] else before
    ensures n in swept <==> ShouldSweep(calls, interval, swept, n)
  {
    if before != [] {
      PreviousIsLast(calls, interval, before, swept, n);
      assert calls[..n][before[|before| - 1]] == calls[before[|before| - 1]];
    }
    assert n !in before;
  }

  lemma SweptIncreases(calls: seq<Call>, interval: int, before: seq<nat>, n: nat)
    requires n == |calls| - 1 && RightlySwept(calls[..n], interval, before)
    ensures var swept := before + [n];
            (forall i | 0 <= i < |swept| :: swept[i] < |calls|) && forall i, j | 0 <= i < j < |swept| :: swept[i] < swept[j]
  {
  }

  lemma OneMoreCall(calls: seq<Call>, interval: int, before: seq<nat>, last: Option<int>, swept: seq<nat>, n: nat)
    requires n == |calls| - 1 && RightlySwept(calls[..n], interval, before) && LastSwept(calls[..n], interval, before, last)
    requires swept == if Due(last, calls[n].now, interval, calls[n].grown) then before + [n] else before
    ensures RightlySwept(calls, interval, swept)
  {
    forall c: nat | c < |calls|
      ensures c in swept <==> ShouldSweep(calls, interval, swept, c)
    {
      if c < n {
        SweptUpTo(calls, interval, before, swept, c);
      } else {
        LastIsRight(calls, interval, before, last, swept, n);
      }
    }
    SweptIncreases(calls, interval, before, n);
  }

  /** Exactly the right calls sweep, whatever the clock does. */
  lemma {:induction false} SweepsAreSpaced(calls: seq<Call>, interval: int)
    requires interval > 0
    ensures var (swept, last) := Sweeps(calls, interval);
            RightlySwept(calls, interval, swept) && LastSwept(calls, interval, swept, last)
  {
    if calls != [] {
      var n := |calls| - 1;
      var (before, last) := Sweeps(calls[..n], interval);
      SweepsAreSpaced(calls[..n], interval);
      OneMoreCall(calls, interval, before, last, Sweeps(calls, interval).0, n);
      assert before != [] ==> calls[..n][before[|before| - 1]] == calls[before[|before| - 1]];
    }
  }

  /** So with a clock that does not go back, a sweep that no grown log called for is at least an
      interval after every earlier one. */
  lemma SweepsAreApart(calls: seq<Call>, interval: int, swept: seq<nat>, i: nat, j: nat)
    requires RightlySwept(calls, interval, swept) && i < j < |swept| && !calls[swept[j]].grown
    requires forall a, b | 0 <= a < b < |calls| :: calls[a].now <= calls[b].now
    ensures calls[swept[j]].now - calls[swept[i]].now >= interval
  {
    var d := swept[j - 1];
    assert swept[j] in swept && ShouldSweep(calls, interval, swept, swept[j]);
    NeighbourIsPrevious(swept, j);
    assert i < j - 1 ==> swept[i] < d;
  }

  lemma NeighbourIsPrevious(swept: seq<nat>, j: nat)
    requires 0 < j < |swept| && forall a, b | 0 <= a < b < |swept| :: swept[a] < swept[b]
    ensures PreviousSweep(swept, swept[j - 1], swept[j])
  {
    forall e | e in swept
      ensures e <= swept[j - 1] || e >= swept[j]
    {
      var i :| 0 <= i < |swept| && swept[i] == e;
    }
  }

  // ---- Oldest first? -----------------------------------------------------

  ghost predicate StampedInOrder(rows: seq<Row>) {
    forall i, j | 0 <= i < j < |rows| :: TextAtMost(rows[i].ts, rows[j].ts)
  }

  /** A batch deletes nothing that is newer than what it leaves in the other table. */
  ghost predicate OldestFirst(records: seq<Row>, chunks: seq<Row>) {
    && (forall i, j | 0 <= i < |records| && i < BATCH <= j < |chunks| :: TextAtMost(records[i].ts, chunks[j].ts))
    && (forall i, j | 0 <= i < |chunks| && i < BATCH <= j < |records| :: TextAtMost(chunks[i].ts, records[j].ts))
  }

  /** The last row that a batch takes from one table is no newer than the first it leaves in the other. */
  predicate BoundariesMeet(records: seq<Row>, chunks: seq<Row>) {
    && (|records| > 0 && |chunks| > BATCH ==>
          TextAtMost(records[if |records| < BATCH then |records| - 1 else BATCH - 1].ts, chunks[BATCH].ts))
    && (|chunks| > 0 && |records| > BATCH ==>
          TextAtMost(chunks[if |chunks| < BATCH then |chunks| - 1 else BATCH - 1].ts, records[BATCH].ts))
  }

  lemma {:induction false} TextTransitive(a: string, b: string, c: string)
    requires TextAtMost(a, b) && TextAtMost(b, c)
    ensures TextAtMost(a, c)
  {
    if a != "" && b != "" && c != "" && a[0] == b[0] == c[0] {
      TextTransitive(a[1..], b[1..], c[1..]);
    }
  }

  lemma TextChain(a: string, b: string, c: string, d: string)
    requires TextAtMost(a, b) && TextAtMost(b, c) && TextAtMost(c, d)
    ensures TextAtMost(a, d)
  {
    TextTransitive(a, b, c);
    TextTransitive(a, c, d);
  }

  lemma CrossBoundary(taken: seq<Row>, left: seq<Row>)
    requires StampedInOrder(taken) && StampedInOrder(left) && |taken| > 0 && |left| > BATCH
    requires TextAtMost(taken[if |taken| < BATCH then |taken| - 1 else BATCH - 1].ts, left[BATCH].ts)
    ensures forall i, j | 0 <= i < |taken| && i < BATCH <= j < |left| :: TextAtMost(taken[i].ts, left[j].ts)
  {
    var edge := if |taken| < BATCH then |taken| - 1 else BATCH - 1;
    forall i, j | 0 <= i < |taken| && i < BATCH <= j < |left|
      ensures TextAtMost(taken[i].ts, left[j].ts)
    {
      Irreflexive(taken[edge].ts);
      Irreflexive(left[BATCH].ts);
      TextChain(taken[i].ts, taken[edge].ts, left[BATCH].ts, left[j].ts);
    }
  }

  /** With each table in time order, a batch deletes the oldest rows of both tables taken
      together exactly when the boundaries meet. */
  lemma BatchIsOldestFirstIff(records: seq<Row>, chunks: seq<Row>)
    requires StampedInOrder(records) && StampedInOrder(chunks)
    ensures OldestFirst(records, chunks) <==> BoundariesMeet(records, chunks)
  {
    if BoundariesMeet(records, chunks) {
      if |records| > 0 && |chunks| > BATCH { CrossBoundary(records, chunks); }
      if |chunks| > 0 && |records| > BATCH { CrossBoundary(chunks, records); }
    }
  }

  function NewYear(year: nat): Time { Time(year, 1, 1, 0, 0, 0, 0) }

  /** One record of 2026 beside 501 chunks of 2025: the new record goes and an old chunk stays. */
  lemma NewRecordGoesFirst()
    ensures var records := [Row(1, IsoFormat(NewYear(2026)), "")];
            var chunks := seq(501, (i: nat) => Row(i + 1, IsoFormat(NewYear(2025)), ""));
            && StampedInOrder(records) && StampedInOrder(chunks) && !OldestFirst(records, chunks)
            && Drop(records, BATCH) == [] && Drop(chunks, BATCH) != []
  {
    var records := [Row(1, IsoFormat(NewYear(2026)), "")];
    var chunks := seq(501, (i: nat) => Row(i + 1, IsoFormat(NewYear(2025)), ""));
    assert records[0].ts == IsoFormat(NewYear(2026)) && chunks[BATCH].ts == IsoFormat(NewYear(2025));
    assert FirstDifference(NewYear(2025), NewYear(2026), 0);
    StampsCompareAsTimes(NewYear(2025), NewYear(2026));
    Irreflexive(IsoFormat(NewYear(2025)));
    assert !TextAtMost(records[0].ts, chunks[BATCH].ts);
  }
}
