/** The append-only journal, its filtered reads, and the loop that follows it. */
module Journals {
  import opened Results
  import opened Timestamps

  /** A journal row: the columns that reads filter on, and the rest. */
  datatype Event = Event(seqNo: nat, ts: string, job: Option<string>, run: Option<string>, composition: Option<string>,
                         instance: Option<string>, session: Option<string>, kind: string, payload: string)

  datatype Filter = Filter(job: Option<string>, run: Option<string>, composition: Option<string>,
                           instance: Option<string>, session: Option<string>, kind: Option<string>,
                           after: Option<nat>, since: Option<string>, until: Option<string>)

  /** A clause on a column that may be null: a null never matches. */
  predicate Agrees(wanted: Option<string>, column: Option<string>) {
    wanted.None? || column == wanted
  }

  predicate Matches(e: Event, f: Filter) {
    && Agrees(f.job, e.job) && Agrees(f.run, e.run) && Agrees(f.composition, e.composition)
    && Agrees(f.instance, e.instance) && Agrees(f.session, e.session)
    && (f.kind.Some? ==> e.kind == f.kind.value)
    && (f.after.Some? ==> e.seqNo > f.after.value)
    && (f.since.Some? ==> TextAtMost(f.since.value, e.ts))
    && (f.until.Some? ==> TextAtMost(e.ts, f.until.value))
  }

  function Selected(log: seq<Event>, f: Filter): seq<Event> {
    if log == [] then []
    else Selected(log[..|log| - 1], f) + if Matches(log[|log| - 1], f) then [log[|log| - 1]] else []
  }

  function Reversed(s: seq<Event>): (r: seq<Event>)
    ensures |r| == |s|
  {
    if s == [] then [] else [s[|s| - 1]] + Reversed(s[..|s| - 1])
  }

  /** A negative limit is no limit. */
  function Limited(s: seq<Event>, limit: Option<int>): seq<Event> {
    if limit.Some? && 0 <= limit.value < |s| then s[..limit.value] else s
  }

  /** Sequence numbers count up from 1, and `last` is the highest ever given out. */
  ghost predicate InOrder(log: seq<Event>, last: nat) {
    && (forall i | 0 <= i < |log| :: 1 <= log[i].seqNo <= last)
    && (forall i, j | 0 <= i < j < |log| :: log[i].seqNo < log[j].seqNo)
  }

  // ---- The store ---------------------------------------------------------

  class Journal {
    var log: seq<Event>
    var last: nat

    ghost predicate Valid()
      reads this
    {
      InOrder(log, last)
    }

    constructor ()
      ensures Valid() && log == []
    {
      log, last := [], 0;
    }

    method Append(e: Event) returns (seqNo: nat)
      requires Valid()
      modifies this
      ensures Valid() && seqNo == old(last) + 1 == last
      ensures log == old(log) + [e.(seqNo := seqNo)]
    {
      last := last + 1;
      seqNo := last;
      log := log + [e.(seqNo := seqNo)];
    }

    /** The rows that satisfy every given clause, by sequence number either way, cut to the limit. */
    method Query(f: Filter, limit: Option<int>, descending: bool) returns (rows: seq<Event>)
      ensures rows == Limited(if descending then Reversed(Selected(log, f)) else Selected(log, f), limit)
    {
      rows := [];
      for i := 0 to |log|
        invariant rows == Selected(log[..i], f)
      {
        assert log[..i + 1][..i] == log[..i];
        if Matches(log[i], f) { rows := rows + [log[i]]; }
      }
      assert log[..|log|] == log;
      if descending { rows := Turned(rows); }
      if limit.Some? && 0 <= limit.value < |rows| { rows := rows[..limit.value]; }
    }

    method AppendAll(events: seq<Event>)
      requires Valid()
      modifies this
      ensures Valid() && old(log) <= log && |log| == |old(log)| + |events| && old(last) <= last
      ensures forall i | |old(log)| <= i < |log| :: log[i].seqNo > old(last)
    {
      for i := 0 to |events|
        invariant Valid() && old(log) <= log && |log| == |old(log)| + i && old(last) <= last
        invariant forall j | |old(log)| <= j < |log| :: log[j].seqNo > old(last)
      {
        var _ := Append(events[i]);
      }
    }
  }

  lemma ReversedSnoc(s: seq<Event>, e: Event)
    ensures Reversed(s + [e]) == [e] + Reversed(s)
  {
    assert (s + [e])[..|s|] == s;
  }

  lemma {:induction false} ReversedAt(s: seq<Event>, i: nat)
    requires i < |s|
    ensures Reversed(s)[i] == s[|s| - 1 - i]
  {
    if i > 0 { ReversedAt(s[..|s| - 1], i - 1); }
  }

  /** A descending read cut to n rows, turned around, is the last n matching rows. */
  lemma NewestInOrder(s: seq<Event>, limit: Option<int>)
    ensures Reversed(Limited(Reversed(s), limit)) == s[Skipped(s, limit)..]
  {
    var r := Limited(Reversed(s), limit);
    var skip := Skipped(s, limit);
    assert |r| == |s| - skip;
    forall i | 0 <= i < |r|
      ensures Reversed(r)[i] == s[skip + i]
    {
      ReversedAt(r, i);
      ReversedAt(s, |r| - 1 - i);
    }
  }

  function Skipped(s: seq<Event>, limit: Option<int>): nat {
    if limit.Some? && 0 <= limit.value < |s| then |s| - limit.value else 0
  }

  // ---- Reading and appending ---------------------------------------------

  lemma {:induction false} SelectedConcat(a: seq<Event>, b: seq<Event>, f: Filter)
    ensures Selected(a + b, f) == Selected(a, f) + Selected(b, f)
  {
    if b == [] {
      assert a + b == a;
    } else {
      assert (a + b)[..|a + b| - 1] == a + b[..|b| - 1];
      SelectedConcat(a, b[..|b| - 1], f);
    }
  }

  /** What is selected is the matching part of the log, in the log's order. */
  lemma {:induction false} SelectedMeans(log: seq<Event>, f: Filter, last: nat)
    requires InOrder(log, last)
    ensures InOrder(Selected(log, f), last)
    ensures forall e :: e in Selected(log, f) <==> e in log && Matches(e, f)
  {
    if log != [] {
      var front := log[..|log| - 1];
      SelectedMeans(front, f, log[|log| - 1].seqNo - 1);
      assert log == front + [log[|log| - 1]];
    }
  }

  /** A cursor that every old matching row is at or below, and every new row above, separates them. */
  lemma {:induction false} NothingBelow(log: seq<Event>, f: Filter, cursor: nat)
    requires f.after.None? && forall e | e in log && Matches(e, f) :: e.seqNo <= cursor
    ensures Selected(log, f.(after := Some(cursor))) == []
  {
    if log != [] {
      NothingBelow(log[..|log| - 1], f, cursor);
      assert log[|log| - 1] in log;
    }
  }

  lemma {:induction false} AllAbove(log: seq<Event>, f: Filter, cursor: nat)
    requires f.after.None? && forall i | 0 <= i < |log| :: log[i].seqNo > cursor
    ensures Selected(log, f.(after := Some(cursor))) == Selected(log, f)
  {
    if log != [] { AllAbove(log[..|log| - 1], f, cursor); }
  }

  /** The cursor of a reader that has shown everything up to the end of the log. */
  ghost predicate CaughtUp(log: seq<Event>, f: Filter, cursor: nat, last: nat) {
    cursor <= last && forall e | e in log && Matches(e, f) :: e.seqNo <= cursor
  }

  /** A poll from a caught-up cursor reads exactly the matching rows appended since. */
  lemma PollReadsTheRest(earlier: seq<Event>, log: seq<Event>, f: Filter, cursor: nat, last: nat)
    requires f.after.None? && earlier <= log && CaughtUp(earlier, f, cursor, last)
    requires forall i | |earlier| <= i < |log| :: log[i].seqNo > last
    ensures Selected(log, f) == Selected(earlier, f) + Selected(log, f.(after := Some(cursor)))
  {
    var added := log[|earlier|..];
    assert log == earlier + added;
    NothingBelow(earlier, f, cursor);
    AllAbove(added, f, cursor);
    SelectedConcat(earlier, added, f);
    SelectedConcat(earlier, added, f.(after := Some(cursor)));
  }

  // ---- Following ---------------------------------------------------------

  /** The highest sequence number shown so far. */
  method HighestOf(cursor: nat, rows: seq<Event>) returns (highest: nat)
    ensures highest >= cursor && forall e | e in rows :: e.seqNo <= highest
    ensures highest == cursor || exists e :: e in rows && e.seqNo == highest
  {
    highest := cursor;
    for i := 0 to |rows|
      invariant highest >= cursor && forall e | e in rows[..i] :: e.seqNo <= highest
      invariant highest == cursor || exists e :: e in rows[..i] && e.seqNo == highest
    {
      assert rows[..i + 1] == rows[..i] + [rows[i]];
      if rows[i].seqNo > highest { highest := rows[i].seqNo; }
    }
    assert rows[..|rows|] == rows;
  }

  lemma ShownIsCaughtUp(log: seq<Event>, f: Filter, skip: nat, cursor: nat, last: nat)
    requires InOrder(log, last) && skip <= |Selected(log, f)| && cursor <= last
    requires skip == |Selected(log, f)| ==> skip == 0
    requires forall e | e in Selected(log, f)[skip..] :: e.seqNo <= cursor
    ensures CaughtUp(log, f, cursor, last)
  {
    var s := Selected(log, f);
    SelectedMeans(log, f, last);
    forall e | e in log && Matches(e, f)
      ensures e.seqNo <= cursor
    {
      assert e in s;
      var i :| 0 <= i < |s| && s[i] == e;
      assert s[skip..][|s| - 1 - skip] == s[|s| - 1];
    }
  }

  /** The first read: the most recent matching rows, oldest first, and the cursor after them. */
  method ShowRecent(journal: Journal, f: Filter, limit: Option<int>) returns (rows: seq<Event>, cursor: nat)
    requires journal.Valid() && (limit.Some? ==> limit.value != 0)
    ensures rows == Selected(journal.log, f)[Skipped(Selected(journal.log, f), limit)..]
    ensures CaughtUp(journal.log, f, cursor, journal.last)
  {
    rows := journal.Query(f, limit, true);
    NewestInOrder(Selected(journal.log, f), limit);
    rows := Turned(rows);
    cursor := HighestOf(0, rows);
    CursorWithin(journal.log, f, rows, Skipped(Selected(journal.log, f), limit), cursor, journal.last);
  }

  /** One poll, after others have appended: shows what is new and moves the cursor behind it. */
  method Poll(journal: Journal, f: Filter, cursor: nat, appended: seq<Event>) returns (rows: seq<Event>, next: nat)
    requires journal.Valid() && f.after.None? && CaughtUp(journal.log, f, cursor, journal.last)
    modifies journal
    ensures journal.Valid() && old(journal.log) <= journal.log
    ensures Selected(journal.log, f) == Selected(old(journal.log), f) + rows
    ensures CaughtUp(journal.log, f, next, journal.last)
  {
    ghost var before, last := journal.log, journal.last;
    journal.AppendAll(appended);
    PollReadsTheRest(before, journal.log, f, cursor, last);
    rows := journal.Query(f.(after := Some(cursor)), None, false);
    next := HighestOf(cursor, rows);
    StillCaughtUp(before, journal.log, f, cursor, rows, next, last, journal.last);
  }

  /** Shows the most recent `limit` matching rows (0: all of them), then polls; `appended` is what
      others append before each poll. What has been shown by the last poll is the matching part of
      the journal from some point on: nothing missing, nothing twice, nothing out of order. */
  method Follow(journal: Journal, f: Filter, limit: int, appended: seq<seq<Event>>) returns (shown: seq<Event>)
    requires journal.Valid() && f.after.None?
    modifies journal
    ensures journal.Valid() && old(journal.log) <= journal.log
    ensures var skip := Skipped(Selected(old(journal.log), f), if limit == 0 then None else Some(limit));
            skip <= |Selected(journal.log, f)| && shown == Selected(journal.log, f)[skip..]
    ensures InOrder(shown, journal.last)
  {
    var lim := if limit == 0 then None else Some(limit);
    ghost var skip := Skipped(Selected(journal.log, f), lim);
    var rows, cursor := ShowRecent(journal, f, lim);
    shown := rows;
    for i := 0 to |appended|
      invariant journal.Valid() && old(journal.log) <= journal.log && CaughtUp(journal.log, f, cursor, journal.last)
      invariant skip <= |Selected(journal.log, f)| && shown == Selected(journal.log, f)[skip..]
    {
      rows, cursor := Poll(journal, f, cursor, appended[i]);
      shown := shown + rows;
    }
    SuffixInOrder(journal.log, f, skip, journal.last);
  }

  lemma SuffixInOrder(log: seq<Event>, f: Filter, skip: nat, last: nat)
    requires InOrder(log, last) && skip <= |Selected(log, f)|
    ensures InOrder(Selected(log, f)[skip..], last)
  {
    SelectedMeans(log, f, last);
  }

  method Turned(s: seq<Event>) returns (r: seq<Event>)
    ensures r == Reversed(s)
  {
    r := [];
    for i := 0 to |s|
      invariant r == Reversed(s[..i])
    {
      ReversedSnoc(s[..i], s[i]);
      assert s[..i + 1] == s[..i] + [s[i]];
      r := [s[i]] + r;
    }
    assert s[..|s|] == s;
  }

  lemma CursorWithin(log: seq<Event>, f: Filter, rows: seq<Event>, skip: nat, cursor: nat, last: nat)
    requires InOrder(log, last) && skip <= |Selected(log, f)| && rows == Selected(log, f)[skip..]
    requires skip == |Selected(log, f)| ==> skip == 0
    requires forall e | e in rows :: e.seqNo <= cursor
    requires cursor == 0 || exists e :: e in rows && e.seqNo == cursor
    ensures CaughtUp(log, f, cursor, last)
  {
    SelectedMeans(log, f, last);
    if cursor > 0 {
      var e :| e in rows && e.seqNo == cursor;
      assert e in Selected(log, f);
    }
    ShownIsCaughtUp(log, f, skip, cursor, last);
  }

  lemma StillCaughtUp(before: seq<Event>, log: seq<Event>, f: Filter, previous: nat, added: seq<Event>,
                      cursor: nat, last: nat, newLast: nat)
    requires f.after.None? && CaughtUp(before, f, previous, last) && before <= log && InOrder(log, newLast)
    requires Selected(log, f) == Selected(before, f) + added && last <= newLast && InOrder(before, last)
    requires cursor >= previous && forall e | e in added :: e.seqNo <= cursor
    requires cursor == previous || exists e :: e in added && e.seqNo == cursor
    ensures CaughtUp(log, f, cursor, newLast)
  {
    SelectedMeans(log, f, newLast);
    SelectedMeans(before, f, last);
    if cursor != previous {
      var e :| e in added && e.seqNo == cursor;
      assert e in Selected(log, f);
    }
    forall e | e in log && Matches(e, f)
      ensures e.seqNo <= cursor
    {
      assert e in Selected(log, f);
      assert e in Selected(before, f) || e in added;
    }
  }

  // ---- Filtering by time -------------------------------------------------

  /** Over stored stamps, the text filters select exactly the rows of the given stretch of time. */
  lemma TimeFiltersSelectTimes(e: Event, t: Time, since: Time, until: Time)
    requires Timestamps.Valid(t) && Timestamps.Valid(since) && Timestamps.Valid(until) && e.ts == IsoFormat(t)
    ensures Matches(e, Filter(None, None, None, None, None, None, None, Some(IsoFormat(since)), Some(IsoFormat(until))))
            <==> !Earlier(t, since) && !Earlier(until, t)
  {
    StampsCompareAsTimes(t, since);
    StampsCompareAsTimes(until, t);
  }

  /** A clause on a column narrows a read to the rows with that value there. */
  lemma ClausesNarrow(log: seq<Event>, f: Filter, value: string, e: Event)
    ensures f.job.None? ==> (Shows(log, f.(job := Some(value)), e) <==> Shows(log, f, e) && e.job == Some(value))
    ensures f.run.None? ==> (Shows(log, f.(run := Some(value)), e) <==> Shows(log, f, e) && e.run == Some(value))
    ensures f.composition.None? ==>
              (Shows(log, f.(composition := Some(value)), e) <==> Shows(log, f, e) && e.composition == Some(value))
    ensures f.instance.None? ==>
              (Shows(log, f.(instance := Some(value)), e) <==> Shows(log, f, e) && e.instance == Some(value))
    ensures f.session.None? ==>
              (Shows(log, f.(session := Some(value)), e) <==> Shows(log, f, e) && e.session == Some(value))
    ensures f.kind.None? ==> (Shows(log, f.(kind := Some(value)), e) <==> Shows(log, f, e) && e.kind == value)
    ensures Shows(log, Filter(None, None, None, None, None, None, None, None, None), e) <==> e in log
  {
    SelectedHas(log, f, e);
    SelectedHas(log, f.(job := Some(value)), e);
    SelectedHas(log, f.(run := Some(value)), e);
    SelectedHas(log, f.(composition := Some(value)), e);
    SelectedHas(log, f.(instance := Some(value)), e);
    SelectedHas(log, f.(session := Some(value)), e);
    SelectedHas(log, f.(kind := Some(value)), e);
    SelectedHas(log, Filter(None, None, None, None, None, None, None, None, None), e);
  }

  predicate Shows(log: seq<Event>, f: Filter, e: Event) { e in Selected(log, f) }

  lemma {:induction false} SelectedHas(log: seq<Event>, f: Filter, e: Event)
    ensures e in Selected(log, f) <==> e in log && Matches(e, f)
  {
    if log != [] {
      SelectedHas(log[..|log| - 1], f, e);
      assert log == log[..|log| - 1] + [log[|log| - 1]];
    }
  }
}
