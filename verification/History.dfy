/** A project's event stream: gap-free sequence numbers, a retention floor, and pages that follow signed cursors. */
module History {
  import opened Prelude

  /** A published event; sequence numbers start at 1. */
  datatype Event = Event(sequence: nat, operation: Id, subject: Id, body: Id)

  /** A persisted event that has no sequence number yet. */
  datatype Draft = Draft(project: Id, operation: Id, subject: Id, body: Id)

  /** The stored events of one project, in sequence order. */
  datatype Stream = Stream(head: nat, floor: nat, events: seq<Event>)

  datatype Filter = Filter(operation: Option<Id>, attempt: Option<Id>)

  /** Cursors are bound to their project and filter by a signature. */
  datatype Cursor = Cursor(project: Id, filter: Filter, after: nat, ceiling: nat)

  datatype Page = Page(events: seq<Event>, hasMore: bool, next: Cursor)

  predicate Matches(filter: Filter, e: Event) {
    && (filter.operation.Some? ==> e.operation == filter.operation.value)
    && (filter.attempt.Some? ==> e.subject == filter.attempt.value)
  }

  // ------------------------------------------------------------- publication and retention

  function StreamOf(streams: map<Id, Stream>, project: Id): Stream {
    if project in streams then streams[project] else Stream(0, 0, [])
  }

  /** One finalized event takes the next number of its project's stream. */
  function Publish(s: Stream, d: Draft): Stream {
    s.(head := s.head + 1, events := s.events + [Event(s.head + 1, d.operation, d.subject, d.body)])
  }

  function PublishAll(streams: map<Id, Stream>, drafts: seq<Draft>): map<Id, Stream> {
    if drafts == [] then streams
    else
      var d := drafts[|drafts|-1];
      var before := PublishAll(streams, drafts[..|drafts|-1]);
      before[d.project := Publish(StreamOf(before, d.project), d)]
  }

  /** The numbers that a batch is given, in order. */
  function NumbersOf(streams: map<Id, Stream>, drafts: seq<Draft>): seq<nat> {
    if drafts == [] then []
    else
      var earlier := drafts[..|drafts|-1];
      NumbersOf(streams, earlier) + [StreamOf(PublishAll(streams, earlier), drafts[|drafts|-1].project).head + 1]
  }

  function Without(events: seq<Event>, sequence: nat): seq<Event> {
    if events == [] then []
    else
      var rest := Without(events[..|events|-1], sequence);
      if events[|events|-1].sequence == sequence then rest else rest + [events[|events|-1]]
  }

  /** Deleting an event first raises the floor to it. */
  function Retire(s: Stream, sequence: nat): Stream {
    Stream(s.head, Max(s.floor, sequence), Without(s.events, sequence))
  }

  // ------------------------------------------------------------------------------ pages

  /** The stored events that match, after `lo` and up to `hi`, in order. */
  function Select(events: seq<Event>, filter: Filter, lo: nat, hi: nat): seq<Event> {
    if events == [] then []
    else
      var e := events[|events|-1];
      var rest := Select(events[..|events|-1], filter, lo, hi);
      if lo < e.sequence <= hi && Matches(filter, e) then rest + [e] else rest
  }

  /** The window of a page: where it starts and how far this pass goes. */
  function ReadWindow(s: Stream, project: Id, filter: Filter, cursor: Option<Cursor>): Result<(nat, nat)> {
    if cursor.Some? && (cursor.value.project != project || cursor.value.filter != filter) then Failure(InvalidRequest)
    else
      var after := if cursor.Some? then cursor.value.after else s.floor;
      if cursor.Some? && after < s.floor then Failure(HistoryCursorExpired)
      else
        var renewed := cursor.None? || cursor.value.after == cursor.value.ceiling;
        Success((after, if renewed then s.head else cursor.value.ceiling))
  }

  function Truncate(found: seq<Event>, limit: nat): seq<Event> {
    if |found| <= limit then found else found[..limit]
  }

  function ReadPage(s: Stream, project: Id, filter: Filter, cursor: Option<Cursor>, limit: nat): Result<Page>
    requires 0 < limit
  {
    var window := ReadWindow(s, project, filter, cursor);
    if window.Failure? then Failure(window.error)
    else
      var (after, ceiling) := window.value;
      var found := Select(s.events, filter, after, ceiling);
      var hasMore := |found| > limit;
      var next := if hasMore then found[limit - 1].sequence else ceiling;
      Success(Page(Truncate(found, limit), hasMore, Cursor(project, filter, next, ceiling)))
  }

  // --------------------------------------------------- what a stream owes to its history

  /** Everything ever published, whether still stored or not. */
  predicate Numbered(log: seq<Event>) {
    forall n | 0 <= n < |log| :: log[n].sequence == n + 1
  }

  predicate Ascending(events: seq<Event>) {
    forall i, j | 0 <= i < j < |events| :: events[i].sequence < events[j].sequence
  }

  /** The stream has no gaps above its floor: only events at or below the floor may be missing. */
  predicate Serves(s: Stream, log: seq<Event>) {
    && Numbered(log)
    && s.floor <= s.head == |log|
    && Ascending(s.events)
    && (forall i | 0 <= i < |s.events| :: 1 <= s.events[i].sequence <= |log| && log[s.events[i].sequence - 1] == s.events[i])
    && (forall n | s.floor <= n < |log| :: log[n] in s.events)
  }

  function Published(log: seq<Event>, d: Draft): seq<Event> {
    log + [Event(|log| + 1, d.operation, d.subject, d.body)]
  }

  lemma PublishServes(s: Stream, log: seq<Event>, d: Draft)
    requires Serves(s, log)
    ensures Serves(Publish(s, d), Published(log, d))
  {
    var t := Publish(s, d);
    var l := Published(log, d);
    forall n | t.floor <= n < |l| ensures l[n] in t.events {
      if n < |log| {
        assert log[n] in s.events;
      } else {
        assert t.events[|s.events|] == l[n];
      }
    }
  }

  lemma {:induction false} WithoutMembers(events: seq<Event>, sequence: nat)
    requires Ascending(events)
    ensures Ascending(Without(events, sequence))
    ensures forall e :: e in Without(events, sequence) <==> e in events && e.sequence != sequence
  {
    if events != [] {
      var n := |events| - 1;
      WithoutMembers(events[..n], sequence);
      var rest := Without(events[..n], sequence);
      forall i | 0 <= i < |rest| ensures rest[i].sequence < events[n].sequence {
        assert rest[i] in rest;
        assert rest[i] in events[..n];
      }
      assert events == events[..n] + [events[n]];
    }
  }

  lemma RetireServes(s: Stream, log: seq<Event>, sequence: nat)
    requires Serves(s, log) && sequence <= s.head
    ensures Serves(Retire(s, sequence), log)
  {
    WithoutMembers(s.events, sequence);
    var t := Retire(s, sequence);
    forall i | 0 <= i < |t.events| ensures 1 <= t.events[i].sequence <= |log| && log[t.events[i].sequence - 1] == t.events[i] {
      assert t.events[i] in t.events;
    }
    forall n | t.floor <= n < |log| ensures log[n] in t.events {
      assert log[n] in s.events && log[n].sequence == n + 1;
    }
  }

  /** What a batch adds to one project's history. */
  function LogAfter(log: seq<Event>, drafts: seq<Draft>, project: Id): seq<Event> {
    if drafts == [] then log
    else
      var rest := LogAfter(log, drafts[..|drafts|-1], project);
      if drafts[|drafts|-1].project == project then Published(rest, drafts[|drafts|-1]) else rest
  }

  /** Every stream of a finalized batch continues its own numbering without gaps. */
  lemma {:induction false} BatchServes(streams: map<Id, Stream>, drafts: seq<Draft>, project: Id, log: seq<Event>)
    requires Serves(StreamOf(streams, project), log)
    ensures log <= LogAfter(log, drafts, project)
    ensures Serves(StreamOf(PublishAll(streams, drafts), project), LogAfter(log, drafts, project))
    ensures StreamOf(PublishAll(streams, drafts), project).floor == StreamOf(streams, project).floor
  {
    if drafts != [] {
      var d := drafts[|drafts|-1];
      var earlier := drafts[..|drafts|-1];
      BatchServes(streams, earlier, project, log);
      if d.project == project {
        PublishServes(StreamOf(PublishAll(streams, earlier), project), LogAfter(log, earlier, project), d);
      }
    }
  }

  datatype Candidate = Candidate(project: Id, sequence: nat)

  predicate Stored(s: Stream, sequence: nat) {
    exists k :: 0 <= k < |s.events| && s.events[k].sequence == sequence
  }

  /** A candidate that is gone leaves its floor alone. */
  function RetireStored(s: Stream, sequence: nat): Stream {
    if Stored(s, sequence) then Retire(s, sequence) else s
  }

  function RetireAll(streams: map<Id, Stream>, candidates: seq<Candidate>): map<Id, Stream> {
    if candidates == [] then streams
    else
      var c := candidates[|candidates|-1];
      var before := RetireAll(streams, candidates[..|candidates|-1]);
      if c.project in before then before[c.project := RetireStored(before[c.project], c.sequence)] else before
  }

  lemma RetireStoredExact(s: Stream, log: seq<Event>, sequence: nat)
    requires Serves(s, log)
    ensures var t := RetireStored(s, sequence);
            && Serves(t, log) && s.floor <= t.floor
            && (forall e :: e in t.events <==> e in s.events && e.sequence != sequence)
            && (forall e | e in s.events && e.sequence == sequence :: sequence <= t.floor)
  {
    if Stored(s, sequence) {
      RetireServes(s, log, sequence);
      WithoutMembers(s.events, sequence);
    } else {
      forall e | e in s.events ensures e.sequence != sequence {
        var k :| 0 <= k < |s.events| && s.events[k] == e;
      }
    }
  }

  /** A retention batch deletes exactly its candidates, in every project; the floor only rises, to cover what went. */
  lemma {:induction false} RetentionIsExact(streams: map<Id, Stream>, candidates: seq<Candidate>, project: Id, log: seq<Event>)
    requires Serves(StreamOf(streams, project), log)
    ensures var s := StreamOf(streams, project);
            var t := StreamOf(RetireAll(streams, candidates), project);
            && Serves(t, log) && s.floor <= t.floor
            && (forall e :: e in t.events <==> e in s.events && Candidate(project, e.sequence) !in candidates)
            && (forall e | e in s.events && Candidate(project, e.sequence) in candidates :: e.sequence <= t.floor)
  {
    if candidates != [] {
      var n := |candidates| - 1;
      var earlier := candidates[..n];
      RetentionIsExact(streams, earlier, project, log);
      assert candidates == earlier + [candidates[n]];
      var u := StreamOf(RetireAll(streams, earlier), project);
      if candidates[n].project == project {
        RetireStoredExact(u, log, candidates[n].sequence);
        hide Serves, RetireStored;
      }
    }
  }

  // ---------------------------------------------------------------------- paging is exact

  /** What a reader is owed between two positions: every matching event of the history, in order. */
  function Owed(log: seq<Event>, filter: Filter, lo: nat, hi: nat): seq<Event>
    requires lo <= hi <= |log|
  {
    if lo == hi then []
    else Owed(log, filter, lo, hi - 1) + if Matches(filter, log[hi - 1]) then [log[hi - 1]] else []
  }

  lemma {:induction false} OwedSplits(log: seq<Event>, filter: Filter, lo: nat, mid: nat, hi: nat)
    requires lo <= mid <= hi <= |log|
    ensures Owed(log, filter, lo, mid) + Owed(log, filter, mid, hi) == Owed(log, filter, lo, hi)
  {
    if mid < hi {
      OwedSplits(log, filter, lo, mid, hi - 1);
    }
  }

  /** Each matching event between the positions once, in order, and nothing else. */
  lemma {:induction false} OwedExactly(log: seq<Event>, filter: Filter, lo: nat, hi: nat)
    requires Numbered(log) && lo <= hi <= |log|
    ensures Ascending(Owed(log, filter, lo, hi))
    ensures forall e :: e in Owed(log, filter, lo, hi) <==> e in log && lo < e.sequence <= hi && Matches(filter, e)
  {
    if lo < hi {
      var rest := Owed(log, filter, lo, hi - 1);
      OwedExactly(log, filter, lo, hi - 1);
      forall i | 0 <= i < |rest| ensures rest[i].sequence < hi {
        assert rest[i] in rest;
      }
      forall e | e in log && lo < e.sequence <= hi && Matches(filter, e) ensures e in Owed(log, filter, lo, hi) {
        assert e == log[e.sequence - 1];
      }
    }
  }

  lemma {:induction false} OwedStays(log: seq<Event>, later: seq<Event>, filter: Filter, lo: nat, hi: nat)
    requires log <= later && lo <= hi <= |log|
    ensures Owed(later, filter, lo, hi) == Owed(log, filter, lo, hi)
  {
    if lo < hi {
      OwedStays(log, later, filter, lo, hi - 1);
    }
  }

  lemma {:induction false} SelectStep(events: seq<Event>, filter: Filter, lo: nat, hi: nat)
    requires Ascending(events) && lo < hi
    ensures Select(events, filter, lo, hi) ==
              Select(events, filter, lo, hi - 1) + Select(events, filter, hi - 1, hi)
  {
    if events != [] {
      var n := |events| - 1;
      SelectStep(events[..n], filter, lo, hi);
      if events[n].sequence < hi {
        SelectNone(events, filter, hi);
        SelectNone(events[..n], filter, hi);
      }
    }
  }

  lemma {:induction false} SelectNone(events: seq<Event>, filter: Filter, hi: nat)
    requires 0 < hi && forall i | 0 <= i < |events| :: events[i].sequence != hi
    ensures Select(events, filter, hi - 1, hi) == []
  {
    if events != [] {
      SelectNone(events[..|events|-1], filter, hi);
    }
  }

  lemma {:induction false} SelectOne(events: seq<Event>, filter: Filter, e: Event)
    requires Ascending(events) && e in events && 0 < e.sequence
    ensures Select(events, filter, e.sequence - 1, e.sequence) == if Matches(filter, e) then [e] else []
  {
    var n := |events| - 1;
    if events[n].sequence == e.sequence {
      assert events[n] == e;
      SelectNone(events[..n], filter, e.sequence);
    } else {
      assert e in events[..n];
      SelectOne(events[..n], filter, e);
    }
  }

  lemma {:induction false} SelectEmpty(events: seq<Event>, filter: Filter, lo: nat)
    ensures Select(events, filter, lo, lo) == []
  {
    if events != [] {
      SelectEmpty(events[..|events|-1], filter, lo);
    }
  }

  /** Above the floor, the stored events are all there is. */
  lemma {:induction false} SelectIsOwed(s: Stream, log: seq<Event>, filter: Filter, lo: nat, hi: nat)
    requires Serves(s, log) && s.floor <= lo <= hi <= s.head
    ensures Select(s.events, filter, lo, hi) == Owed(log, filter, lo, hi)
  {
    if lo == hi {
      SelectEmpty(s.events, filter, lo);
    } else {
      SelectIsOwed(s, log, filter, lo, hi - 1);
      SelectStep(s.events, filter, lo, hi);
      SelectOne(s.events, filter, log[hi - 1]);
    }
  }

  /** Cutting what is owed after its n-th event is the same as owing only up to that event. */
  lemma {:induction false} OwedCut(log: seq<Event>, filter: Filter, lo: nat, hi: nat, n: nat)
    requires Numbered(log) && lo <= hi <= |log| && 0 < n <= |Owed(log, filter, lo, hi)|
    ensures var cut := Owed(log, filter, lo, hi)[n - 1].sequence;
            lo < cut <= hi && Owed(log, filter, lo, cut) == Owed(log, filter, lo, hi)[..n]
  {
    if n <= |Owed(log, filter, lo, hi - 1)| {
      OwedCut(log, filter, lo, hi - 1, n);
      assert Owed(log, filter, lo, hi)[..n] == Owed(log, filter, lo, hi - 1)[..n];
    } else {
      assert Owed(log, filter, lo, hi)[..n] == Owed(log, filter, lo, hi);
    }
  }

  predicate CursorValid(c: Cursor, head: nat) { c.after <= c.ceiling <= head }

  /** One page gives exactly what is owed between its start and its next cursor. */
  lemma PageIsExact(s: Stream, log: seq<Event>, project: Id, filter: Filter, cursor: Option<Cursor>, limit: nat)
    requires 0 < limit && Serves(s, log)
    requires cursor.Some? ==> CursorValid(cursor.value, |log|)
    requires ReadPage(s, project, filter, cursor, limit).Success?
    ensures var page := ReadPage(s, project, filter, cursor, limit).value;
            var start := if cursor.Some? then cursor.value.after else s.floor;
            && s.floor <= start <= page.next.after
            && CursorValid(page.next, s.head) && s.head == |log|
            && page.next.project == project && page.next.filter == filter
            && page.events == Owed(log, filter, start, page.next.after)
            && (page.hasMore ==> |page.events| == limit)
            && (!page.hasMore ==> page.next.after == page.next.ceiling)
  {
    var start := if cursor.Some? then cursor.value.after else s.floor;
    var ceiling := ReadWindow(s, project, filter, cursor).value.1;
    SelectIsOwed(s, log, filter, start, ceiling);
    if |Owed(log, filter, start, ceiling)| > limit {
      OwedCut(log, filter, start, ceiling, limit);
    }
  }

  /** A cursor is refused exactly when it was made for another feed or retention has passed it. */
  lemma RefusalIsExact(s: Stream, project: Id, filter: Filter, cursor: Option<Cursor>, limit: nat)
    requires 0 < limit
    ensures ReadPage(s, project, filter, cursor, limit) == Failure(InvalidRequest) <==>
              cursor.Some? && (cursor.value.project != project || cursor.value.filter != filter)
    ensures ReadPage(s, project, filter, cursor, limit) == Failure(HistoryCursorExpired) <==>
              && cursor.Some? && cursor.value.project == project && cursor.value.filter == filter
              && cursor.value.after < s.floor
  {
  }

  /** The stream as one reader meets it: at each visit some later history and a floor that only rises. */
  datatype Visit = Visit(stream: Stream, log: seq<Event>, limit: nat)

  ghost predicate Visits(visits: seq<Visit>) {
    && (forall i | 0 <= i < |visits| :: 0 < visits[i].limit && Serves(visits[i].stream, visits[i].log))
    && (forall i, j | 0 <= i < j < |visits| :: visits[i].log <= visits[j].log && visits[i].stream.floor <= visits[j].stream.floor)
  }

  /** The cursor after following the first `n` visits, unless some page was refused. */
  function Follow(visits: seq<Visit>, project: Id, filter: Filter, n: nat): Option<Cursor>
    requires n <= |visits| && forall i | 0 <= i < |visits| :: 0 < visits[i].limit
    decreases n
  {
    if n == 0 then None
    else
      var cursor := Follow(visits, project, filter, n - 1);
      if n > 1 && cursor.None? then None
      else
        var result := ReadPage(visits[n - 1].stream, project, filter, cursor, visits[n - 1].limit);
        if result.Success? then Some(result.value.next) else None
  }

  /** Everything that those pages delivered, in order. */
  function Delivered(visits: seq<Visit>, project: Id, filter: Filter, n: nat): seq<Event>
    requires n <= |visits| && forall i | 0 <= i < |visits| :: 0 < visits[i].limit
    decreases n
  {
    if n == 0 then []
    else
      var result := ReadPage(visits[n - 1].stream, project, filter, Follow(visits, project, filter, n - 1), visits[n - 1].limit);
      Delivered(visits, project, filter, n - 1) + if result.Success? then result.value.events else []
  }

  /** Following cursors, with any publication and retention between the pages, delivers every matching event above
      the floor of the first page exactly once and in order, up to the cursor reached. */
  lemma {:induction false} PagingIsExact(visits: seq<Visit>, project: Id, filter: Filter, n: nat)
    requires Visits(visits) && 0 < n <= |visits|
    requires forall k | 0 < k <= n :: Follow(visits, project, filter, k).Some?
    ensures var cursor := Follow(visits, project, filter, n).value;
            && visits[0].stream.floor <= cursor.after
            && CursorValid(cursor, |visits[n - 1].log|)
            && Delivered(visits, project, filter, n) == Owed(visits[n - 1].log, filter, visits[0].stream.floor, cursor.after)
  {
    hide ReadPage, Serves, Owed;
    var v := visits[n - 1];
    var before := Follow(visits, project, filter, n - 1);
    assert Follow(visits, project, filter, n).Some?;
    assert n > 1 ==> before.Some?;
    if n > 1 {
      PagingIsExact(visits, project, filter, n - 1);
      OwedStays(visits[n - 2].log, v.log, filter, visits[0].stream.floor, before.value.after);
    }
    PageIsExact(v.stream, v.log, project, filter, before, v.limit);
    var start := if before.Some? then before.value.after else v.stream.floor;
    OwedSplits(v.log, filter, visits[0].stream.floor, start, Follow(visits, project, filter, n).value.after);
    assert n == 1 ==> Delivered(visits, project, filter, 0) == [];
  }

  // ------------------------------------------------------------------------------ runs

  /** Publishing transactions and retention batches, in any order. */
  datatype Step = FinalizeStep(drafts: seq<Draft>) | CleanupStep(candidates: seq<Candidate>)

  function StreamsAfter(steps: seq<Step>): map<Id, Stream> {
    if steps == [] then map[]
    else
      var before := StreamsAfter(steps[..|steps|-1]);
      match steps[|steps|-1]
      case FinalizeStep(drafts) => PublishAll(before, drafts)
      case CleanupStep(candidates) => RetireAll(before, candidates)
  }

  /** Everything a run published for a project. */
  function LogOf(steps: seq<Step>, project: Id): seq<Event> {
    if steps == [] then []
    else
      var before := LogOf(steps[..|steps|-1], project);
      if steps[|steps|-1].FinalizeStep? then LogAfter(before, steps[|steps|-1].drafts, project) else before
  }

  /** In every run every stream serves what was published in it. */
  lemma {:induction false} RunServes(steps: seq<Step>, project: Id)
    ensures Serves(StreamOf(StreamsAfter(steps), project), LogOf(steps, project))
    ensures steps != [] ==>
              && LogOf(steps[..|steps|-1], project) <= LogOf(steps, project)
              && StreamOf(StreamsAfter(steps[..|steps|-1]), project).floor <= StreamOf(StreamsAfter(steps), project).floor
  {
    if steps != [] {
      var earlier := steps[..|steps|-1];
      RunServes(earlier, project);
      hide Serves;
      match steps[|steps|-1]
      case FinalizeStep(drafts) => BatchServes(StreamsAfter(earlier), drafts, project, LogOf(earlier, project));
      case CleanupStep(candidates) => RetentionIsExact(StreamsAfter(earlier), candidates, project, LogOf(earlier, project));
    }
  }

  lemma {:induction false} RunGrows(steps: seq<Step>, n: nat, project: Id)
    requires n <= |steps|
    ensures LogOf(steps[..n], project) <= LogOf(steps, project)
    ensures StreamOf(StreamsAfter(steps[..n]), project).floor <= StreamOf(StreamsAfter(steps), project).floor
  {
    if n < |steps| {
      var earlier := steps[..|steps|-1];
      assert earlier[..n] == steps[..n];
      RunGrows(earlier, n, project);
      RunServes(steps, project);
    } else {
      assert steps[..n] == steps;
    }
  }

  /** A reader asks for a page when so many steps of the run have happened. */
  datatype Reading = Reading(after: nat, limit: nat)

  predicate Readings(readings: seq<Reading>, steps: seq<Step>) {
    && (forall i | 0 <= i < |readings| :: readings[i].after <= |steps| && 0 < readings[i].limit)
    && (forall i, j | 0 <= i < j < |readings| :: readings[i].after <= readings[j].after)
  }

  function VisitOf(steps: seq<Step>, project: Id, reading: Reading): Visit
    requires reading.after <= |steps|
  {
    var earlier := steps[..reading.after];
    Visit(StreamOf(StreamsAfter(earlier), project), LogOf(earlier, project), reading.limit)
  }

  function VisitsOf(steps: seq<Step>, project: Id, readings: seq<Reading>): seq<Visit>
    requires Readings(readings, steps)
  {
    seq(|readings|, i requires 0 <= i < |readings| => VisitOf(steps, project, readings[i]))
  }

  lemma RunIsVisited(steps: seq<Step>, project: Id, readings: seq<Reading>)
    requires Readings(readings, steps)
    ensures Visits(VisitsOf(steps, project, readings))
  {
    hide Serves, StreamsAfter, LogOf;
    var visits := VisitsOf(steps, project, readings);
    forall i | 0 <= i < |visits| ensures 0 < visits[i].limit && Serves(visits[i].stream, visits[i].log) {
      RunServes(steps[..readings[i].after], project);
    }
    forall i, j | 0 <= i < j < |visits|
      ensures visits[i].log <= visits[j].log && visits[i].stream.floor <= visits[j].stream.floor
    {
      var later := steps[..readings[j].after];
      assert later[..readings[i].after] == steps[..readings[i].after];
      RunGrows(later, readings[i].after, project);
    }
  }

  /** In every run, a reader that follows its cursors, with any publication and retention between its pages, gets every
      matching event above the floor of its first page exactly once and in order, up to the cursor reached. */
  lemma RunPagingIsExact(steps: seq<Step>, project: Id, filter: Filter, readings: seq<Reading>)
    requires Readings(readings, steps) && readings != []
    requires var visits := VisitsOf(steps, project, readings);
             forall k | 0 < k <= |readings| :: Follow(visits, project, filter, k).Some?
    ensures var visits := VisitsOf(steps, project, readings);
            var last := |readings| - 1;
            var cursor := Follow(visits, project, filter, |readings|).value;
            && visits[0].stream.floor <= cursor.after
            && CursorValid(cursor, |visits[last].log|)
            && Delivered(visits, project, filter, |readings|) == Owed(visits[last].log, filter, visits[0].stream.floor, cursor.after)
  {
    hide Follow, Delivered, Visits, Owed;
    RunIsVisited(steps, project, readings);
    PagingIsExact(VisitsOf(steps, project, readings), project, filter, |readings|);
  }

  /** The only way to lose the thread is expiry: a reader's next page is refused exactly when retention has passed its
      cursor since the page before. */
  lemma RunRefusesOnlyExpired(steps: seq<Step>, project: Id, filter: Filter, readings: seq<Reading>, n: nat)
    requires Readings(readings, steps) && 0 < n <= |readings|
    requires var visits := VisitsOf(steps, project, readings);
             forall k | 0 < k < n :: Follow(visits, project, filter, k).Some?
    ensures var visits := VisitsOf(steps, project, readings);
            Follow(visits, project, filter, n).None? <==>
              n > 1 && Follow(visits, project, filter, n - 1).value.after < visits[n - 1].stream.floor
  {
    var visits := VisitsOf(steps, project, readings);
    hide ReadPage, VisitOf;
    if n > 1 {
      OwnCursor(visits, project, filter, n - 1);
    }
    var cursor := Follow(visits, project, filter, n - 1);
    RefusalIsExact(visits[n - 1].stream, project, filter, cursor, visits[n - 1].limit);
    RefusedWhy(visits[n - 1].stream, project, filter, cursor, visits[n - 1].limit);
  }

  lemma OwnCursor(visits: seq<Visit>, project: Id, filter: Filter, n: nat)
    requires n <= |visits| && forall i | 0 <= i < |visits| :: 0 < visits[i].limit
    requires Follow(visits, project, filter, n).Some?
    ensures Follow(visits, project, filter, n).value.project == project
    ensures Follow(visits, project, filter, n).value.filter == filter
  {
  }

  lemma RefusedWhy(s: Stream, project: Id, filter: Filter, cursor: Option<Cursor>, limit: nat)
    requires 0 < limit
    ensures var result := ReadPage(s, project, filter, cursor, limit);
            result.Failure? ==> result.error in {InvalidRequest, HistoryCursorExpired}
  {
  }

  lemma {:induction false} WithoutAbsent(events: seq<Event>, sequence: nat)
    ensures (forall k | 0 <= k < |events| :: events[k].sequence != sequence) ==> Without(events, sequence) == events
  {
    if events != [] {
      WithoutAbsent(events[..|events|-1], sequence);
    }
  }

  // ------------------------------------------------------------------ the stored tables

  class EventStore {
    var streams: map<Id, Stream>

    constructor ()
      ensures streams == map[]
    {
      streams := map[];
    }

    /** Numbers the drafts of one transaction, in order, each in its project's stream. */
    method FinalizeEvents(drafts: seq<Draft>) returns (sequences: seq<nat>)
      modifies this
      ensures streams == PublishAll(old(streams), drafts)
      ensures sequences == NumbersOf(old(streams), drafts)
    {
      sequences := [];
      for i := 0 to |drafts|
        invariant streams == PublishAll(old(streams), drafts[..i])
        invariant sequences == NumbersOf(old(streams), drafts[..i])
      {
        assert drafts[..i + 1][..i] == drafts[..i];
        var d := drafts[i];
        var s := if d.project in streams then streams[d.project] else Stream(0, 0, []);
        var head := s.head + 1;
        streams := streams[d.project := s.(head := head, events := s.events + [Event(head, d.operation, d.subject, d.body)])];
        sequences := sequences + [head];
      }
      assert drafts[..|drafts|] == drafts;
    }

    /** One retention batch: raises the floor of each candidate's project before deleting it. */
    method CleanupEvents(candidates: seq<Candidate>)
      modifies this
      ensures streams == RetireAll(old(streams), candidates)
    {
      for i := 0 to |candidates|
        invariant streams == RetireAll(old(streams), candidates[..i])
      {
        assert candidates[..i + 1][..i] == candidates[..i];
        var c := candidates[i];
        if c.project in streams {
          var s := streams[c.project];
          if exists k :: 0 <= k < |s.events| && s.events[k].sequence == c.sequence {
            streams := streams[c.project := s.(floor := Max(s.floor, c.sequence))];
          }
          streams := streams[c.project := streams[c.project].(events := Without(s.events, c.sequence))];
          WithoutAbsent(s.events, c.sequence);
        }
      }
      assert candidates[..|candidates|] == candidates;
    }
  }
}
