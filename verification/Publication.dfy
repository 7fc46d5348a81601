/** Public snapshots of an operation, the events that announce them, and a receiver that may get them in any
    order, more than once, and mixed with HTTP responses. */
module Publication {
  import opened Prelude

  /** What a snapshot says, apart from its revision and the time it was taken. */
  datatype Content = Content(terminal: bool, body: Id)

  datatype Snapshot = Snapshot(revision: nat, serverTime: Time, content: Content)

  datatype Event = Event(operation: Id, snapshot: Snapshot)

  // ------------------------------------------------------------ delivery/publication.ts

  /** Whether the operation's next content is published at all. */
  predicate Publishes(previous: Option<Snapshot>, content: Content) {
    previous.None? || (!previous.value.content.terminal && previous.value.content != content)
  }

  function NextSnapshot(previous: Option<Snapshot>, content: Content, time: Time): Snapshot {
    Snapshot(if previous.None? then 1 else previous.value.revision + 1, time, content)
  }

  /** The snapshots of one operation among the events, in order of publication. */
  function SnapshotsOf(events: seq<Event>, operation: Id): seq<Snapshot> {
    if events == [] then []
    else
      var rest := SnapshotsOf(events[..|events|-1], operation);
      if events[|events|-1].operation == operation then rest + [events[|events|-1].snapshot] else rest
  }

  lemma SnapshotsExtend(events: seq<Event>, e: Event, operation: Id)
    ensures SnapshotsOf(events + [e], operation) ==
              SnapshotsOf(events, operation) + if e.operation == operation then [e.snapshot] else []
  {
    assert (events + [e])[..|events|] == events;
  }

  /** Revisions run 1, 2, 3, ...; each announces something new; nothing follows a terminal snapshot. */
  predicate Orderly(snapshots: seq<Snapshot>) {
    && (forall k | 0 <= k < |snapshots| :: snapshots[k].revision == k + 1)
    && (forall k | 0 < k < |snapshots| :: snapshots[k].content != snapshots[k - 1].content)
    && (forall k | 0 <= k < |snapshots| - 1 :: !snapshots[k].content.terminal)
  }

  function LastOf(snapshots: seq<Snapshot>): Option<Snapshot> {
    if snapshots == [] then None else Some(snapshots[|snapshots|-1])
  }

  lemma OrderlyExtends(snapshots: seq<Snapshot>, content: Content, time: Time)
    requires Orderly(snapshots) && Publishes(LastOf(snapshots), content)
    ensures var next := NextSnapshot(LastOf(snapshots), content, time);
            Orderly(snapshots + [next]) && LastOf(snapshots + [next]) == Some(next)
  {
  }

  class Publisher {
    /** What a snapshot of the operation would say now. */
    var contents: map<Id, Content>
    /** The stored public snapshot of each operation. */
    var snapshots: map<Id, Snapshot>
    /** The operations that the running transaction has touched. */
    var changes: set<Id>
    var events: seq<Event>

    ghost predicate Valid()
      reads this
    {
      && changes <= contents.Keys
      && forall operation ::
           && Orderly(SnapshotsOf(events, operation))
           && LastOf(SnapshotsOf(events, operation)) == StoredFor(operation)
    }

    function StoredFor(operation: Id): Option<Snapshot>
      reads this
    {
      if operation in snapshots then Some(snapshots[operation]) else None
    }

    constructor ()
      ensures Valid() && events == [] && changes == {}
    {
      contents, snapshots, changes, events := map[], map[], {}, [];
    }

    /** A domain statement changes the operation and marks it. */
    method Change(operation: Id, content: Content)
      requires Valid()
      modifies this`contents, this`changes
      ensures Valid()
      ensures contents == old(contents)[operation := content] && changes == old(changes) + {operation}
    {
      contents := contents[operation := content];
      changes := changes + {operation};
    }

    method Publish(operation: Id, time: Time)
      requires Valid() && operation in contents
      modifies this`snapshots, this`events
      ensures Valid()
      ensures var previous := old(StoredFor(operation));
              if Publishes(previous, contents[operation]) then
                var next := NextSnapshot(previous, contents[operation], time);
                snapshots == old(snapshots)[operation := next] && events == old(events) + [Event(operation, next)]
              else snapshots == old(snapshots) && events == old(events)
    {
      if operation in snapshots {
        var previous := snapshots[operation];
        if previous.content.terminal || previous.content == contents[operation] {
          return;
        }
      }
      var revision := if operation in snapshots then snapshots[operation].revision + 1 else 1;
      var next := Snapshot(revision, time, contents[operation]);
      ghost var before := events;
      snapshots := snapshots[operation := next];
      events := events + [Event(operation, next)];
      OrderlyExtends(SnapshotsOf(before, operation), contents[operation], time);
      forall other
        ensures Orderly(SnapshotsOf(events, other)) && LastOf(SnapshotsOf(events, other)) == StoredFor(other)
      {
        hide Orderly, LastOf, SnapshotsOf;
        SnapshotsExtend(before, Event(operation, next), other);
        assert SnapshotsOf(before, other) + [] == SnapshotsOf(before, other);
      }
    }

    /** Publishes every touched operation once, in some order, and forgets the touches. */
    method FlushChanges(time: Time)
      requires Valid()
      modifies this`snapshots, this`events, this`changes
      ensures Valid() && changes == {}
      ensures old(events) <= events
      ensures forall operation | operation in old(changes) ::
                operation in snapshots && UpToDate(snapshots[operation], contents[operation])
      ensures forall operation | operation !in old(changes) :: StoredFor(operation) == old(StoredFor(operation))
    {
      hide Orderly, LastOf, SnapshotsOf;
      var remaining := changes;
      while remaining != {}
        invariant Valid() && remaining <= changes == old(changes)
        invariant old(events) <= events
        invariant forall operation | operation in changes - remaining ::
                    operation in snapshots && UpToDate(snapshots[operation], contents[operation])
        invariant forall operation | operation !in changes - remaining :: StoredFor(operation) == old(StoredFor(operation))
        decreases |remaining|
      {
        var operation :| operation in remaining;
        Publish(operation, time);
        remaining := remaining - {operation};
      }
      changes := {};
    }
  }

  /** The stored snapshot announces the current content, or is final. */
  predicate UpToDate(s: Snapshot, content: Content) { s.content.terminal || s.content == content }

  // -------------------------------------------------- examples/webhook-receiver/receiver.ts

  /** A webhook delivers an event under its id; a response carries the snapshot with a later server time. */
  datatype Message =
    | Webhook(eventId: Id, event: Event)
    | Response(operation: Id, snapshot: Snapshot)

  datatype Projection = Projection(receipts: set<Id>, deliveries: map<Id, Snapshot>)

  function ApplySnapshot(p: Projection, operation: Id, s: Snapshot): Projection {
    if operation in p.deliveries && s.revision <= p.deliveries[operation].revision then p
    else p.(deliveries := p.deliveries[operation := s])
  }

  function Receive(p: Projection, m: Message): Projection {
    match m
    case Webhook(eventId, event) =>
      if eventId in p.receipts then p
      else ApplySnapshot(p.(receipts := p.receipts + {eventId}), event.operation, event.snapshot)
    case Response(operation, s) => ApplySnapshot(p, operation, s)
  }

  function ReceiveAll(messages: seq<Message>): Projection {
    if messages == [] then Projection({}, map[])
    else Receive(ReceiveAll(messages[..|messages|-1]), messages[|messages|-1])
  }

  class Receiver {
    var receipts: set<Id>
    var deliveries: map<Id, Snapshot>

    function Contents(): Projection
      reads this
    {
      Projection(receipts, deliveries)
    }

    constructor ()
      ensures Contents() == ReceiveAll([])
    {
      receipts, deliveries := {}, map[];
    }

    /** The conditional upsert: only a later revision replaces what is stored. */
    method ApplyDeliverySnapshot(operation: Id, s: Snapshot)
      modifies this`deliveries
      ensures Contents() == ApplySnapshot(old(Contents()), operation, s)
    {
      if operation !in deliveries || deliveries[operation].revision < s.revision {
        deliveries := deliveries[operation := s];
      }
    }

    method ReceiveWebhook(eventId: Id, event: Event) returns (firstReceipt: bool)
      modifies this
      ensures Contents() == Receive(old(Contents()), Webhook(eventId, event))
      ensures firstReceipt <==> eventId !in old(receipts)
    {
      firstReceipt := eventId !in receipts;
      if firstReceipt {
        receipts := receipts + {eventId};
        ApplyDeliverySnapshot(event.operation, event.snapshot);
      }
    }
  }

  // ------------------------------------------------------------------------ convergence

  /** The message's operation and snapshot. */
  function OperationOf(m: Message): Id { if m.Webhook? then m.event.operation else m.operation }

  function SnapshotOf(m: Message): Snapshot { if m.Webhook? then m.event.snapshot else m.snapshot }

  /** Webhooks repeat published events, each under one id; responses repeat a published revision with their own
      server time. */
  ghost predicate Genuine(messages: seq<Message>, events: seq<Event>, ids: map<Id, Event>) {
    forall k | 0 <= k < |messages| ::
      var m := messages[k];
      var published := SnapshotsOf(events, OperationOf(m));
      && 1 <= SnapshotOf(m).revision <= |published|
      && SnapshotOf(m).content == published[SnapshotOf(m).revision - 1].content
      && (m.Webhook? ==> m.eventId in ids && ids[m.eventId] == m.event)
  }

  /** The stored snapshot is a received one of the highest revision received. */
  ghost predicate Highest(p: Projection, messages: seq<Message>, operation: Id) {
    && (operation in p.deliveries <==> exists k :: 0 <= k < |messages| && OperationOf(messages[k]) == operation)
    && (operation in p.deliveries ==>
          && (exists k :: 0 <= k < |messages| && OperationOf(messages[k]) == operation && SnapshotOf(messages[k]) == p.deliveries[operation])
          && forall k | 0 <= k < |messages| && OperationOf(messages[k]) == operation ::
               SnapshotOf(messages[k]).revision <= p.deliveries[operation].revision)
  }

  lemma {:induction false} ReceiptsAreEarlier(messages: seq<Message>, eventId: Id)
    requires eventId in ReceiveAll(messages).receipts
    ensures exists k :: 0 <= k < |messages| && messages[k].Webhook? && messages[k].eventId == eventId
  {
    var n := |messages| - 1;
    var before := ReceiveAll(messages[..n]);
    if eventId in before.receipts {
      ReceiptsAreEarlier(messages[..n], eventId);
      var k :| 0 <= k < n && messages[..n][k].Webhook? && messages[..n][k].eventId == eventId;
      assert messages[k].Webhook? && messages[k].eventId == eventId;
    } else {
      assert messages[n].Webhook? && messages[n].eventId == eventId;
    }
  }

  lemma {:induction false} KeepsHighest(messages: seq<Message>, events: seq<Event>, ids: map<Id, Event>, operation: Id)
    requires Genuine(messages, events, ids)
    ensures Highest(ReceiveAll(messages), messages, operation)
  {
    if messages != [] {
      var n := |messages| - 1;
      var m := messages[n];
      var before := ReceiveAll(messages[..n]);
      KeepsHighest(messages[..n], events, ids, operation);
      if m.Webhook? && m.eventId in before.receipts {
        ReceiptsAreEarlier(messages[..n], m.eventId);
        var k :| 0 <= k < n && messages[..n][k].Webhook? && messages[..n][k].eventId == m.eventId;
        assert messages[k] == m;
      }
      HighestGrows(before, messages, operation);
    }
  }

  /** One more message keeps the highest revision, unless it is an ignored repetition of an earlier one. */
  lemma HighestGrows(before: Projection, messages: seq<Message>, operation: Id)
    requires messages != [] && Highest(before, messages[..|messages|-1], operation)
    requires var m := messages[|messages|-1];
             m.Webhook? && m.eventId in before.receipts ==> m in messages[..|messages|-1]
    ensures Highest(Receive(before, messages[|messages|-1]), messages, operation)
  {
    var n := |messages| - 1;
    var earlier := messages[..n];
    var m := messages[n];
    var after := Receive(before, m);
    assert forall k | 0 <= k < n :: messages[k] == earlier[k];
    if operation in before.deliveries {
      var k :| 0 <= k < n && OperationOf(earlier[k]) == operation && SnapshotOf(earlier[k]) == before.deliveries[operation];
      assert OperationOf(messages[k]) == operation && SnapshotOf(messages[k]) == before.deliveries[operation];
    }
    if m.Webhook? && m.eventId in before.receipts {
      var k :| 0 <= k < n && earlier[k] == m;
      assert after == before;
      assert OperationOf(m) == operation ==> operation in before.deliveries;
    }
  }

  /** A receiver that was told of the last published revision of an operation, by webhook or response, ends with that
      snapshot up to its server time, whatever the order and however often messages were repeated. */
  lemma ReceiverConverges(messages: seq<Message>, events: seq<Event>, ids: map<Id, Event>, operation: Id)
    requires Genuine(messages, events, ids) && Orderly(SnapshotsOf(events, operation))
    requires SnapshotsOf(events, operation) != []
    requires exists k :: 0 <= k < |messages| && OperationOf(messages[k]) == operation
                         && SnapshotOf(messages[k]).revision == |SnapshotsOf(events, operation)|
    ensures var published := SnapshotsOf(events, operation);
            var p := ReceiveAll(messages);
            && operation in p.deliveries
            && p.deliveries[operation].revision == |published|
            && p.deliveries[operation].content == published[|published|-1].content
  {
    hide ReceiveAll, SnapshotsOf, Orderly;
    KeepsHighest(messages, events, ids, operation);
    var k :| 0 <= k < |messages| && OperationOf(messages[k]) == operation
             && SnapshotOf(messages[k]).revision == |SnapshotsOf(events, operation)|;
    var p := ReceiveAll(messages);
    assert operation in p.deliveries;
    var j :| 0 <= j < |messages| && OperationOf(messages[j]) == operation && SnapshotOf(messages[j]) == p.deliveries[operation];
  }
}
