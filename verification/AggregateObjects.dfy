/**
 The aggregate root and its repository as objects.
 */
module AggregateObjects {
  import opened Wrappers
  import opened Aggregates
  import opened AggregateWriters

  /** The fields of an event that `raiseEvent` fills when the caller left them out (0 and "" count as left out). */
  function Filled(e: Event, id: nat, now: nat, source: string, domainId: Option<string>): Event {
    e.(id := id,
       createdAt := if e.createdAt == None || e.createdAt == Some(0) then Some(now) else e.createdAt,
       source := if e.source == None || e.source == Some("") then Some(source) else e.source,
       domainId := if e.domainId == None || e.domainId == Some("") then domainId else e.domainId)
  }

  class AggregateRoot<S(!new)> {
    const reducers: map<string, (S, Event) -> S>
    const idOf: S -> Option<string>
    const storeCheckpoint: bool
    var state: S
    var history: seq<Event>
    var newEvents: seq<Event>
    var replaying: bool
    ghost const init: S
    ghost var raised: seq<Event>

    /** The live state is the replay of what was raised, and the new events are the last of it. */
    ghost predicate Valid()
      reads this
    {
      && state == Replay(reducers, init, raised)
      && |newEvents| <= |raised| && raised[|raised| - |newEvents|..] == newEvents
    }

    constructor (reducers: map<string, (S, Event) -> S>, idOf: S -> Option<string>, storeCheckpoint: bool, state: S)
      ensures Valid() && this.state == init == state && history == newEvents == raised == [] && !replaying
      ensures this.reducers == reducers && this.idOf == idOf && this.storeCheckpoint == storeCheckpoint
    {
      this.reducers, this.idOf, this.storeCheckpoint := reducers, idOf, storeCheckpoint;
      this.state, this.init, history, newEvents, raised, replaying := state, state, [], [], [], false;
    }

    method HandleEvent(e: Event)
      modifies this`state
      ensures Reduces(reducers, e, old(state), state)
    {
      if e.kind in reducers { state := reducers[e.kind](state, e); }
    }

    /** The id is read before the reducer runs, so the event that creates an aggregate does not get the id its
        own reducer sets. */
    method RaiseEvent(event: Event, uuid: nat, now: nat, source: string) returns (e: Event)
      requires Valid()
      modifies this
      ensures Valid() && history == old(history) && replaying == old(replaying)
      ensures e == Filled(event, uuid, now, source, old(idOf(state)))
      ensures newEvents == old(newEvents) + [e] && raised == old(raised) + [e]
      ensures Reduces(reducers, e, old(state), state)
      ensures e == event.(id := uuid, createdAt := e.createdAt, source := e.source, domainId := e.domainId)
      ensures event.createdAt.Some? && event.createdAt.value != 0 ==> e.createdAt == event.createdAt
      ensures event.createdAt.None? || event.createdAt.value == 0 ==> e.createdAt == Some(now)
      ensures event.source.Some? && event.source.value != "" ==> e.source == event.source
      ensures event.source.None? || event.source.value == "" ==> e.source == Some(source)
      ensures event.domainId.Some? && event.domainId.value != "" ==> e.domainId == event.domainId
      ensures event.domainId.None? || event.domainId.value == "" ==> e.domainId == old(idOf(state))
    {
      e := Filled(event, uuid, now, source, idOf(state));
      HandleEvent(e);
      newEvents := newEvents + [e];
      raised := raised + [e];
      assert raised[..|raised| - 1] == old(raised);
    }

    /** `load` on a fresh instance, up to the return. */
    method Hydrate(events: seq<Event>)
      requires Valid() && raised == []
      modifies this
      ensures Valid() && state == Replay(reducers, init, events) && raised == history == events
      ensures LeadsTo(reducers, init, events, state)
      ensures newEvents == old(newEvents) && !replaying
    {
      replaying := true;
      var i := 0;
      while i < |events|
        invariant 0 <= i <= |events|
        invariant state == Replay(reducers, init, events[..i])
        invariant newEvents == old(newEvents)
      {
        ReplayNext(reducers, init, events, i);
        HandleEvent(events[i]);
        i := i + 1;
      }
      assert events[..|events|] == events;
      ReplayExactlyWhen(reducers, init, events, state);
      history := events;
      raised := events;
      replaying := false;
    }
  }

  datatype StoreFault = NoFault | FindFails | WriteFails

  type Rows = map<nat, Row>

  /** Records are well formed and one for each key. */
  ghost predicate RowsOk(rows: Rows, nextRow: nat) {
    && (forall r :: r in rows ==> r < nextRow && "domainId" in rows[r].content && rows[r].content["domainId"].Text?
                                  && "history" in rows[r].content && rows[r].content["history"].Events?)
    && (forall r, q, c :: r in rows && q in rows && Matches(rows[r], c) && Matches(rows[q], c) ==> r == q)
  }

  ghost predicate IsRow(rows: Rows, c: Call, row: Option<nat>) {
    match row
    case None => forall r :: r in rows ==> !Matches(rows[r], c)
    case Some(r) => r in rows && Matches(rows[r], c)
  }

  /** The history stored for a key, if it has a record. */
  ghost predicate Stores(rows: Rows, c: Call, history: Option<seq<Event>>) {
    match history
    case None => IsRow(rows, c, None)
    case Some(h) => exists r :: IsRow(rows, c, Some(r)) && Has(rows[r].content, h)
  }

  /** `content` goes to the record of `c`, or to a new one. */
  lemma Put(rows: Rows, nextRow: nat, c: Call, row: Option<nat>, content: Content, h: seq<Event>)
    requires RowsOk(rows, nextRow) && IsRow(rows, c, row) && Has(content, h)
    requires "domainId" in content && content["domainId"] == Text(c.id)
    ensures var at := if row.Some? then row.value else nextRow;
            var rows' := rows[at := Row(c.tenant, c.table, content)];
            && RowsOk(rows', if row.Some? then nextRow else nextRow + 1)
            && (forall d :: SameKey(c, d) ==> Stores(rows', d, Some(h)))
            && (forall d, x :: !SameKey(c, d) && Stores(rows, d, x) ==> Stores(rows', d, x))
  {
    var at := if row.Some? then row.value else nextRow;
    var rows' := rows[at := Row(c.tenant, c.table, content)];
    forall r, d | r in rows' && r != at && Matches(rows'[r], d) ensures !SameKey(c, d) {
      assert Matches(rows[r], d);
      assert Matches(rows[r], c) || !SameKey(c, d);
    }
    forall d | SameKey(c, d) ensures Stores(rows', d, Some(h)) { assert IsRow(rows', d, Some(at)); }
    forall d, x | !SameKey(c, d) && Stores(rows, d, x) ensures Stores(rows', d, x) {
      PutElsewhere(rows, nextRow, c, row, content, d, x);
    }
  }

  lemma PutElsewhere(rows: Rows, nextRow: nat, c: Call, row: Option<nat>, content: Content,
    d: Call, x: Option<seq<Event>>)
    requires RowsOk(rows, nextRow) && IsRow(rows, c, row) && !SameKey(c, d) && Stores(rows, d, x)
    requires "domainId" in content && content["domainId"] == Text(c.id)
    ensures Stores(rows[(if row.Some? then row.value else nextRow) := Row(c.tenant, c.table, content)], d, x)
  {
    var at := if row.Some? then row.value else nextRow;
    var rows' := rows[at := Row(c.tenant, c.table, content)];
    if x.Some? {
      var r :| IsRow(rows, d, Some(r)) && Has(rows[r].content, x.value);
      assert r != at;
      assert IsRow(rows', d, Some(r));
    }
  }

  class TenantAggregateRepository {
    var rows: Rows
    var nextRow: nat

    ghost predicate Valid()
      reads this
    {
      RowsOk(rows, nextRow)
    }

    constructor ()
      ensures Valid() && rows == map[]
    {
      rows, nextRow := map[], 0;
    }

    /** `findEntity` on the domain id, in insertion order. */
    method FindFirst(c: Call) returns (row: Option<nat>)
      requires Valid()
      ensures IsRow(rows, c, row)
    {
      var r := 0;
      while r < nextRow
        invariant r <= nextRow
        invariant forall q :: q in rows && q < r ==> !Matches(rows[q], c)
      {
        if r in rows && Matches(rows[r], c) { return Some(r); }
        r := r + 1;
      }
      return None;
    }

    /** `persist` inside its lock.  Whether or not the store answers, the aggregate's new events are gone. */
    method Persist<S(!new)>(aggregate: AggregateRoot<S>, c: Call, checkpoint: Content, fault: StoreFault)
      returns (events: Option<seq<Event>>)
      requires Valid() && aggregate.Valid()
      requires aggregate.storeCheckpoint ==> "domainId" !in checkpoint && "history" !in checkpoint
      modifies this, aggregate`newEvents
      ensures Valid() && aggregate.Valid() && aggregate.newEvents == []
      ensures fault != NoFault ==> events == None && rows == old(rows)
      ensures fault == NoFault ==> events == Some(old(aggregate.newEvents))
      ensures forall h, d :: fault == NoFault && SameKey(c, d) && Stores(old(rows), d, h) ==>
                Stores(rows, d, Some((if h.Some? then h.value else []) + old(aggregate.newEvents)))
      ensures forall h, d :: !SameKey(c, d) && Stores(old(rows), d, h) ==> Stores(rows, d, h)
    {
      var batch := aggregate.newEvents;
      aggregate.newEvents := [];
      if fault.FindFails? { return None; }
      var row := FindFirst(c);
      var extra := if aggregate.storeCheckpoint then checkpoint else map[];
      var earlier: seq<Event>, content: Content := [], map["domainId" := Text(c.id)];
      if row.Some? { earlier, content := rows[row.value].content["history"].events, rows[row.value].content; }
      content := AddCheckpoint(content["history" := Events(earlier + batch)], extra);
      if fault.WriteFails? { return None; }
      Put(rows, nextRow, c, row, content, earlier + batch);
      OneHistory(rows, nextRow, c, row, earlier);
      if row.Some? {
        rows := rows[row.value := Row(c.tenant, c.table, content)];
      } else {
        rows, nextRow := rows[nextRow := Row(c.tenant, c.table, content)], nextRow + 1;
      }
      events := Some(batch);
    }

    /** `load` into a fresh instance: `null` without a record, otherwise the replay of its history. */
    method Load<S(!new)>(aggregate: AggregateRoot<S>, c: Call) returns (found: bool)
      requires Valid() && aggregate.Valid() && aggregate.raised == []
      modifies aggregate
      ensures found <==> !Stores(rows, c, None)
      ensures forall h :: Stores(rows, c, Some(h)) ==>
                && aggregate.state == Replay(aggregate.reducers, aggregate.init, h) && aggregate.history == h
                && LeadsTo(aggregate.reducers, aggregate.init, h, aggregate.state)
    {
      var row := FindFirst(c);
      if row.Some? {
        var events := rows[row.value].content["history"].events;
        OneHistory(rows, nextRow, c, row, events);
        aggregate.Hydrate(events);
        return true;
      }
      return false;
    }
  }

  /** The record found holds the only history stored for its key. */
  lemma OneHistory(rows: Rows, nextRow: nat, c: Call, row: Option<nat>, h: seq<Event>)
    requires RowsOk(rows, nextRow) && IsRow(rows, c, row)
    requires match row case None => h == [] case Some(r) => Has(rows[r].content, h)
    ensures forall x, d :: SameKey(c, d) && Stores(rows, d, x) ==> (if x.Some? then x.value else []) == h
  {
    forall x, d | SameKey(c, d) && Stores(rows, d, x) ensures (if x.Some? then x.value else []) == h {
      if x.Some? {
        var r :| IsRow(rows, d, Some(r)) && Has(rows[r].content, x.value);
        assert Matches(rows[r], c);
      } else if row.Some? {
        assert Matches(rows[row.value], d);
      }
    }
  }
}
