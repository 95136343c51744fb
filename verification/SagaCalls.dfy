/**
 What a handler's calls mean for its record and its timers.
 */
module SagaCalls {
  import opened Wrappers
  import opened SagaEngine
  import C = SagaScheduler

  // ---------------------------------------------------------------- what a handler asked for

  /** The calls a handler can make on its `SagaInstance`. */
  datatype Call = Set(key: string, value: string) | Upsert(timer: TimerAdd) | Remove(name: string) | End(preserve: bool)

  function Adds(calls: seq<Call>): seq<TimerAdd> {
    if calls == [] then []
    else Adds(calls[..|calls| - 1]) + (if calls[|calls| - 1].Upsert? then [calls[|calls| - 1].timer] else [])
  }

  function Removes(calls: seq<Call>): seq<string> {
    if calls == [] then []
    else Removes(calls[..|calls| - 1]) + (if calls[|calls| - 1].Remove? then [calls[|calls| - 1].name] else [])
  }

  function Ended(calls: seq<Call>): Option<bool> {
    if calls == [] then None
    else if calls[|calls| - 1].End? then Some(calls[|calls| - 1].preserve) else Ended(calls[..|calls| - 1])
  }

  function Written(data: map<string, string>, calls: seq<Call>): map<string, string> {
    if calls == [] then data
    else
      var d := Written(data, calls[..|calls| - 1]);
      if calls[|calls| - 1].Set? then d[calls[|calls| - 1].key := calls[|calls| - 1].value] else d
  }

  /** The record as the calls leave it, before its timers are dealt with. */
  function AfterCalls(c: Content, calls: seq<Call>): Content {
    c.(data := Written(c.data, calls), ended := c.ended || Ended(calls).Some?,
       preserve := if Ended(calls).Some? then Ended(calls).value else c.preserve)
  }

  lemma OneMoreCall(c: Content, calls: seq<Call>, i: nat)
    requires i < |calls|
    ensures var before, after, call := calls[..i], calls[..i + 1], calls[i];
            && (SetsId(after) <==> SetsId(before) || (call.Set? && call.key == "id"))
            && Adds(after) == (if call.Upsert? then Adds(before) + [call.timer] else Adds(before))
            && Removes(after) == (if call.Remove? then Removes(before) + [call.name] else Removes(before))
            && AfterCalls(c, after) == match call
                                       case Set(key, value) =>
                                         var d := AfterCalls(c, before);
                                         d.(data := d.data[key := value])
                                       case End(preserve) => AfterCalls(c, before).(ended := true, preserve := preserve)
                                       case _ => AfterCalls(c, before)
  {
    var before, after := calls[..i], calls[..i + 1];
    assert after[..i] == before && after[i] == calls[i];
    assert forall j :: 0 <= j < i ==> after[j] == before[j];
  }

  /** `set("id", ...)` throws; any other sequence of calls returns. */
  predicate SetsId(calls: seq<Call>) { exists i :: 0 <= i < |calls| && calls[i].Set? && calls[i].key == "id" }

  function Summary(data: map<string, string>, calls: seq<Call>): Result {
    if SetsId(calls) then Throws("SETTING ID IS FORBIDDEN")
    else Returns(Written(data, calls), Adds(calls), Removes(calls), Ended(calls))
  }

  // ---------------------------------------------------------------- the runner after the timer calls

  function ApplyOps(schedules: set<Schedule>, id: string, ops: seq<Op>): set<Schedule> {
    if ops == [] then schedules else ApplyOp(ApplyOps(schedules, id, ops[..|ops| - 1]), id, ops[|ops| - 1])
  }

  lemma {:induction false} ApplyAppend(schedules: set<Schedule>, id: string, a: seq<Op>, b: seq<Op>)
    ensures ApplyOps(schedules, id, a + b) == ApplyOps(ApplyOps(schedules, id, a), id, b)
    decreases |b|
  {
    if b == [] {
      assert a + b == a;
    } else {
      var m := |b| - 1;
      assert (a + b)[..|a + b| - 1] == a + b[..m];
      ApplyAppend(schedules, id, a, b[..m]);
    }
  }

  lemma {:induction false} ApplyArms(schedules: set<Schedule>, id: string, adds: seq<TimerAdd>, x: Schedule)
    ensures x in ApplyOps(schedules, id, ArmOps(adds)) <==>
            x in schedules || (x.instanceId == id && exists i :: 0 <= i < |adds| && adds[i].name == x.name)
  {
    if adds != [] {
      var m := |adds| - 1;
      assert ArmOps(adds)[..m] == ArmOps(adds[..m]);
      ApplyArms(schedules, id, adds[..m], x);
    }
  }

  lemma {:induction false} ApplyDisarms(schedules: set<Schedule>, id: string, names: seq<string>, x: Schedule)
    ensures x in ApplyOps(schedules, id, DisarmOps(names)) <==>
            x in schedules && !(x.instanceId == id && exists i :: 0 <= i < |names| && names[i] == x.name)
  {
    if names != [] {
      var m := |names| - 1;
      assert DisarmOps(names)[..m] == DisarmOps(names[..m]);
      ApplyDisarms(schedules, id, names[..m], x);
    }
  }

  /** What the runner holds after the timer calls of a step: upserted timers and old ones, less the one that
      fired, and never a removed one - in whatever order the handler made its calls. */
  lemma RunnerAfter(schedules: set<Schedule>, id: string, task: Task, c: Content, r: Result, x: Schedule)
    requires r.Returns?
    ensures x in ApplyOps(schedules, id, HandlerOps(task, c, r)) <==>
            if x.instanceId != id then x in schedules
            else
              && x.name !in r.removes
              && ((exists i :: 0 <= i < |r.adds| && r.adds[i].name == x.name)
                  || (x in schedules && FiredOps(c.activeTimers, task) != [Disarm(x.name)]))
  {
    var fired := FiredOps(c.activeTimers, task);
    var s1 := ApplyOps(schedules, id, fired);
    assert fired != [] ==> fired[..0] == [];
    ApplyAppend(schedules, id, fired, TimerOps(r.adds, r.removes));
    ApplyAppend(s1, id, ArmOps(r.adds), DisarmOps(r.removes));
    ApplyArms(s1, id, r.adds, x);
    ApplyDisarms(ApplyOps(s1, id, ArmOps(r.adds)), id, r.removes, x);
  }

  lemma {:induction false} RemovedName(calls: seq<Call>, n: string)
    ensures n in Removes(calls) <==> exists i :: 0 <= i < |calls| && calls[i] == Remove(n)
  {
    if calls != [] {
      var m := |calls| - 1;
      RemovedName(calls[..m], n);
      if n in Removes(calls[..m]) {
        var i :| 0 <= i < m && calls[..m][i] == Remove(n);
        assert calls[i] == Remove(n);
      }
      if i :| 0 <= i < |calls| && calls[i] == Remove(n) {
        if i < m { assert calls[..m][i] == Remove(n); }
      }
    }
  }

  /** `removeTimer` wins over `upsertTimer` for the same name, whichever came first. */
  lemma RemoveWins(schedules: set<Schedule>, id: string, task: Task, c: Content, calls: seq<Call>, i: nat, n: string)
    requires i < |calls| && calls[i] == Remove(n) && !SetsId(calls)
    ensures var r := Summary(c.data, calls);
            && n !in AfterHandler(task, c, r).activeTimers
            && Schedule(id, n) !in ApplyOps(schedules, id, HandlerOps(task, c, r))
  {
    RemovedName(calls, n);
    RunnerAfter(schedules, id, task, c, Summary(c.data, calls), Schedule(id, n));
  }

  /** A timer that is already active keeps the kind it was first recorded with, even when it is upserted as
      the other kind. */
  lemma KindIsKept(task: Task, c: Content, r: Result, n: string)
    requires r.Returns? && n in c.activeTimers && n !in r.removes && FiredOps(c.activeTimers, task) != [Disarm(n)]
    ensures var c' := AfterHandler(task, c, r); n in c'.activeTimers && c'.activeTimers[n] == c.activeTimers[n]
  {}

  // ---------------------------------------------------------------- a whole task

  function WithoutTimers(schedules: set<Schedule>, id: string, names: set<string>): set<Schedule> {
    set x | x in schedules && !(x.instanceId == id && x.name in names)
  }

  /** The whole body of a task, with nobody else doing anything. */
  function TaskAlone(task: Task, id: string, r: Result, store: map<string, Content>, schedules: set<Schedule>): Shared {
    if id !in store then Shared(Absent, store, schedules)
    else if r.Throws? then Shared(Threw(r.error), store, schedules)
    else
      var next := AfterHandler(task, store[id], r);
      var held := ApplyOps(schedules, id, HandlerOps(task, store[id], r));
      if !next.ended then Shared(Applied, store[id := next], held)
      else Shared(Applied, if next.preserve then store[id := next] else store - {id},
                  WithoutTimers(held, id, next.activeTimers.Keys))
  }

  function OutcomeAlone(task: Task, id: string, r: Result, store: map<string, Content>): C.Outcome {
    BodyOutcome(task, TaskAlone(task, id, r, store, {}).phase)
  }

  // ---------------------------------------------------------------- what a result means

  /** An active timer that is not the one-shot timer that has just fired. */
  predicate Stays(task: Task, c: Content, n: string) {
    n in c.activeTimers && !(task == TimerTask(n) && c.activeTimers[n] == Timeout)
  }

  /** The first of the adds that names n has this kind. */
  ghost predicate FirstAdd(adds: seq<TimerAdd>, n: string, kind: Kind) {
    exists i: nat :: i < |adds| && adds[i] == TimerAdd(n, kind) && forall j :: 0 <= j < i ==> adds[j].name != n
  }

  ghost predicate Added(adds: seq<TimerAdd>, n: string) { exists i :: 0 <= i < |adds| && adds[i].name == n }

  /** `after` is the record that a task leaves which read `before` and whose handler returned r. */
  ghost predicate Leaves(task: Task, r: Result, before: Content, after: Content)
    requires r.Returns?
  {
    && after.data == r.data
    && after.events == before.events + (if task.EventTask? then [task.event] else [])
    && (after.ended <==> before.ended || r.end != None)
    && (after.preserve <==> if r.end == None then before.preserve else r.end == Some(true))
    && (forall n :: n in after.activeTimers <==> n !in r.removes && (Added(r.adds, n) || Stays(task, before, n)))
    && (forall n :: n in after.activeTimers ==>
          if Stays(task, before, n) then after.activeTimers[n] == before.activeTimers[n]
          else FirstAdd(r.adds, n, after.activeTimers[n]))
  }

  /** `first` is the record that a start step makes whose handler returned r. */
  ghost predicate Starts(event: Event, r: Result, first: Content)
    requires r.Returns?
  {
    && first.data == r.data && first.events == [event]
    && (first.ended <==> r.end != None) && (first.preserve <==> r.end == Some(true))
    && (forall n :: n in first.activeTimers <==> n !in r.removes && Added(r.adds, n))
    && (forall n :: n in first.activeTimers ==> FirstAdd(r.adds, n, first.activeTimers[n]))
  }

  lemma {:induction false} AddedTimers(active: map<string, Kind>, adds: seq<TimerAdd>, n: string)
    ensures n in AddTimers(active, adds) <==> n in active || Added(adds, n)
    ensures n in AddTimers(active, adds) && n !in active ==> FirstAdd(adds, n, AddTimers(active, adds)[n])
  {
    if adds != [] {
      var m := |adds| - 1;
      AddedTimers(active, adds[..m], n);
      assert adds == adds[..m] + [adds[m]];
      AddedNext(adds[..m], adds[m], n);
    }
  }

  lemma AddedNext(a: seq<TimerAdd>, x: TimerAdd, n: string)
    ensures Added(a + [x], n) <==> Added(a, n) || x.name == n
    ensures !Added(a, n) && x.name == n ==> FirstAdd(a + [x], n, x.kind)
    ensures forall kind :: FirstAdd(a, n, kind) ==> FirstAdd(a + [x], n, kind)
  {
    var b := a + [x];
    assert b[|a|] == x && forall j :: 0 <= j < |a| ==> b[j] == a[j];
    if Added(a, n) {
      var i :| 0 <= i < |a| && a[i].name == n;
      assert b[i].name == n;
    } else if x.name == n {
      assert b[|a|] == TimerAdd(n, x.kind);
    }
    forall kind | FirstAdd(a, n, kind) ensures FirstAdd(b, n, kind) {
      var i: nat :| i < |a| && a[i] == TimerAdd(n, kind) && forall j :: 0 <= j < i ==> a[j].name != n;
      assert b[i] == TimerAdd(n, kind);
    }
  }

  lemma TimerLeft(task: Task, c: Content, r: Result, n: string)
    requires r.Returns?
    ensures var t := RemoveTimers(AddTimers(Fired(c.activeTimers, task), r.adds), r.removes);
            && (n in t <==> n !in r.removes && (Added(r.adds, n) || Stays(task, c, n)))
            && (n in t ==> if Stays(task, c, n) then t[n] == c.activeTimers[n] else FirstAdd(r.adds, n, t[n]))
  {
    var fired := Fired(c.activeTimers, task);
    assert n in fired <==> Stays(task, c, n);
    AddedTimers(fired, r.adds, n);
  }

  lemma HandlerLeaves(task: Task, c: Content, r: Result)
    requires r.Returns?
    ensures Leaves(task, r, c, AfterHandler(task, c, r))
  {
    var after := AfterHandler(task, c, r);
    forall n
      ensures n in after.activeTimers <==> n !in r.removes && (Added(r.adds, n) || Stays(task, c, n))
      ensures n in after.activeTimers ==>
                if Stays(task, c, n) then after.activeTimers[n] == c.activeTimers[n]
                else FirstAdd(r.adds, n, after.activeTimers[n])
    {
      TimerLeft(task, c, r, n);
    }
  }

  lemma StartStarts(event: Event, r: Result)
    requires r.Returns?
    ensures Starts(event, r, StartContent(event, r))
  {
    forall n { AddedTimers(map[], r.adds, n); }
  }

  // ---------------------------------------------------------------- what the calls mean

  ghost predicate LastSet(calls: seq<Call>, key: string, value: string) {
    exists i: nat :: i < |calls| && calls[i] == Set(key, value)
                     && forall j :: i < j < |calls| ==> !(calls[j].Set? && calls[j].key == key)
  }

  ghost predicate NeverSet(calls: seq<Call>, key: string) {
    forall j :: 0 <= j < |calls| ==> !(calls[j].Set? && calls[j].key == key)
  }

  ghost predicate FirstUpsert(calls: seq<Call>, n: string, kind: Kind) {
    exists i: nat :: i < |calls| && calls[i] == Upsert(TimerAdd(n, kind))
                     && forall j :: 0 <= j < i ==> !(calls[j].Upsert? && calls[j].timer.name == n)
  }

  ghost predicate Upserted(calls: seq<Call>, n: string) {
    exists i :: 0 <= i < |calls| && calls[i].Upsert? && calls[i].timer.name == n
  }

  ghost predicate LastEnd(calls: seq<Call>, preserve: bool) {
    exists i: nat :: i < |calls| && calls[i] == End(preserve) && forall j :: i < j < |calls| ==> !calls[j].End?
  }

  ghost predicate NeverEnds(calls: seq<Call>) { forall j :: 0 <= j < |calls| ==> !calls[j].End? }

  /** The value last set for a key is there; a key never set is as it was. */
  ghost predicate DataTold(calls: seq<Call>, before: map<string, string>, after: map<string, string>) {
    && (forall k, v :: LastSet(calls, k, v) ==> k in after && after[k] == v)
    && (forall k :: NeverSet(calls, k) ==> (k in after <==> k in before) && (k in after ==> after[k] == before[k]))
  }

  lemma {:induction false} WrittenTold(data: map<string, string>, calls: seq<Call>)
    ensures DataTold(calls, data, Written(data, calls))
  {
    if calls != [] {
      var m := |calls| - 1;
      var front := calls[..m];
      WrittenTold(data, front);
      forall k, v | LastSet(calls, k, v) ensures k in Written(data, calls) && Written(data, calls)[k] == v {
        LastSetBefore(calls, k, v);
      }
      forall k | NeverSet(calls, k)
        ensures k in Written(data, calls) <==> k in data
        ensures k in data ==> Written(data, calls)[k] == data[k]
      {
        assert NeverSet(front, k);
      }
    }
  }

  lemma LastSetBefore(calls: seq<Call>, k: string, v: string)
    requires calls != [] && LastSet(calls, k, v)
    ensures var m := |calls| - 1;
            calls[m] == Set(k, v) || (!(calls[m].Set? && calls[m].key == k) && LastSet(calls[..m], k, v))
  {
    var m := |calls| - 1;
    var i: nat :| i < |calls| && calls[i] == Set(k, v)
                  && forall j :: i < j < |calls| ==> !(calls[j].Set? && calls[j].key == k);
    if i < m { assert calls[..m][i] == Set(k, v); }
  }

  lemma {:induction false} AddsTold(calls: seq<Call>, n: string, kind: Kind)
    ensures Added(Adds(calls), n) <==> Upserted(calls, n)
    ensures FirstAdd(Adds(calls), n, kind) ==> FirstUpsert(calls, n, kind)
  {
    if calls != [] {
      var m := |calls| - 1;
      var front := calls[..m];
      AddsTold(front, n, kind);
      UpsertedNext(calls, n);
      if calls[m].Upsert? {
        var a := Adds(front);
        assert Adds(calls) == a + [calls[m].timer];
        AddedNext(a, calls[m].timer, n);
        if FirstAdd(Adds(calls), n, kind) {
          FirstAddBack(a, calls[m].timer, n, kind);
          if !FirstAdd(a, n, kind) { LastIsFirst(calls, n); }
        }
      } else {
        assert Adds(calls) == Adds(front);
      }
      if FirstUpsert(front, n, kind) { FirstUpsertNext(calls, n, kind); }
    }
  }

  lemma LastIsFirst(calls: seq<Call>, n: string)
    requires calls != [] && calls[|calls| - 1].Upsert? && calls[|calls| - 1].timer.name == n
    requires !Upserted(calls[..|calls| - 1], n)
    ensures FirstUpsert(calls, n, calls[|calls| - 1].timer.kind)
  {
    var m := |calls| - 1;
    forall j | 0 <= j < m ensures !(calls[j].Upsert? && calls[j].timer.name == n) { assert calls[..m][j] == calls[j]; }
    assert calls[m] == Upsert(TimerAdd(n, calls[m].timer.kind));
  }

  lemma FirstAddBack(a: seq<TimerAdd>, x: TimerAdd, n: string, kind: Kind)
    requires FirstAdd(a + [x], n, kind)
    ensures FirstAdd(a, n, kind) || (x == TimerAdd(n, kind) && !Added(a, n))
  {
    var b := a + [x];
    assert b[|a|] == x && forall j :: 0 <= j < |a| ==> b[j] == a[j];
    var i: nat :| i < |b| && b[i] == TimerAdd(n, kind) && forall j :: 0 <= j < i ==> b[j].name != n;
  }

  lemma UpsertedNext(calls: seq<Call>, n: string)
    requires calls != []
    ensures var m := |calls| - 1;
            Upserted(calls, n) <==> Upserted(calls[..m], n) || (calls[m].Upsert? && calls[m].timer.name == n)
  {
    var m := |calls| - 1;
    if Upserted(calls[..m], n) {
      var i :| 0 <= i < m && calls[..m][i].Upsert? && calls[..m][i].timer.name == n;
      assert calls[i] == calls[..m][i];
    }
    if Upserted(calls, n) {
      var i :| 0 <= i < |calls| && calls[i].Upsert? && calls[i].timer.name == n;
      if i < m { assert calls[..m][i] == calls[i]; }
    }
  }

  lemma FirstUpsertNext(calls: seq<Call>, n: string, kind: Kind)
    requires calls != [] && FirstUpsert(calls[..|calls| - 1], n, kind)
    ensures FirstUpsert(calls, n, kind)
  {
    var front := calls[..|calls| - 1];
    var i: nat :| i < |front| && front[i] == Upsert(TimerAdd(n, kind))
                  && forall j :: 0 <= j < i ==> !(front[j].Upsert? && front[j].timer.name == n);
    assert forall j :: 0 <= j <= i ==> front[j] == calls[j];
  }

  lemma {:induction false} EndedTold(calls: seq<Call>)
    ensures Ended(calls) == None <==> NeverEnds(calls)
    ensures Ended(calls).Some? ==> LastEnd(calls, Ended(calls).value)
  {
    if calls != [] {
      var m := |calls| - 1;
      if calls[m].End? {
        assert LastEnd(calls, calls[m].preserve);
      } else {
        EndedTold(calls[..m]);
        EndBefore(calls);
      }
    }
  }

  lemma EndBefore(calls: seq<Call>)
    requires calls != [] && !calls[|calls| - 1].End?
    ensures NeverEnds(calls) <==> NeverEnds(calls[..|calls| - 1])
    ensures forall b :: LastEnd(calls[..|calls| - 1], b) ==> LastEnd(calls, b)
  {
    var m := |calls| - 1;
    var front := calls[..m];
    if NeverEnds(front) {
      forall j | 0 <= j < |calls| ensures !calls[j].End? { if j < m { assert front[j] == calls[j]; } }
    }
    if NeverEnds(calls) {
      forall j | 0 <= j < m ensures !front[j].End? { assert front[j] == calls[j]; }
    }
    forall b | LastEnd(front, b) ensures LastEnd(calls, b) { EndStaysLast(calls, b); }
  }

  lemma EndStaysLast(calls: seq<Call>, b: bool)
    requires calls != [] && !calls[|calls| - 1].End? && LastEnd(calls[..|calls| - 1], b)
    ensures LastEnd(calls, b)
  {
    var m := |calls| - 1;
    var front := calls[..m];
    var i: nat :| i < m && front[i] == End(b) && forall j :: i < j < m ==> !front[j].End?;
    assert calls[i] == End(b);
    forall j | i < j < |calls| ensures !calls[j].End? { if j < m { assert front[j] == calls[j]; } }
  }

  /** `after` is the record that the calls make of `before`. */
  ghost predicate Told(task: Task, calls: seq<Call>, before: Content, after: Content) {
    && DataTold(calls, before.data, after.data)
    && after.events == before.events + (if task.EventTask? then [task.event] else [])
    && (after.ended <==> before.ended || !NeverEnds(calls))
    && (NeverEnds(calls) ==> after.preserve == before.preserve)
    && (!NeverEnds(calls) ==> LastEnd(calls, after.preserve))
    && (forall n :: n in after.activeTimers <==>
          Remove(n) !in calls && (Upserted(calls, n) || Stays(task, before, n)))
    && (forall n :: n in after.activeTimers ==>
          if Stays(task, before, n) then after.activeTimers[n] == before.activeTimers[n]
          else FirstUpsert(calls, n, after.activeTimers[n]))
  }

  lemma CallsTold(task: Task, calls: seq<Call>, c: Content)
    requires !SetsId(calls)
    ensures Told(task, calls, c, AfterHandler(task, c, Summary(c.data, calls)))
  {
    var r := Summary(c.data, calls);
    var after := AfterHandler(task, c, r);
    HandlerLeaves(task, c, r);
    WrittenTold(c.data, calls);
    EndedTold(calls);
    forall n ensures n in r.removes <==> Remove(n) in calls { RemovedName(calls, n); }
    forall n ensures n in after.activeTimers <==> Remove(n) !in calls && (Upserted(calls, n) || Stays(task, c, n)) {
      AddsTold(calls, n, Timeout);
    }
    forall n | n in after.activeTimers && !Stays(task, c, n) ensures FirstUpsert(calls, n, after.activeTimers[n]) {
      AddsTold(calls, n, after.activeTimers[n]);
    }
  }

  /** The schedules after the task.  Another instance's are as they were; of its own, upserted timers and old
      ones are held, but not the one-shot timer that fired, no removed one, and none of an ended saga's record. */
  ghost predicate SchedulesTold(task: Task, id: string, calls: seq<Call>, before: Content, after: Content,
                                held: set<Schedule>, held': set<Schedule>) {
    forall x: Schedule :: x in held' <==>
      if x.instanceId != id then x in held
      else
        && Remove(x.name) !in calls && !(after.ended && x.name in after.activeTimers)
        && (Upserted(calls, x.name)
            || (x in held
                && !(task == TimerTask(x.name) && x.name in before.activeTimers
                     && before.activeTimers[x.name] == Timeout)))
  }

  lemma OpsTold(task: Task, id: string, calls: seq<Call>, c: Content, held: set<Schedule>, x: Schedule)
    requires !SetsId(calls)
    ensures x in ApplyOps(held, id, HandlerOps(task, c, Summary(c.data, calls))) <==>
            if x.instanceId != id then x in held
            else
              && Remove(x.name) !in calls
              && (Upserted(calls, x.name)
                  || (x in held
                      && !(task == TimerTask(x.name) && x.name in c.activeTimers && c.activeTimers[x.name] == Timeout)))
  {
    var r := Summary(c.data, calls);
    RunnerAfter(held, id, task, c, r, x);
    RemovedName(calls, x.name);
    AddsTold(calls, x.name, Timeout);
    assert Added(r.adds, x.name) <==> exists i :: 0 <= i < |r.adds| && r.adds[i].name == x.name;
  }

  /** A whole task that nobody interferes with, in terms of the handler's calls alone. */
  ghost predicate TaskTold(task: Task, id: string, calls: seq<Call>, store: map<string, Content>, held: set<Schedule>,
                           store': map<string, Content>, held': set<Schedule>, outcome: C.Outcome) {
    if id !in store then
      store' == store && held' == held
      && outcome == if task.TimerTask? then C.Resolved else C.Rejected("TypeError")
    else if exists v :: Set("id", v) in calls then
      store' == store && held' == held && outcome == C.Rejected("SETTING ID IS FORBIDDEN")
    else
      && outcome == C.Resolved
      && exists after ::
           && Told(task, calls, store[id], after)
           && SchedulesTold(task, id, calls, store[id], after, held, held')
           && store' == if after.ended && !after.preserve then store - {id} else store[id := after]
  }

  lemma AloneTold(task: Task, id: string, calls: seq<Call>, store: map<string, Content>, held: set<Schedule>)
    ensures var r := Summary(if id in store then store[id].data else map[], calls);
            var t := TaskAlone(task, id, r, store, held);
            TaskTold(task, id, calls, store, held, t.store, t.schedules, OutcomeAlone(task, id, r, store))
  {
    assert SetsId(calls) <==> exists v :: Set("id", v) in calls by {
      if SetsId(calls) {
        var i :| 0 <= i < |calls| && calls[i].Set? && calls[i].key == "id";
        assert Set("id", calls[i].value) in calls;
      }
    }
    if id in store && !SetsId(calls) { DoneTold(task, id, calls, store, held); }
  }

  lemma DoneTold(task: Task, id: string, calls: seq<Call>, store: map<string, Content>, held: set<Schedule>)
    requires id in store && !SetsId(calls)
    ensures var r := Summary(store[id].data, calls);
            var t, after := TaskAlone(task, id, r, store, held), AfterHandler(task, store[id], r);
            && Told(task, calls, store[id], after)
            && SchedulesTold(task, id, calls, store[id], after, held, t.schedules)
            && t.store == if after.ended && !after.preserve then store - {id} else store[id := after]
  {
    CallsTold(task, calls, store[id]);
    forall x: Schedule { OpsTold(task, id, calls, store[id], held, x); }
  }
}
