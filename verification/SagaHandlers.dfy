/**
 The statements of one saga task, run on real objects, and the same task as a run of the engine.
 */
module SagaHandlers {
  import opened Wrappers
  import opened SagaEngine
  import opened SagaCalls
  import C = SagaScheduler

  // ---------------------------------------------------------------- the objects

  class SagaInstance {
    const id: string
    var content: Content
    var timersToAdd: seq<TimerAdd>
    var timersToRemove: seq<string>

    constructor (id: string, content: Content)
      ensures this.id == id && this.content == content && timersToAdd == [] && timersToRemove == []
    {
      this.id, this.content := id, content;
      timersToAdd, timersToRemove := [], [];
    }

    method UpsertTimer(timer: TimerAdd)
      modifies this`timersToAdd
      ensures timersToAdd == old(timersToAdd) + [timer]
    {
      timersToAdd := timersToAdd + [timer];
    }

    method RemoveTimer(name: string)
      modifies this`timersToRemove
      ensures timersToRemove == old(timersToRemove) + [name]
    {
      timersToRemove := timersToRemove + [name];
    }

    method EndSaga(preserve: bool)
      modifies this`content
      ensures content == old(content).(ended := true, preserve := preserve)
    {
      content := content.(ended := true, preserve := preserve);
    }

    method Set(key: string, value: string) returns (ok: bool)
      modifies this`content
      ensures ok == (key != "id")
      ensures content == if ok then old(content).(data := old(content).data[key := value]) else old(content)
    {
      ok := key != "id";
      if ok { content := content.(data := content.data[key := value]); }
    }

    /** One call of a handler. */
    method Perform(call: Call) returns (ok: bool)
      modifies this
      ensures ok == !(call.Set? && call.key == "id")
      ensures ok ==>
                && timersToAdd == (if call.Upsert? then old(timersToAdd) + [call.timer] else old(timersToAdd))
                && timersToRemove == (if call.Remove? then old(timersToRemove) + [call.name] else old(timersToRemove))
                && content == (match call
                               case Set(key, value) => old(content).(data := old(content).data[key := value])
                               case End(preserve) => old(content).(ended := true, preserve := preserve)
                               case _ => old(content))
    {
      ok := true;
      match call {
        case Set(key, value) => ok := Set(key, value);
        case Upsert(timer) => UpsertTimer(timer);
        case Remove(name) => RemoveTimer(name);
        case End(preserve) => EndSaga(preserve);
      }
    }

    /** A handler body: its calls in order, stopping at one that throws. */
    method Invoke(calls: seq<Call>) returns (ok: bool)
      requires timersToAdd == [] && timersToRemove == []
      modifies this
      ensures ok == Summary(old(content).data, calls).Returns?
      ensures ok ==>
                && timersToAdd == Adds(calls) && timersToRemove == Removes(calls)
                && content == AfterCalls(old(content), calls)
    {
      ok := true;
      var i := 0;
      ghost var c0 := content;
      while i < |calls|
        invariant 0 <= i <= |calls| && ok
        invariant !SetsId(calls[..i])
        invariant timersToAdd == Adds(calls[..i]) && timersToRemove == Removes(calls[..i])
        invariant content == AfterCalls(c0, calls[..i])
      {
        OneMoreCall(c0, calls, i);
        ok := Perform(calls[i]);
        if !ok {
          assert SetsId(calls);
          return;
        }
        i := i + 1;
      }
      assert calls[..|calls|] == calls;
    }
  }

  /** The "saga-instance" table, by instance id. */
  class InstanceTable {
    var records: map<string, Content>

    constructor ()
      ensures records == map[]
    {
      records := map[];
    }
  }

  /** The job runner, as far as sagas see it. */
  class JobRunner {
    var schedules: set<Schedule>

    constructor ()
      ensures schedules == {}
    {
      schedules := {};
    }

    method AddScheduledTask(id: string, name: string)
      modifies this
      ensures schedules == ApplyOp(old(schedules), id, Arm(name))
    {
      schedules := schedules + {Schedule(id, name)};
    }

    method RemoveSchedule(id: string, name: string)
      modifies this
      ensures schedules == ApplyOp(old(schedules), id, Disarm(name))
    {
      schedules := schedules - {Schedule(id, name)};
    }
  }

  method ProcessTimersInSagaInstance(instance: SagaInstance, runner: JobRunner)
    modifies instance`content, runner
    ensures instance.content == old(instance.content).(activeTimers :=
              RemoveTimers(AddTimers(old(instance.content).activeTimers, instance.timersToAdd),
                  instance.timersToRemove))
    ensures runner.schedules ==
            ApplyOps(old(runner.schedules), instance.id, TimerOps(instance.timersToAdd, instance.timersToRemove))
  {
    AddAllTimers(instance, runner);
    RemoveAllListed(instance, runner);
    ApplyAppend(old(runner.schedules), instance.id, ArmOps(instance.timersToAdd), DisarmOps(instance.timersToRemove));
  }

  lemma AddOne(active: map<string, Kind>, schedules: set<Schedule>, id: string, adds: seq<TimerAdd>, i: nat)
    requires i < |adds|
    ensures var m := AddTimers(active, adds[..i]);
            AddTimers(active, adds[..i + 1]) == if adds[i].name in m then m else m[adds[i].name := adds[i].kind]
    ensures ApplyOps(schedules, id, ArmOps(adds[..i + 1])) ==
            ApplyOp(ApplyOps(schedules, id, ArmOps(adds[..i])), id, Arm(adds[i].name))
  {
    assert adds[..i + 1][..i] == adds[..i];
    assert ArmOps(adds[..i + 1])[..i] == ArmOps(adds[..i]);
  }

  /** The first loop of `processTimersInSagaInstance`. */
  method AddAllTimers(instance: SagaInstance, runner: JobRunner)
    modifies instance`content, runner
    ensures instance.content ==
            old(instance.content).(activeTimers := AddTimers(old(instance.content).activeTimers, instance.timersToAdd))
    ensures runner.schedules == ApplyOps(old(runner.schedules), instance.id, ArmOps(instance.timersToAdd))
  {
    var adds := instance.timersToAdd;
    var i := 0;
    while i < |adds|
      invariant 0 <= i <= |adds|
      invariant instance.content ==
                old(instance.content).(activeTimers := AddTimers(old(instance.content).activeTimers, adds[..i]))
      invariant runner.schedules == ApplyOps(old(runner.schedules), instance.id, ArmOps(adds[..i]))
    {
      var timer := adds[i];
      AddOne(old(instance.content).activeTimers, old(runner.schedules), instance.id, adds, i);
      if timer.name !in instance.content.activeTimers {
        instance.content := instance.content.(activeTimers := instance.content.activeTimers[timer.name := timer.kind]);
      }
      runner.AddScheduledTask(instance.id, timer.name);
      i := i + 1;
    }
    assert adds[..|adds|] == adds;
  }

  /** The second loop of `processTimersInSagaInstance`. */
  method RemoveAllListed(instance: SagaInstance, runner: JobRunner)
    modifies instance`content, runner
    ensures instance.content ==
            old(instance.content).(activeTimers := RemoveTimers(old(instance.content).activeTimers,
                instance.timersToRemove))
    ensures runner.schedules == ApplyOps(old(runner.schedules), instance.id, DisarmOps(instance.timersToRemove))
  {
    var removes := instance.timersToRemove;
    ghost var active := instance.content.activeTimers;
    var i := 0;
    assert RemoveTimers(active, []) == active;
    while i < |removes|
      invariant 0 <= i <= |removes|
      invariant instance.content == old(instance.content).(activeTimers := RemoveTimers(active, removes[..i]))
      invariant runner.schedules == ApplyOps(old(runner.schedules), instance.id, DisarmOps(removes[..i]))
    {
      assert DisarmOps(removes[..i + 1])[..i] == DisarmOps(removes[..i]);
      assert RemoveTimers(active, removes[..i + 1]) == RemoveTimers(active, removes[..i]) - {removes[i]};
      instance.content := instance.content.(activeTimers := instance.content.activeTimers - {removes[i]});
      runner.RemoveSchedule(instance.id, removes[i]);
      i := i + 1;
    }
    assert removes[..|removes|] == removes;
  }

  method RemoveAllTimersForInstance(instance: SagaInstance, table: InstanceTable, runner: JobRunner)
    modifies runner
    ensures runner.schedules ==
            if instance.id in table.records
            then WithoutTimers(old(runner.schedules), instance.id, instance.content.activeTimers.Keys)
            else old(runner.schedules)
  {
    if instance.id in table.records {
      var pending := instance.content.activeTimers.Keys;
      while pending != {}
        invariant pending <= instance.content.activeTimers.Keys
        invariant runner.schedules ==
                  WithoutTimers(old(runner.schedules), instance.id, instance.content.activeTimers.Keys - pending)
        decreases pending
      {
        var timer :| timer in pending;
        runner.RemoveSchedule(instance.id, timer);
        pending := pending - {timer};
      }
    }
  }

  method HandleSagaInstanceEnd(instance: SagaInstance, table: InstanceTable, runner: JobRunner)
    modifies table, runner
    ensures table.records ==
            if instance.content.ended && !instance.content.preserve then old(table.records) - {instance.id}
                else old(table.records)
    ensures runner.schedules ==
            if instance.content.ended && instance.id in old(table.records)
            then WithoutTimers(old(runner.schedules), instance.id, instance.content.activeTimers.Keys)
            else old(runner.schedules)
  {
    if instance.content.ended {
      RemoveAllTimersForInstance(instance, table, runner);
    }
    if instance.content.ended && !instance.content.preserve {
      table.records := table.records - {instance.id};
    }
  }

  /** `processSagaInstanceWithExecutor`, after the handler has made its calls. */
  method PersistStep(instance: SagaInstance, table: InstanceTable, runner: JobRunner)
    modifies instance`content, table, runner
    ensures var c := old(instance.content).(activeTimers :=
                RemoveTimers(AddTimers(old(instance.content).activeTimers, instance.timersToAdd),
                    instance.timersToRemove));
            var held := ApplyOps(old(runner.schedules), instance.id,
                TimerOps(instance.timersToAdd, instance.timersToRemove));
            && instance.content == c
            && table.records == (if c.ended && !c.preserve then old(table.records) - {instance.id}
                else old(table.records)[instance.id := c])
            && runner.schedules == (if c.ended then WithoutTimers(held, instance.id, c.activeTimers.Keys) else held)
  {
    ProcessTimersInSagaInstance(instance, runner);
    table.records := table.records[instance.id := instance.content];
    HandleSagaInstanceEnd(instance, table, runner);
    assert old(table.records)[instance.id := instance.content] - {instance.id} == old(table.records) - {instance.id};
  }

  /** `sagaHandleEvent`: the handler's calls are given; the caller sees how the task's promise settles. */
  method SagaHandleEvent(event: Event, instanceId: string, calls: seq<Call>, table: InstanceTable, runner: JobRunner)
    returns (outcome: C.Outcome)
    modifies table, runner
    ensures var r := Summary(if instanceId in old(table.records) then old(table.records)[instanceId].data else map[],
            calls);
            var t := TaskAlone(EventTask(event), instanceId, r, old(table.records), old(runner.schedules));
            && table.records == t.store && runner.schedules == t.schedules
            && outcome == OutcomeAlone(EventTask(event), instanceId, r, old(table.records))
    ensures TaskTold(EventTask(event), instanceId, calls, old(table.records), old(runner.schedules),
                     table.records, runner.schedules, outcome)
  {
    AloneTold(EventTask(event), instanceId, calls, table.records, runner.schedules);
    if instanceId !in table.records {
      return C.Rejected("TypeError");
    }
    var instance := new SagaInstance(instanceId, table.records[instanceId]);
    ghost var c0 := instance.content;
    var ok := instance.Invoke(calls);
    if !ok {
      return C.Rejected("SETTING ID IS FORBIDDEN");
    }
    instance.content := instance.content.(events := instance.content.events + [event]);
    PersistStep(instance, table, runner);
    ghost var r := Summary(c0.data, calls);
    assert instance.content == AfterHandler(EventTask(event), c0, r);
    assert [] + TimerOps(r.adds, r.removes) == TimerOps(r.adds, r.removes);
    return C.Resolved;
  }

  /** A one-shot timer that has fired is forgotten before the handler's own timer calls are carried out. */
  method DropFired(name: string, instance: SagaInstance, runner: JobRunner)
    modifies instance`content, runner
    ensures instance.content ==
            old(instance.content).(activeTimers := Fired(old(instance.content).activeTimers, TimerTask(name)))
    ensures runner.schedules ==
            ApplyOps(old(runner.schedules), instance.id, FiredOps(old(instance.content).activeTimers, TimerTask(name)))
  {
    if name in instance.content.activeTimers && instance.content.activeTimers[name].Timeout? {
      instance.content := instance.content.(activeTimers := instance.content.activeTimers - {name});
      runner.RemoveSchedule(instance.id, name);
      assert [Disarm(name)][..0] == [];
    }
  }

  /** `handleTimerEvent` for the instance's one record. */
  method HandleTimerEvent(name: string, instanceId: string, calls: seq<Call>, table: InstanceTable, runner: JobRunner)
    returns (outcome: C.Outcome)
    modifies table, runner
    ensures var r := Summary(if instanceId in old(table.records) then old(table.records)[instanceId].data else map[],
            calls);
            var t := TaskAlone(TimerTask(name), instanceId, r, old(table.records), old(runner.schedules));
            && table.records == t.store && runner.schedules == t.schedules
            && outcome == OutcomeAlone(TimerTask(name), instanceId, r, old(table.records))
    ensures TaskTold(TimerTask(name), instanceId, calls, old(table.records), old(runner.schedules),
                     table.records, runner.schedules, outcome)
  {
    AloneTold(TimerTask(name), instanceId, calls, table.records, runner.schedules);
    if instanceId !in table.records {
      return C.Resolved;
    }
    var instance := new SagaInstance(instanceId, table.records[instanceId]);
    ghost var c0 := instance.content;
    var ok := instance.Invoke(calls);
    if !ok {
      return C.Rejected("SETTING ID IS FORBIDDEN");
    }
    FinishTimer(name, c0, Summary(c0.data, calls), instance, table, runner);
    return C.Resolved;
  }

  /** The rest of the executor and of `processSagaInstanceWithExecutor`, once the timer's handler returned r. */
  method FinishTimer(name: string, ghost c0: Content, ghost r: Result, instance: SagaInstance,
    table: InstanceTable, runner: JobRunner)
    requires r.Returns? && instance.timersToAdd == r.adds && instance.timersToRemove == r.removes
    requires instance.content == c0.(data := r.data, ended := c0.ended || r.end.Some?,
                                     preserve := if r.end.Some? then r.end.value else c0.preserve)
    requires instance.id in table.records && table.records[instance.id] == c0
    modifies instance`content, table, runner
    ensures var t := TaskAlone(TimerTask(name), instance.id, r, old(table.records), old(runner.schedules));
            table.records == t.store && runner.schedules == t.schedules
  {
    ghost var id, held0 := instance.id, runner.schedules;
    ghost var fired := FiredOps(c0.activeTimers, TimerTask(name));
    DropFired(name, instance, runner);
    ghost var held1 := runner.schedules;
    assert held1 == ApplyOps(held0, id, fired);
    PersistStep(instance, table, runner);
    ApplyAppend(held0, id, fired, TimerOps(r.adds, r.removes));
    assert instance.content == AfterHandler(TimerTask(name), c0, r);
    assert ApplyOps(held1, id, TimerOps(r.adds, r.removes)) == ApplyOps(held0, id, HandlerOps(TimerTask(name), c0, r));
  }

  // ---------------------------------------------------------------- the same task in the engine

  /** s' is what the engine reaches from s when only body p moves. */
  ghost predicate OnlyBody(h: Handler, s: Engine, run: seq<Label>, s': Engine, p: nat) {
    && ValidRun(h, s, run) && After(h, s, run) == s'
    && (forall i :: 0 <= i < |run| ==> run[i] == Read(p) || run[i] == Handle(p) || (run[i].Tail? && run[i].p == p))
  }

  lemma Prepend(h: Handler, s: Engine, l: Label, run: seq<Label>, s': Engine, p: nat)
    requires Enabled(s, l) && OnlyBody(h, Step(h, s, l), run, s', p)
    requires l == Read(p) || l == Handle(p) || (l.Tail? && l.p == p)
    ensures OnlyBody(h, s, [l] + run, s', p)
  {
    assert ([l] + run)[1..] == run;
  }

  lemma {:induction false} DrainTimerOps(h: Handler, s: Engine, p: nat, next: Content,
    ops: seq<Op>, run: seq<Label>, s': Engine)
    returns (run': seq<Label>)
    requires HasBody(s, p) && s.bodies[p] == Timers(next, ops)
    requires OnlyBody(h, s.(bodies := s.bodies[p := Timers(next, [])],
             schedules := ApplyOps(s.schedules, KeyOf(s, p), ops)), run, s', p)
    ensures OnlyBody(h, s, run', s', p)
    decreases |ops|
  {
    if ops == [] {
      assert s.bodies[p := Timers(next, [])] == s.bodies;
      run' := run;
    } else {
      var id := KeyOf(s, p);
      assert ops == [ops[0]] + ops[1..] && [ops[0]][..0] == [];
      ApplyAppend(s.schedules, id, [ops[0]], ops[1..]);
      var s1 := Step(h, s, Tail(p, ""));
      assert s1.bodies[p := Timers(next, [])] == s.bodies[p := Timers(next, [])];
      run' := DrainTimerOps(h, s1, p, next, ops[1..], run, s');
      Prepend(h, s, Tail(p, ""), run', s', p);
      run' := [Tail(p, "")] + run';
    }
  }

  lemma {:induction false} DrainEndTimers(h: Handler, s: Engine, p: nat, next: Content,
    pending: set<string>, run: seq<Label>, s': Engine)
    returns (run': seq<Label>)
    requires HasBody(s, p) && s.bodies[p] == EndTimers(next, pending)
    requires OnlyBody(h, s.(bodies := s.bodies[p := EndTimers(next, {})],
                            schedules := WithoutTimers(s.schedules, KeyOf(s, p), pending)), run, s', p)
    ensures OnlyBody(h, s, run', s', p)
    decreases |pending|
  {
    var id := KeyOf(s, p);
    if pending == {} {
      assert s.bodies[p := EndTimers(next, {})] == s.bodies;
      assert WithoutTimers(s.schedules, id, {}) == s.schedules;
      run' := run;
    } else {
      var n :| n in pending;
      var s1 := Step(h, s, Tail(p, n));
      assert s1.bodies[p := EndTimers(next, {})] == s.bodies[p := EndTimers(next, {})];
      assert WithoutTimers(s1.schedules, id, pending - {n}) == WithoutTimers(s.schedules, id, pending);
      run' := DrainEndTimers(h, s1, p, next, pending - {n}, run, s');
      Prepend(h, s, Tail(p, n), run', s', p);
      run' := [Tail(p, n)] + run';
    }
  }

  /** What the engine ends in when the body of p runs from its read to its end undisturbed. */
  ghost function Alone(h: Handler, s: Engine, p: nat): Engine
    requires HasBody(s, p)
  {
    var id := KeyOf(s, p);
    var r := if id in s.store then h(p, s.store[id]) else Throws("");
    var t := TaskAlone(s.chains.links[p].task, id, r, s.store, s.schedules);
    s.(bodies := s.bodies[p := t.phase], store := t.store, schedules := t.schedules)
  }

  /** The tail of an ended task. */
  lemma EndAlone(h: Handler, s: Engine, p: nat, next: Content) returns (run: seq<Label>)
    requires HasBody(s, p) && s.bodies[p] == EndFinding(next) && KeyOf(s, p) in s.store
    ensures var id := KeyOf(s, p);
            OnlyBody(h, s, run, s.(bodies := s.bodies[p := Applied],
                                   store := if next.preserve then s.store else s.store - {id},
                                   schedules := WithoutTimers(s.schedules, id, next.activeTimers.Keys)), p)
  {
    var id := KeyOf(s, p);
    var pending := next.activeTimers.Keys;
    var s1 := Step(h, s, Tail(p, ""));
    var s2 := s1.(bodies := s1.bodies[p := EndTimers(next, {})], schedules := WithoutTimers(s.schedules, id, pending));
    var s3 := Step(h, s2, Tail(p, ""));
    assert s3.bodies == s.bodies[p := Applied];
    assert OnlyBody(h, s3, [], s3, p);
    Prepend(h, s2, Tail(p, ""), [], s3, p);
    run := DrainEndTimers(h, s1, p, next, pending, [Tail(p, "")] + [], s3);
    Prepend(h, s, Tail(p, ""), run, s3, p);
    run := [Tail(p, "")] + run;
  }

  /** The saga step of the objects above is one run of the engine's body. */
  lemma BodyAlone(h: Handler, s: Engine, p: nat) returns (run: seq<Label>)
    requires HasBody(s, p) && s.bodies[p].Reading?
    ensures OnlyBody(h, s, run, Alone(h, s, p), p)
  {
    var id := KeyOf(s, p);
    var s1 := Step(h, s, Read(p));
    if id !in s.store {
      assert OnlyBody(h, s1, [], s1, p);
      Prepend(h, s, Read(p), [], s1, p);
      run := [Read(p)] + [];
    } else {
      run := HandlingAlone(h, s1, p, s.store[id]);
      assert s1.bodies[p := Alone(h, s, p).bodies[p]] == Alone(h, s, p).bodies;
      Prepend(h, s, Read(p), run, Alone(h, s, p), p);
      run := [Read(p)] + run;
    }
  }

  /** From the handler's return to the end of the task: the timer calls, then the save. */
  lemma ReturnedAlone(h: Handler, s1: Engine, p: nat, end: Engine, next: Content, ops: seq<Op>)
    returns (run: seq<Label>)
    requires HasBody(s1, p) && s1.bodies[p] == Timers(next, ops)
    requires var s2 := s1.(bodies := s1.bodies[p := Timers(next, [])],
             schedules := ApplyOps(s1.schedules, KeyOf(s1, p), ops));
             end == SavedAlone(s2, p, next)
    ensures OnlyBody(h, s1, run, end, p)
  {
    var s2 := s1.(bodies := s1.bodies[p := Timers(next, [])], schedules := ApplyOps(s1.schedules, KeyOf(s1, p), ops));
    run := SavingAlone(h, s2, p, next);
    run := DrainTimerOps(h, s1, p, next, ops, run, end);
  }

  lemma HandlingAlone(h: Handler, s: Engine, p: nat, c: Content) returns (run: seq<Label>)
    requires HasBody(s, p) && s.bodies[p] == Handling(c) && KeyOf(s, p) in s.store && s.store[KeyOf(s, p)] == c
    ensures OnlyBody(h, s, run, Alone(h, s, p), p)
  {
    var s1 := Step(h, s, Handle(p));
    if h(p, c).Throws? {
      run := [];
      assert OnlyBody(h, s1, run, s1, p);
    } else {
      run := ReturningAlone(h, s, p, c);
    }
    Prepend(h, s, Handle(p), run, Alone(h, s, p), p);
    run := [Handle(p)] + run;
  }

  lemma ReturningAlone(h: Handler, s: Engine, p: nat, c: Content) returns (run: seq<Label>)
    requires HasBody(s, p) && s.bodies[p] == Handling(c) && KeyOf(s, p) in s.store && s.store[KeyOf(s, p)] == c
    requires h(p, c).Returns?
    ensures OnlyBody(h, Step(h, s, Handle(p)), run, Alone(h, s, p), p)
  {
    var task, r := s.chains.links[p].task, h(p, c);
    var next, ops := AfterHandler(task, c, r), HandlerOps(task, c, r);
    var s1 := s.(bodies := s.bodies[p := Timers(next, ops)]);
    var s2 := s.(bodies := s.bodies[p := Timers(next, [])], schedules := ApplyOps(s.schedules, KeyOf(s, p), ops));
    assert s1.bodies[p := Timers(next, [])] == s2.bodies;
    AloneIsSaved(h, s, p, s2, next);
    run := ReturnedAlone(h, s1, p, Alone(h, s, p), next, ops);
  }

  ghost function SavedAlone(s: Engine, p: nat, next: Content): Engine
    requires HasBody(s, p)
  {
    var id := KeyOf(s, p);
    var s1 := s.(bodies := s.bodies[p := Applied]);
    if !next.ended then s1.(store := s.store[id := next])
    else s1.(store := if next.preserve then s.store[id := next] else s.store - {id},
             schedules := WithoutTimers(s.schedules, id, next.activeTimers.Keys))
  }

  lemma AloneIsSaved(h: Handler, s: Engine, p: nat, s2: Engine, next: Content)
    requires HasBody(s, p) && s.bodies[p].Handling? && KeyOf(s, p) in s.store && h(p, s.store[KeyOf(s, p)]).Returns?
    requires var r := h(p, s.store[KeyOf(s, p)]); var task := s.chains.links[p].task; var c := s.store[KeyOf(s, p)];
             && next == AfterHandler(task, c, r)
             && s2 == s.(bodies := s2.bodies, schedules := ApplyOps(s.schedules, KeyOf(s, p), HandlerOps(task, c, r)))
             && s2.bodies == s.bodies[p := Timers(next, [])]
    ensures SavedAlone(s2, p, next) == Alone(h, s, p)
  {
    assert s2.bodies[p := Applied] == s.bodies[p := Applied];
  }

  lemma SavingAlone(h: Handler, s: Engine, p: nat, next: Content) returns (run: seq<Label>)
    requires HasBody(s, p) && s.bodies[p] == Timers(next, [])
    ensures OnlyBody(h, s, run, SavedAlone(s, p, next), p)
  {
    var id := KeyOf(s, p);
    var s1 := Step(h, s, Tail(p, ""));
    if next.ended {
      run := EndAlone(h, s1, p, next);
      assert s1.bodies[p := Applied] == s.bodies[p := Applied];
      assert s.store[id := next] - {id} == s.store - {id};
    } else {
      assert OnlyBody(h, s1, [], s1, p);
      run := [];
    }
    Prepend(h, s, Tail(p, ""), run, SavedAlone(s, p, next), p);
    run := [Tail(p, "")] + run;
  }
}
