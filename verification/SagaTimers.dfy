/**
 Timer agreement and the end of an instance.

 Both hold in every run in which no start handler calls `endSaga()` without preserving the data, and for
 every start handler result that does, there is a run in which they fail: a start step is not queued in the
 scheduler, so a task may already be working on the record the start step is about to delete.
 */
module SagaTimers {
  import opened Wrappers
  import opened SagaEngine
  import C = SagaScheduler

  ghost predicate IsBusy(ph: Phase) { ph.Timers? || ph.EndFinding? || ph.EndTimers? }

  ghost predicate Busy(s: Engine, id: string) {
    exists p: nat :: HasBody(s, p) && KeyOf(s, p) == id && IsBusy(s.bodies[p])
  }

  /** A schedule that the holder of this phase knows about. */
  ghost predicate AllowedBy(ph: Phase, n: string) {
    match ph
    case Timers(c, ops) => n in c.activeTimers || Disarm(n) in ops
    case EndFinding(c) => n in c.activeTimers
    case EndTimers(_, pending) => n in pending
    case _ => false
  }

  /** Every timer still to be armed is an active one or will be disarmed again. */
  ghost predicate OpsOk(ph: Phase) {
    ph.Timers? ==>
      forall i :: 0 <= i < |ph.ops| && ph.ops[i].Arm? ==>
        ph.ops[i].name in ph.next.activeTimers || Disarm(ph.ops[i].name) in ph.ops[i + 1..]
  }

  /** What is known of a schedule when no body of its instance is busy. */
  ghost predicate AtRest(s: Engine, x: Schedule)
    requires x.instanceId in s.starts
  {
    var st := s.starts[x.instanceId];
    if x.instanceId in s.store then
      var c := s.store[x.instanceId];
      x.name in c.activeTimers && (c.ended ==> (st.EndFinding? || st.EndTimers?) && AllowedBy(st, x.name))
    else st.Timers? && AllowedBy(st, x.name)
  }

  ghost predicate ScheduleOk(s: Engine, x: Schedule) {
    && x.instanceId in s.starts
    && (forall p: nat :: HasBody(s, p) && KeyOf(s, p) == x.instanceId && IsBusy(s.bodies[p]) ==>
          AllowedBy(s.bodies[p], x.name))
    && (!Busy(s, x.instanceId) ==> AtRest(s, x))
  }

  ghost predicate BodyFinds(s: Engine, p: nat)
    requires HasBody(s, p)
  {
    (s.bodies[p].Handling? || IsBusy(s.bodies[p]) ==> KeyOf(s, p) in s.store) && OpsOk(s.bodies[p])
  }

  ghost predicate StartOk(s: Engine, id: string)
    requires id in s.starts && id in s.created
  {
    var st := s.starts[id];
    && OpsOk(st)
    && (st.EndFinding? || st.EndTimers? ==> st.next == s.created[id] && s.created[id].ended)
    && (s.created[id].ended ==> s.created[id].preserve)
  }

  ghost predicate FindsAndSchedules(s: Engine) {
    && (forall p: nat :: p in s.bodies ==> HasBody(s, p) && BodyFinds(s, p))
    && (forall x :: x in s.schedules ==> ScheduleOk(s, x))
  }

  ghost predicate AllStartsOk(s: Engine) { forall id :: id in s.created ==> id in s.starts && StartOk(s, id) }

  ghost predicate TInv(h: Handler, s: Engine) { Inv(h, s) && AllStartsOk(s) && FindsAndSchedules(s) }

  // ---------------------------------------------------------------- the calls a handler leads to

  lemma OpsCoverOld(task: Task, c: Content, r: Result, n: string)
    requires r.Returns? && n in c.activeTimers
    ensures AllowedBy(Timers(AfterHandler(task, c, r), HandlerOps(task, c, r)), n)
  {
    var fired := FiredOps(c.activeTimers, task);
    var ops := HandlerOps(task, c, r);
    if n !in AfterHandler(task, c, r).activeTimers {
      if n in r.removes {
        var i :| 0 <= i < |r.removes| && r.removes[i] == n;
        assert ops[|fired| + |r.adds| + i] == Disarm(n);
      } else {
        assert n !in Fired(c.activeTimers, task);
        assert ops[0] == Disarm(n);
      }
    }
  }

  lemma ArmsAreCovered(active: map<string, Kind>, adds: seq<TimerAdd>, removes: seq<string>, i: nat)
    requires i < |adds|
    ensures adds[i].name in RemoveTimers(AddTimers(active, adds), removes) || Disarm(adds[i].name) in DisarmOps(removes)
  {
    var n := adds[i].name;
    assert adds[i] in adds;
    if n in removes {
      var j :| 0 <= j < |removes| && removes[j] == n;
      assert DisarmOps(removes)[j] == Disarm(n);
    }
  }

  lemma OpsOkAfter(c: Content, fired: seq<Op>, adds: seq<TimerAdd>, removes: seq<string>)
    requires forall k :: 0 <= k < |adds| ==>
             adds[k].name in c.activeTimers || Disarm(adds[k].name) in DisarmOps(removes)
    requires forall i :: 0 <= i < |fired| ==> fired[i].Disarm?
    ensures OpsOk(Timers(c, fired + TimerOps(adds, removes)))
  {
    var front, back := fired + ArmOps(adds), DisarmOps(removes);
    var ops := fired + TimerOps(adds, removes);
    assert ops == front + back;
    forall i | 0 <= i < |ops| && ops[i].Arm?
      ensures ops[i].name in c.activeTimers || Disarm(ops[i].name) in ops[i + 1..]
    {
      var n := adds[i - |fired|].name;
      assert ops[i] == Arm(n);
      DisarmsFollow(front, back, i, Disarm(n));
    }
  }

  /** The removes come after everything else. */
  lemma DisarmsFollow(front: seq<Op>, back: seq<Op>, i: nat, op: Op)
    requires i < |front|
    ensures op in back ==> op in (front + back)[i + 1..]
  {
    assert (front + back)[i + 1..] == front[i + 1..] + back;
  }

  lemma HandledOps(task: Task, c: Content, r: Result)
    requires r.Returns?
    ensures OpsOk(Timers(AfterHandler(task, c, r), HandlerOps(task, c, r)))
  {
    forall k | 0 <= k < |r.adds|
      ensures r.adds[k].name in AfterHandler(task, c, r).activeTimers || Disarm(r.adds[k].name) in DisarmOps(r.removes)
    {
      ArmsAreCovered(Fired(c.activeTimers, task), r.adds, r.removes, k);
    }
    OpsOkAfter(AfterHandler(task, c, r), FiredOps(c.activeTimers, task), r.adds, r.removes);
  }

  lemma StartedOps(event: Event, r: Result)
    requires r.Returns?
    ensures OpsOk(Timers(StartContent(event, r), TimerOps(r.adds, r.removes)))
  {
    forall k | 0 <= k < |r.adds|
      ensures r.adds[k].name in StartContent(event, r).activeTimers || Disarm(r.adds[k].name) in DisarmOps(r.removes)
    {
      ArmsAreCovered(map[], r.adds, r.removes, k);
    }
    assert [] + TimerOps(r.adds, r.removes) == TimerOps(r.adds, r.removes);
    OpsOkAfter(StartContent(event, r), [], r.adds, r.removes);
  }

  /** Performing the next call keeps what is armed within what the phase knows. */
  lemma NextOp(ph: Phase, id: string, schedules: set<Schedule>, n: string)
    requires ph.Timers? && ph.ops != [] && OpsOk(ph) && Schedule(id, n) in ApplyOp(schedules, id, ph.ops[0])
    requires Schedule(id, n) in schedules ==> AllowedBy(ph, n)
    ensures AllowedBy(Timers(ph.next, ph.ops[1..]), n) && OpsOk(Timers(ph.next, ph.ops[1..]))
  {
    NextOpsOk(ph);
    assert ph.ops == [ph.ops[0]] + ph.ops[1..];
  }

  lemma NextOpsOk(ph: Phase)
    requires ph.Timers? && ph.ops != [] && OpsOk(ph)
    ensures OpsOk(Timers(ph.next, ph.ops[1..]))
  {
    var rest := ph.ops[1..];
    forall i | 0 <= i < |rest| && rest[i].Arm?
      ensures rest[i].name in ph.next.activeTimers || Disarm(rest[i].name) in rest[i + 1..]
    {
      assert rest[i] == ph.ops[i + 1] && rest[i + 1..] == ph.ops[i + 2..];
    }
  }

  // ---------------------------------------------------------------- every step keeps it

  /** Nothing that ScheduleOk looks at has changed for x. */
  ghost predicate SameFor(s: Engine, s': Engine, id: string) {
    && (id in s.starts ==> id in s'.starts && s'.starts[id] == s.starts[id])
    && (id in s.store <==> id in s'.store) && (id in s.store ==> s'.store[id] == s.store[id])
    && (forall p: nat :: HasBody(s, p) && KeyOf(s, p) == id && IsBusy(s.bodies[p]) ==>
          HasBody(s', p) && KeyOf(s', p) == id && s'.bodies[p] == s.bodies[p])
    && (forall p: nat :: HasBody(s', p) && KeyOf(s', p) == id && IsBusy(s'.bodies[p]) ==>
          HasBody(s, p) && KeyOf(s, p) == id && s'.bodies[p] == s.bodies[p])
  }

  lemma FrameSchedule(s: Engine, s': Engine, x: Schedule)
    requires ScheduleOk(s, x) && SameFor(s, s', x.instanceId)
    ensures ScheduleOk(s', x)
  {
    if Busy(s, x.instanceId) {
      var p: nat :| HasBody(s, p) && KeyOf(s, p) == x.instanceId && IsBusy(s.bodies[p]);
      assert HasBody(s', p) && KeyOf(s', p) == x.instanceId && IsBusy(s'.bodies[p]);
    }
  }

  /** Nobody else's body is busy. */
  ghost predicate Alone(s: Engine, p: nat)
    requires HasBody(s, p)
  {
    forall q: nat :: HasBody(s, q) && q != p && KeyOf(s, q) == KeyOf(s, p) ==>
      !IsBusy(s.bodies[q]) && !s.bodies[q].Handling?
  }

  lemma OnlyBusy(h: Handler, s: Engine, p: nat)
    requires Inv(h, s) && HasBody(s, p) && !s.bodies[p].Done()
    ensures Alone(s, p)
  {
    forall q: nat | HasBody(s, q) && q != p && KeyOf(s, q) == KeyOf(s, p)
      ensures !IsBusy(s.bodies[q]) && !s.bodies[q].Handling?
    {
      if !s.bodies[q].Done() { OneBody(h, s, p, q); }
    }
  }

  lemma RecordIsCopy(h: Handler, s: Engine, p: nat)
    requires Inv(h, s) && HasBody(s, p) && s.bodies[p].Handling? && KeyOf(s, p) in s.store
    ensures s.store[KeyOf(s, p)] == s.bodies[p].copy
  {
    assert BodyOk(h, s, p) && IdOk(h, s, KeyOf(s, p));
  }

  /** The phase of one body changes; schedules of other instances do not notice. */
  lemma OtherInstance(s: Engine, s': Engine, p: nat, x: Schedule)
    requires HasBody(s, p) && ScheduleOk(s, x) && x.instanceId != KeyOf(s, p) && p in s'.bodies
    requires s'.chains == s.chains && s'.starts == s.starts && s'.bodies == s.bodies[p := s'.bodies[p]]
    requires (x.instanceId in s.store <==> x.instanceId in s'.store)
             && (x.instanceId in s.store ==> s'.store[x.instanceId] == s.store[x.instanceId])
    ensures ScheduleOk(s', x)
  {
    FrameSchedule(s, s', x);
  }

  /** A schedule of p's own instance, from what is known of p's new phase. */
  lemma OwnInstance(s: Engine, s': Engine, p: nat, x: Schedule)
    requires HasBody(s, p) && Alone(s, p) && x.instanceId == KeyOf(s, p) && x.instanceId in s.starts && p in s'.bodies
    requires s'.chains == s.chains && s'.starts == s.starts && s'.bodies == s.bodies[p := s'.bodies[p]]
    requires if IsBusy(s'.bodies[p]) then AllowedBy(s'.bodies[p], x.name) else AtRest(s', x)
    ensures ScheduleOk(s', x)
  {
    assert HasBody(s', p) && KeyOf(s', p) == x.instanceId;
  }

  /** Schedules of p's instance after its handler has returned. */
  lemma HandleSchedule(h: Handler, s: Engine, p: nat, ph: Phase, x: Schedule)
    requires HasBody(s, p) && s.bodies[p].Handling? && Alone(s, p) && BodyFinds(s, p) && ScheduleOk(s, x)
    requires s.store[KeyOf(s, p)] == s.bodies[p].copy
    requires ph == Handled(h, p, s.chains.links[p].task, s.bodies[p].copy)
    ensures ScheduleOk(s.(bodies := s.bodies[p := ph]), x)
  {
    var s' := s.(bodies := s.bodies[p := ph]);
    if x.instanceId != KeyOf(s, p) {
      OtherInstance(s, s', p, x);
    } else {
      assert !Busy(s, x.instanceId);
      if ph.Timers? { OpsCoverOld(s.chains.links[p].task, s.bodies[p].copy, h(p, s.bodies[p].copy), x.name); }
      OwnInstance(s, s', p, x);
    }
  }

  /** What a later step of a body does to a schedule of its own instance. */
  lemma OwnTail(ph: Phase, id: string, store: map<string, Content>, schedules: set<Schedule>, choice: string, n: string)
    requires TailEnabled(ph, choice) && OpsOk(ph) && id in store
    requires Schedule(id, n) in schedules ==> AllowedBy(ph, n)
    requires Schedule(id, n) in TailStep(ph, id, store, schedules, choice).schedules
    ensures var t := TailStep(ph, id, store, schedules, choice);
            if IsBusy(t.phase) then AllowedBy(t.phase, n)
            else id in t.store && n in t.store[id].activeTimers && !t.store[id].ended
  {
    if ph.Timers? && ph.ops != [] { NextOp(ph, id, schedules, n); }
  }

  lemma TailSchedule(s: Engine, s': Engine, p: nat, choice: string, x: Schedule)
    requires HasBody(s, p) && TailEnabled(s.bodies[p], choice) && Alone(s, p) && BodyFinds(s, p)
    requires KeyOf(s, p) in s.starts && x in s'.schedules && (x in s.schedules ==> ScheduleOk(s, x))
    requires var t := TailStep(s.bodies[p], KeyOf(s, p), s.store, s.schedules, choice);
             s' == s.(bodies := s.bodies[p := t.phase], store := t.store, schedules := t.schedules)
    ensures ScheduleOk(s', x)
  {
    var id := KeyOf(s, p);
    if x.instanceId != id {
      assert x in s.schedules;
      OtherInstance(s, s', p, x);
    } else {
      assert x == Schedule(id, x.name);
      OwnTail(s.bodies[p], id, s.store, s.schedules, choice, x.name);
      OwnInstance(s, s', p, x);
    }
  }

  lemma NotBusyBeforeCreate(h: Handler, s: Engine, id: string)
    requires Inv(h, s) && id in s.starts && s.starts[id].Timers?
    ensures !Busy(s, id)
  {
    forall p: nat | HasBody(s, p) && KeyOf(s, p) == id ensures !IsBusy(s.bodies[p]) { assert BodyOk(h, s, p); }
  }

  /** What a step of the start does to a schedule that was at rest. */
  lemma OwnStart(s: Engine, s': Engine, id: string, choice: string, x: Schedule)
    requires id in s.starts && id in s.created && StartOk(s, id) && TailEnabled(s.starts[id], choice)
             && x.instanceId == id
    requires s.starts[id].Timers? ==> id !in s.store
    requires var t := TailStep(s.starts[id], id, s.store, s.schedules, choice);
             s' == s.(starts := s.starts[id := t.phase], store := t.store, schedules := t.schedules)
    requires x in s'.schedules && (x in s.schedules ==> AtRest(s, x)) && (s.starts[id].Timers? || x in s.schedules)
    ensures AtRest(s', x)
  {
    var st := s.starts[id];
    assert x == Schedule(id, x.name);
    if st.Timers? && st.ops != [] { NextOp(st, id, s.schedules, x.name); }
  }

  lemma StartSchedule(s: Engine, s': Engine, id: string, choice: string, x: Schedule)
    requires id in s.starts && id in s.created && StartOk(s, id) && TailEnabled(s.starts[id], choice)
    requires s.starts[id].Timers? ==> id !in s.store && !Busy(s, id)
    requires var t := TailStep(s.starts[id], id, s.store, s.schedules, choice);
             s' == s.(starts := s.starts[id := t.phase], store := t.store, schedules := t.schedules)
    requires x in s'.schedules && (x in s.schedules ==> ScheduleOk(s, x))
    ensures ScheduleOk(s', x)
  {
    if x.instanceId != id {
      assert x in s.schedules;
      FrameSchedule(s, s', x);
    } else {
      assert Busy(s, id) <==> Busy(s', id) by { SameBusy(s, s', id); }
      assert s.starts[id].Timers? || x in s.schedules;
      if !Busy(s, id) { OwnStart(s, s', id, choice, x); }
    }
  }

  lemma SameBusy(s: Engine, s': Engine, id: string)
    requires s'.bodies == s.bodies && s'.chains == s.chains
    ensures Busy(s', id) <==> Busy(s, id)
  {
    forall p: nat ensures HasBody(s', p) <==> HasBody(s, p) {}
    forall p: nat | HasBody(s, p) ensures KeyOf(s', p) == KeyOf(s, p) {}
  }

  lemma ReadFinds(h: Handler, s: Engine, p: nat)
    requires FindsAndSchedules(s) && Enabled(s, Read(p))
    ensures var s' := Step(h, s, Read(p)); forall q: nat :: q in s'.bodies ==> BodyFinds(s', q)
  {
    var s' := Step(h, s, Read(p));
    forall q: nat | q in s'.bodies ensures BodyFinds(s', q) { assert BodyFinds(s, q); }
  }

  lemma HandleFinds(h: Handler, s: Engine, s': Engine, p: nat)
    requires FindsAndSchedules(s) && HasBody(s, p) && s.bodies[p].Handling?
    requires s' == s.(bodies := s.bodies[p := Handled(h, p, s.chains.links[p].task, s.bodies[p].copy)])
    ensures forall q: nat :: q in s'.bodies ==> HasBody(s', q) && BodyFinds(s', q)
  {
    forall q: nat | q in s'.bodies ensures HasBody(s', q) && BodyFinds(s', q) {
      assert BodyFinds(s, q);
      if q == p && h(q, s.bodies[q].copy).Returns? {
        HandledOps(s.chains.links[q].task, s.bodies[q].copy, h(q, s.bodies[q].copy));
      }
    }
  }

  lemma TailFinds(s: Engine, s': Engine, p: nat, choice: string)
    requires Shape(s) && HasBody(s, p) && TailEnabled(s.bodies[p], choice) && Alone(s, p)
    requires forall q: nat :: q in s.bodies ==> BodyFinds(s, q)
    requires var t := TailStep(s.bodies[p], KeyOf(s, p), s.store, s.schedules, choice);
             s' == s.(bodies := s.bodies[p := t.phase], store := t.store, schedules := t.schedules)
    ensures forall q: nat :: q in s'.bodies ==> BodyFinds(s', q)
  {
    forall q: nat | q in s'.bodies ensures BodyFinds(s', q) {
      assert BodyFinds(s, q);
      if q == p && s.bodies[p].Timers? && s.bodies[p].ops != [] { NextOpsOk(s.bodies[p]); }
    }
  }

  ghost predicate KeysKept(s: Engine, s': Engine) {
    forall p :: 0 <= p < |s.chains.links| ==> p < |s'.chains.links| && s'.chains.links[p].key == s.chains.links[p].key
  }

  /** Steps that leave the store, the start steps and all busy bodies alone. */
  ghost predicate TimersIdle(s: Engine, s': Engine) {
    && s'.store == s.store && s'.schedules <= s.schedules
    && (forall id :: id in s.starts ==> id in s'.starts && s'.starts[id] == s.starts[id])
    && KeysKept(s, s')
    && (forall p: nat :: p in s.bodies ==>
          p in s'.bodies && (s'.bodies[p] == s.bodies[p] || !(IsBusy(s.bodies[p]) || IsBusy(s'.bodies[p]))))
    && (forall p: nat :: p in s'.bodies ==> p in s.bodies || s'.bodies[p] == Reading)
  }

  lemma IdleSchedules(s: Engine, s': Engine)
    requires Shape(s) && Shape(s') && TimersIdle(s, s') && forall x :: x in s.schedules ==> ScheduleOk(s, x)
    ensures forall x :: x in s'.schedules ==> ScheduleOk(s', x)
  {
    forall x | x in s'.schedules ensures ScheduleOk(s', x) {
      assert ScheduleOk(s, x);
      IdleSame(s, s', x.instanceId);
      FrameSchedule(s, s', x);
    }
  }

  lemma IdleSame(s: Engine, s': Engine, id: string)
    requires Shape(s) && Shape(s') && TimersIdle(s, s') && id in s.starts
    ensures SameFor(s, s', id)
  {
  }

  lemma IdleStep(h: Handler, s: Engine, l: Label)
    requires Enabled(s, l) && !l.Handle? && !l.Tail? && !l.StartTail?
    requires l.Begin? ==> l.p !in s.bodies
    ensures TimersIdle(s, Step(h, s, l))
  {}

  /** No start step of the run calls `endSaga()` without preserving the data. */
  ghost predicate StartKeeps(l: Label) { l.StartBegin? && l.result.Returns? ==> l.result.end != Some(false) }

  lemma StartsOk(h: Handler, s: Engine, l: Label)
    requires TInv(h, s) && Enabled(s, l) && StartKeeps(l)
    ensures AllStartsOk(Step(h, s, l))
  {
    match l
    case StartBegin(id, event, r) => BegunStartsOk(h, s, id, event, r);
    case StartTail(id, choice) => TailStartsOk(h, s, id, choice);
    case _ => SameStartsOk(h, s, l);
  }

  lemma SameStartsOk(h: Handler, s: Engine, l: Label)
    requires AllStartsOk(s) && Enabled(s, l) && !l.StartBegin? && !l.StartTail?
    ensures AllStartsOk(Step(h, s, l))
  {
    assert Step(h, s, l).starts == s.starts && Step(h, s, l).created == s.created;
    forall id | id in s.created ensures StartOk(Step(h, s, l), id) { assert StartOk(s, id); }
  }

  lemma BegunStartsOk(h: Handler, s: Engine, id: string, event: Event, r: Result)
    requires AllStartsOk(s) && Enabled(s, StartBegin(id, event, r)) && StartKeeps(StartBegin(id, event, r))
    ensures AllStartsOk(Step(h, s, StartBegin(id, event, r)))
  {
    var s' := Step(h, s, StartBegin(id, event, r));
    forall j | j in s'.created ensures j in s'.starts && StartOk(s', j) {
      if j == id { BegunStartOk(s', id, event, r); } else { SameStartOk(s, s', j); }
    }
  }

  lemma SameStartOk(s: Engine, s': Engine, j: string)
    requires j in s.created && j in s.starts && StartOk(s, j)
    requires j in s'.created && j in s'.starts && s'.created[j] == s.created[j] && s'.starts[j] == s.starts[j]
    ensures StartOk(s', j)
  {
  }

  lemma BegunStartOk(s': Engine, id: string, event: Event, r: Result)
    requires r.Returns? && StartKeeps(StartBegin(id, event, r)) && id in s'.starts && id in s'.created
    requires s'.created[id] == StartContent(event, r)
             && s'.starts[id] == Timers(StartContent(event, r), TimerOps(r.adds, r.removes))
    ensures StartOk(s', id)
  {
    StartedOps(event, r);
  }

  lemma TailStartsOk(h: Handler, s: Engine, id: string, choice: string)
    requires TInv(h, s) && Enabled(s, StartTail(id, choice))
    ensures AllStartsOk(Step(h, s, StartTail(id, choice)))
  {
    assert StartOk(s, id) && IdOk(h, s, id);
    TailStartOk(s, id, choice);
    forall j | j in s.created && j != id ensures StartOk(s, j) {}
  }

  /** The start step's own phase. */
  lemma TailStartOk(s: Engine, id: string, choice: string)
    requires id in s.starts && id in s.created && StartOk(s, id) && TailEnabled(s.starts[id], choice)
    requires s.starts[id].Timers? ==> s.starts[id].next == s.created[id]
    ensures var t := TailStep(s.starts[id], id, s.store, s.schedules, choice);
            OpsOk(t.phase)
                && (t.phase.EndFinding? || t.phase.EndTimers? ==> t.phase.next == s.created[id] && s.created[id].ended)
  {
    if s.starts[id].Timers? && s.starts[id].ops != [] { NextOpsOk(s.starts[id]); }
  }

  lemma FindsKept(s: Engine, s': Engine)
    requires Shape(s) && Shape(s') && s.store.Keys <= s'.store.Keys
    requires forall p: nat :: p in s.bodies ==> BodyFinds(s, p)
    requires KeysKept(s, s')
    requires forall p: nat :: p in s'.bodies ==>
             s'.bodies[p] == Reading || (p in s.bodies && s'.bodies[p] == s.bodies[p])
    ensures forall p: nat :: p in s'.bodies ==> BodyFinds(s', p)
  {
    forall p: nat | p in s'.bodies ensures BodyFinds(s', p) {
      if p in s.bodies { assert BodyFinds(s, p); }
    }
  }

  lemma OtherFinds(h: Handler, s: Engine, l: Label)
    requires Enabled(s, l) && !l.Handle? && !l.Tail? && !l.Read? && !l.StartTail?
    ensures var s' := Step(h, s, l);
            && s.store.Keys <= s'.store.Keys
            && KeysKept(s, s')
            && (forall p: nat :: p in s'.bodies ==>
                  s'.bodies[p] == Reading || (p in s.bodies && s'.bodies[p] == s.bodies[p]))
  {}

  lemma TStep(h: Handler, s: Engine, l: Label)
    requires TInv(h, s) && Enabled(s, l) && StartKeeps(l)
    ensures TInv(h, Step(h, s, l))
  {
    InvStep(h, s, l);
    StartsOk(h, s, l);
    FindsStep(h, s, l);
  }

  lemma FindsStep(h: Handler, s: Engine, l: Label)
    requires TInv(h, s) && Enabled(s, l) && Inv(h, Step(h, s, l))
    ensures FindsAndSchedules(Step(h, s, l))
  {
    match l
    case Handle(p) => HandleTStep(h, s, p);
    case Tail(p, choice) => TailTStep(h, s, p, choice);
    case StartTail(id, choice) => StartTStep(h, s, id, choice);
    case Read(p) => ReadTStep(h, s, p);
    case _ => OtherTStep(h, s, l);
  }

  lemma OtherTStep(h: Handler, s: Engine, l: Label)
    requires TInv(h, s) && Enabled(s, l) && !l.Handle? && !l.Tail? && !l.Read? && !l.StartTail? && Inv(h, Step(h, s, l))
    ensures FindsAndSchedules(Step(h, s, l))
  {
    if l.Begin? { BeginIsNew(s, l.p); }
    IdleStep(h, s, l);
    OtherFinds(h, s, l);
    IdleTStep(s, Step(h, s, l));
  }

  lemma HandleKept(h: Handler, s: Engine, s': Engine, p: nat)
    requires FindsAndSchedules(s) && HasBody(s, p) && s.bodies[p].Handling? && Alone(s, p)
    requires KeyOf(s, p) in s.store && s.store[KeyOf(s, p)] == s.bodies[p].copy
    requires s' == s.(bodies := s.bodies[p := Handled(h, p, s.chains.links[p].task, s.bodies[p].copy)])
    ensures FindsAndSchedules(s')
  {
    HandleFinds(h, s, s', p);
    forall x | x in s'.schedules ensures ScheduleOk(s', x) {
      assert ScheduleOk(s, x) && BodyFinds(s, p);
      HandleSchedule(h, s, p, s'.bodies[p], x);
    }
  }

  lemma HandleTStep(h: Handler, s: Engine, p: nat)
    requires TInv(h, s) && Enabled(s, Handle(p))
    ensures FindsAndSchedules(Step(h, s, Handle(p)))
  {
    HandleFacts(h, s, p);
    HandleKept(h, s, Step(h, s, Handle(p)), p);
  }

  lemma HandleFacts(h: Handler, s: Engine, p: nat)
    requires TInv(h, s) && HasBody(s, p) && s.bodies[p].Handling?
    ensures Alone(s, p) && KeyOf(s, p) in s.store && s.store[KeyOf(s, p)] == s.bodies[p].copy
  {
    OnlyBusy(h, s, p);
    assert BodyFinds(s, p);
    RecordIsCopy(h, s, p);
  }

  lemma TailKept(s: Engine, s': Engine, p: nat, choice: string)
    requires Shape(s) && FindsAndSchedules(s) && HasBody(s, p) && TailEnabled(s.bodies[p], choice) && Alone(s, p)
    requires KeyOf(s, p) in s.starts
    requires var t := TailStep(s.bodies[p], KeyOf(s, p), s.store, s.schedules, choice);
             s' == s.(bodies := s.bodies[p := t.phase], store := t.store, schedules := t.schedules)
    ensures FindsAndSchedules(s')
  {
    TailFinds(s, s', p, choice);
    forall x | x in s'.schedules ensures ScheduleOk(s', x) {
      assert BodyFinds(s, p);
      if x in s.schedules { assert ScheduleOk(s, x); }
      TailSchedule(s, s', p, choice, x);
    }
  }

  lemma TailTStep(h: Handler, s: Engine, p: nat, choice: string)
    requires TInv(h, s) && Enabled(s, Tail(p, choice))
    ensures FindsAndSchedules(Step(h, s, Tail(p, choice)))
  {
    OnlyBusy(h, s, p);
    BodyHasStart(h, s, p);
    TailKept(s, Step(h, s, Tail(p, choice)), p, choice);
  }

  lemma BodyHasStart(h: Handler, s: Engine, p: nat)
    requires TInv(h, s) && HasBody(s, p) && IsBusy(s.bodies[p])
    ensures KeyOf(s, p) in s.starts
  {
    assert BodyFinds(s, p) && BodyOk(h, s, p);
  }

  lemma StartTStep(h: Handler, s: Engine, id: string, choice: string)
    requires TInv(h, s) && Enabled(s, StartTail(id, choice)) && Inv(h, Step(h, s, StartTail(id, choice)))
    ensures FindsAndSchedules(Step(h, s, StartTail(id, choice)))
  {
    var t := TailStep(s.starts[id], id, s.store, s.schedules, choice);
    var s' := s.(starts := s.starts[id := t.phase], store := t.store, schedules := t.schedules);
    assert StartOk(s, id) && IdOk(h, s, id);
    assert s.store.Keys <= s'.store.Keys;
    FindsKept(s, s');
    if s.starts[id].Timers? { NotBusyBeforeCreate(h, s, id); }
    forall x | x in s'.schedules ensures ScheduleOk(s', x) {
      if x in s.schedules { assert ScheduleOk(s, x); }
      StartSchedule(s, s', id, choice, x);
    }
  }

  lemma ReadTStep(h: Handler, s: Engine, p: nat)
    requires TInv(h, s) && Enabled(s, Read(p)) && Inv(h, Step(h, s, Read(p)))
    ensures FindsAndSchedules(Step(h, s, Read(p)))
  {
    IdleStep(h, s, Read(p));
    IdleSchedules(s, Step(h, s, Read(p)));
    ReadFinds(h, s, p);
  }

  lemma IdleTStep(s: Engine, s': Engine)
    requires Shape(s) && Shape(s') && TimersIdle(s, s') && s.store.Keys <= s'.store.Keys
    requires FindsAndSchedules(s)
    requires forall p: nat :: p in s'.bodies ==>
             s'.bodies[p] == Reading || (p in s.bodies && s'.bodies[p] == s.bodies[p])
    ensures FindsAndSchedules(s')
  {
    IdleSchedules(s, s');
    FindsKept(s, s');
  }

  ghost predicate StartsKeep(run: seq<Label>) { forall i :: 0 <= i < |run| ==> StartKeeps(run[i]) }

  lemma {:induction false} RunKeepsTInv(h: Handler, s: Engine, run: seq<Label>)
    requires TInv(h, s) && ValidRun(h, s, run) && StartsKeep(run)
    ensures TInv(h, After(h, s, run))
    decreases |run|
  {
    if run != [] {
      TStep(h, s, run[0]);
      RunKeepsTInv(h, Step(h, s, run[0]), run[1..]);
    }
  }

  // ---------------------------------------------------------------- the theorems

  /** No task body and no start step of the instance is in progress. */
  ghost predicate Quiet(s: Engine, id: string) {
    && (forall p: nat :: HasBody(s, p) && KeyOf(s, p) == id ==> s.bodies[p].Done())
    && (id in s.starts ==> s.starts[id].Done())
  }

  /** Every schedule held for an instance that is between steps is an active timer of its stored record, and
      an ended instance, preserved or deleted, holds none. */
  ghost predicate TimersAgree(s: Engine) {
    forall x :: x in s.schedules && Quiet(s, x.instanceId) ==>
      && x.instanceId in s.store
      && !s.store[x.instanceId].ended
      && x.name in s.store[x.instanceId].activeTimers
  }

  lemma AgreeNow(h: Handler, s: Engine)
    requires TInv(h, s)
    ensures TimersAgree(s)
  {
    forall x | x in s.schedules && Quiet(s, x.instanceId)
      ensures x.instanceId in s.store && !s.store[x.instanceId].ended && x.name in s.store[x.instanceId].activeTimers
    {
      assert ScheduleOk(s, x);
      assert !Busy(s, x.instanceId);
    }
  }

  lemma TimerAgreement(h: Handler, run: seq<Label>)
    requires ValidRun(h, Init, run) && StartsKeep(run)
    ensures TimersAgree(After(h, Init, run))
  {
    RunKeepsTInv(h, Init, run);
    AgreeNow(h, After(h, Init, run));
  }

  /** The record was created and has since been deleted. */
  ghost predicate Gone(s: Engine, id: string) {
    id in s.created && id in s.starts && !s.starts[id].Timers? && id !in s.store
  }

  ghost predicate InvokesHandlerOf(s: Engine, l: Label, id: string) {
    l.Handle? && HasBody(s, l.p) && KeyOf(s, l.p) == id
  }

  lemma GoneStays(h: Handler, s: Engine, l: Label, id: string)
    requires TInv(h, s) && Enabled(s, l) && Gone(s, id)
    ensures !InvokesHandlerOf(s, l, id) && Gone(Step(h, s, l), id)
  {
    NotInvoked(s, l, id);
    match l
    case Tail(p, choice) => GoneAfterTail(s, p, choice, id);
    case StartTail(i, choice) => GoneAfterStart(s, i, choice, id);
    case _ => GoneAfterOther(h, s, l, id);
  }

  /** Handlers run only for instances whose record is there. */
  lemma NotInvoked(s: Engine, l: Label, id: string)
    requires FindsAndSchedules(s) && Enabled(s, l) && id !in s.store
    ensures !InvokesHandlerOf(s, l, id)
    ensures l.Tail? ==> KeyOf(s, l.p) in s.store
  {
    if l.Handle? || l.Tail? { assert BodyFinds(s, l.p); }
  }

  lemma GoneAfterTail(s: Engine, p: nat, choice: string, id: string)
    requires HasBody(s, p) && TailEnabled(s.bodies[p], choice) && KeyOf(s, p) in s.store && id !in s.store
    ensures id !in TailStep(s.bodies[p], KeyOf(s, p), s.store, s.schedules, choice).store
  {
  }

  lemma GoneAfterStart(s: Engine, i: string, choice: string, id: string)
    requires i in s.starts && TailEnabled(s.starts[i], choice) && id !in s.store && (i == id ==> !s.starts[i].Timers?)
    ensures var t := TailStep(s.starts[i], i, s.store, s.schedules, choice);
            id !in t.store && (i == id ==> !t.phase.Timers?)
  {
  }

  lemma GoneAfterOther(h: Handler, s: Engine, l: Label, id: string)
    requires Enabled(s, l) && Gone(s, id) && !l.Tail? && !l.StartTail?
    ensures Gone(Step(h, s, l), id)
  {
  }

  ghost predicate NeverInvoked(h: Handler, s: Engine, run: seq<Label>, id: string)
    requires ValidRun(h, s, run)
    decreases |run|
  {
    run == [] || (!InvokesHandlerOf(s, run[0], id) && NeverInvoked(h, Step(h, s, run[0]), run[1..], id))
  }

  /** Once an instance has been deleted no handler is invoked for it again, by tasks already queued behind the
      one that ended it or by later ones, and its record does not come back. */
  lemma {:induction false} NoHandlerAfterDeletion(h: Handler, s: Engine, run: seq<Label>, id: string)
    requires TInv(h, s) && ValidRun(h, s, run) && StartsKeep(run) && Gone(s, id)
    ensures NeverInvoked(h, s, run, id) && Gone(After(h, s, run), id)
    decreases |run|
  {
    if run != [] {
      GoneStays(h, s, run[0], id);
      TStep(h, s, run[0]);
      NoHandlerAfterDeletion(h, Step(h, s, run[0]), run[1..], id);
    }
  }
}
