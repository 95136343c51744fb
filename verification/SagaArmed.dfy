/**
 No timer is lost: an active timer of a stored instance is held by the runner until it expires.
 */
module SagaArmed {
  import opened Wrappers
  import opened SagaEngine
  import opened SagaCalls
  import opened SagaTimers
  import C = SagaScheduler

  /** What the holder of this phase has still to do leaves the schedule armed, if it is to stay active. */
  ghost predicate PhaseArms(ph: Phase, x: Schedule, schedules: set<Schedule>) {
    match ph
    case Timers(next, ops) =>
      !next.ended && x.name in next.activeTimers ==> x in ApplyOps(schedules, x.instanceId, ops)
    case EndFinding(next) => next.ended
    case EndTimers(next, _) => next.ended
    case _ => true
  }

  predicate Ends(ph: Phase) { ph.EndFinding? || ph.EndTimers? }

  ghost predicate StartEnds(s: Engine, id: string) { id in s.starts && Ends(s.starts[id]) }

  ghost predicate StoredEnded(s: Engine, id: string) { id in s.store ==> s.store[id].ended }

  ghost predicate BodyArms(s: Engine, p: nat, x: Schedule)
    requires HasBody(s, p)
  {
    && PhaseArms(s.bodies[p], x, s.schedules)
    && (Ends(s.bodies[p]) ==> StoredEnded(s, x.instanceId))
    && (s.bodies[p].Timers? && StartEnds(s, x.instanceId) ==> s.bodies[p].next.ended)
  }

  ghost predicate RecordArms(s: Engine, x: Schedule) {
    x.instanceId in s.store && !s.store[x.instanceId].ended && x.name in s.store[x.instanceId].activeTimers ==>
      x in s.schedules
  }

  /** Whoever holds the instance's record sees to it that the schedule is armed, if it is active. */
  ghost predicate Armed(s: Engine, x: Schedule) {
    && (x.instanceId in s.starts ==> PhaseArms(s.starts[x.instanceId], x, s.schedules))
    && (StartEnds(s, x.instanceId) ==> StoredEnded(s, x.instanceId))
    && (forall p: nat :: HasBody(s, p) && KeyOf(s, p) == x.instanceId && IsBusy(s.bodies[p]) ==> BodyArms(s, p, x))
    && (!Busy(s, x.instanceId) ==> RecordArms(s, x))
  }

  // ---------------------------------------------------------------- calls

  lemma {:induction false} ApplySame(a: set<Schedule>, b: set<Schedule>, id: string, ops: seq<Op>, x: Schedule)
    requires x in a <==> x in b
    ensures x in ApplyOps(a, id, ops) <==> x in ApplyOps(b, id, ops)
  {
    if ops != [] { ApplySame(a, b, id, ops[..|ops| - 1], x); }
  }

  lemma PhaseSame(ph: Phase, x: Schedule, a: set<Schedule>, b: set<Schedule>)
    requires PhaseArms(ph, x, a) && (x in a <==> x in b)
    ensures PhaseArms(ph, x, b)
  {
    if ph.Timers? { ApplySame(a, b, x.instanceId, ph.ops, x); }
  }

  lemma FirstOp(schedules: set<Schedule>, id: string, ops: seq<Op>)
    requires ops != []
    ensures ApplyOps(ApplyOp(schedules, id, ops[0]), id, ops[1..]) == ApplyOps(schedules, id, ops)
  {
    assert ops == [ops[0]] + ops[1..] && [ops[0]][..0] == [];
    ApplyAppend(schedules, id, [ops[0]], ops[1..]);
  }

  /** A handler that leaves a timer active leaves it armed, after its calls. */
  lemma HandlerArms(task: Task, c: Content, r: Result, schedules: set<Schedule>, x: Schedule)
    requires r.Returns? && (!c.ended && x.name in c.activeTimers ==> x in schedules)
    ensures PhaseArms(Timers(AfterHandler(task, c, r), HandlerOps(task, c, r)), x, schedules)
  {
    HandlerLeaves(task, c, r);
    RunnerAfter(schedules, x.instanceId, task, c, r, x);
    assert Added(r.adds, x.name) <==> exists i :: 0 <= i < |r.adds| && r.adds[i].name == x.name;
  }

  lemma StartArms(event: Event, r: Result, schedules: set<Schedule>, x: Schedule)
    requires r.Returns?
    ensures PhaseArms(Timers(StartContent(event, r), TimerOps(r.adds, r.removes)), x, schedules)
  {
    StartStarts(event, r);
    var id := x.instanceId;
    ApplyAppend(schedules, id, ArmOps(r.adds), DisarmOps(r.removes));
    ApplyArms(schedules, id, r.adds, x);
    ApplyDisarms(ApplyOps(schedules, id, ArmOps(r.adds)), id, r.removes, x);
    assert Added(r.adds, x.name) <==> exists i :: 0 <= i < |r.adds| && r.adds[i].name == x.name;
  }

  // ---------------------------------------------------------------- every step keeps it

  lemma FrameArmed(s: Engine, s': Engine, x: Schedule)
    requires Armed(s, x) && SameFor(s, s', x.instanceId) && (x in s.schedules <==> x in s'.schedules)
    requires x.instanceId in s'.starts ==> x.instanceId in s.starts
    ensures Armed(s', x)
  {
    if x.instanceId in s.starts { PhaseSame(s.starts[x.instanceId], x, s.schedules, s'.schedules); }
    forall p: nat | HasBody(s', p) && KeyOf(s', p) == x.instanceId && IsBusy(s'.bodies[p]) ensures BodyArms(s', p, x) {
      assert HasBody(s, p) && KeyOf(s, p) == x.instanceId && BodyArms(s, p, x);
      PhaseSame(s.bodies[p], x, s.schedules, s'.schedules);
    }
    if Busy(s, x.instanceId) {
      var p: nat :| HasBody(s, p) && KeyOf(s, p) == x.instanceId && IsBusy(s.bodies[p]);
      assert HasBody(s', p) && KeyOf(s', p) == x.instanceId && IsBusy(s'.bodies[p]);
    }
  }

  /** Body p of the schedule's own instance moves on; no other body of it is busy. */
  lemma OwnBody(s: Engine, s': Engine, p: nat, x: Schedule)
    requires HasBody(s, p) && SagaTimers.Alone(s, p) && x.instanceId == KeyOf(s, p) && p in s'.bodies
    requires s'.chains == s.chains && s'.starts == s.starts && s'.bodies == s.bodies[p := s'.bodies[p]]
    requires x.instanceId in s.starts && !s.starts[x.instanceId].Timers? && Armed(s, x)
    requires StartEnds(s, x.instanceId) ==> StoredEnded(s', x.instanceId)
    requires if IsBusy(s'.bodies[p]) then BodyArms(s', p, x) else RecordArms(s', x)
    ensures Armed(s', x)
  {
    assert HasBody(s', p) && KeyOf(s', p) == x.instanceId;
    if IsBusy(s'.bodies[p]) { assert Busy(s', x.instanceId); }
  }

  lemma HandleArmed(h: Handler, s: Engine, p: nat, ph: Phase, x: Schedule)
    requires Armed(s, x) && HasBody(s, p) && s.bodies[p].Handling? && SagaTimers.Alone(s, p)
    requires KeyOf(s, p) in s.store && s.store[KeyOf(s, p)] == s.bodies[p].copy
    requires KeyOf(s, p) in s.starts && !s.starts[KeyOf(s, p)].Timers?
    requires ph == Handled(h, p, s.chains.links[p].task, s.bodies[p].copy)
    ensures Armed(s.(bodies := s.bodies[p := ph]), x)
  {
    var s' := s.(bodies := s.bodies[p := ph]);
    if x.instanceId != KeyOf(s, p) {
      FrameArmed(s, s', x);
    } else {
      assert !Busy(s, x.instanceId);
      var copy, task := s.bodies[p].copy, s.chains.links[p].task;
      if ph.Timers? {
        HandlerArms(task, copy, h(p, copy), s.schedules, x);
        assert copy.ended ==> ph.next.ended;
        assert BodyArms(s', p, x);
      }
      OwnBody(s, s', p, x);
    }
  }

  lemma TailArmed(s: Engine, s': Engine, p: nat, choice: string, x: Schedule)
    requires Armed(s, x) && HasBody(s, p) && TailEnabled(s.bodies[p], choice) && SagaTimers.Alone(s, p)
    requires KeyOf(s, p) in s.starts && !s.starts[KeyOf(s, p)].Timers?
    requires var t := TailStep(s.bodies[p], KeyOf(s, p), s.store, s.schedules, choice);
             s' == s.(bodies := s.bodies[p := t.phase], store := t.store, schedules := t.schedules)
    ensures Armed(s', x)
  {
    var ph := s.bodies[p];
    if x.instanceId != KeyOf(s, p) {
      FrameArmed(s, s', x);
    } else {
      assert IsBusy(ph) && BodyArms(s, p, x);
      if ph.Timers? && ph.ops != [] { FirstOp(s.schedules, x.instanceId, ph.ops); }
      assert if IsBusy(s'.bodies[p]) then BodyArms(s', p, x) else RecordArms(s', x);
      OwnBody(s, s', p, x);
    }
  }

  lemma BeginArmed(h: Handler, s: Engine, id: string, event: Event, r: Result, x: Schedule)
    requires Inv(h, s) && Armed(s, x) && Enabled(s, StartBegin(id, event, r))
    ensures Armed(Step(h, s, StartBegin(id, event, r)), x)
  {
    var s' := Step(h, s, StartBegin(id, event, r));
    if x.instanceId != id {
      FrameArmed(s, s', x);
    } else {
      StartArms(event, r, s.schedules, x);
      forall p: nat | HasBody(s', p) ensures KeyOf(s', p) != id { assert HasBody(s, p); }
      assert id !in s'.store;
    }
  }

  lemma StartTailArmed(s: Engine, s': Engine, id: string, choice: string, x: Schedule)
    requires Armed(s, x) && id in s.starts && TailEnabled(s.starts[id], choice)
    requires s.starts[id].Timers? ==> !Busy(s, id) && id !in s.store
    requires var t := TailStep(s.starts[id], id, s.store, s.schedules, choice);
             s' == s.(starts := s.starts[id := t.phase], store := t.store, schedules := t.schedules)
    ensures Armed(s', x)
  {
    SameBusy(s, s', id);
    if x.instanceId != id {
      FrameArmed(s, s', x);
    } else if s.starts[id].Timers? {
      if s.starts[id].ops != [] { FirstOp(s.schedules, id, s.starts[id].ops); }
      forall p: nat | HasBody(s', p) && KeyOf(s', p) == id ensures !IsBusy(s'.bodies[p]) { assert HasBody(s, p); }
    } else {
      forall p: nat | HasBody(s', p) && KeyOf(s', p) == id && IsBusy(s'.bodies[p]) ensures BodyArms(s', p, x) {
        assert HasBody(s, p) && BodyArms(s, p, x);
      }
    }
  }

  lemma IdleArmed(h: Handler, s: Engine, l: Label, x: Schedule)
    requires Inv(h, s) && Armed(s, x) && Enabled(s, l) && l != Expire(x) && Inv(h, Step(h, s, l))
    requires !l.Handle? && !l.Tail? && !l.StartTail? && !l.StartBegin?
    ensures Armed(Step(h, s, l), x)
  {
    if l.Begin? { BeginIsNew(s, l.p); }
    var s' := Step(h, s, l);
    IdleStep(h, s, l);
    if x.instanceId in s.starts {
      IdleSame(s, s', x.instanceId);
      FrameArmed(s, s', x);
    } else {
      forall p: nat | HasBody(s', p) ensures KeyOf(s', p) != x.instanceId || !IsBusy(s'.bodies[p]) {}
    }
  }

  lemma HandleArmedStep(h: Handler, s: Engine, p: nat, x: Schedule)
    requires TInv(h, s) && Armed(s, x) && Enabled(s, Handle(p))
    ensures Armed(Step(h, s, Handle(p)), x)
  {
    HandleFacts(h, s, p);
    BodyStarted(h, s, p);
    HandleArmed(h, s, p, Handled(h, p, s.chains.links[p].task, s.bodies[p].copy), x);
  }

  lemma TailArmedStep(h: Handler, s: Engine, p: nat, choice: string, x: Schedule)
    requires Inv(h, s) && Armed(s, x) && Enabled(s, Tail(p, choice))
    ensures Armed(Step(h, s, Tail(p, choice)), x)
  {
    OnlyBusy(h, s, p);
    BodyStarted(h, s, p);
    TailArmed(s, Step(h, s, Tail(p, choice)), p, choice, x);
  }

  lemma StartTailArmedStep(h: Handler, s: Engine, id: string, choice: string, x: Schedule)
    requires Inv(h, s) && Armed(s, x) && Enabled(s, StartTail(id, choice))
    ensures Armed(Step(h, s, StartTail(id, choice)), x)
  {
    if s.starts[id].Timers? {
      NotBusyBeforeCreate(h, s, id);
      assert IdOk(h, s, id);
    }
    StartTailArmed(s, Step(h, s, StartTail(id, choice)), id, choice, x);
  }

  lemma IdleArmedStep(h: Handler, s: Engine, l: Label, x: Schedule)
    requires Inv(h, s) && Armed(s, x) && Enabled(s, l) && l != Expire(x)
    requires !l.Handle? && !l.Tail? && !l.StartTail? && !l.StartBegin?
    ensures Armed(Step(h, s, l), x)
  {
    InvStep(h, s, l);
    IdleArmed(h, s, l, x);
  }

  lemma ArmedStep(h: Handler, s: Engine, l: Label, x: Schedule)
    requires TInv(h, s) && Armed(s, x) && Enabled(s, l) && l != Expire(x)
    ensures Armed(Step(h, s, l), x)
  {
    match l
    case Handle(p) => HandleArmedStep(h, s, p, x);
    case Tail(p, choice) => TailArmedStep(h, s, p, choice, x);
    case StartBegin(id, event, r) => BeginArmed(h, s, id, event, r, x);
    case StartTail(id, choice) => StartTailArmedStep(h, s, id, choice, x);
    case _ => IdleArmedStep(h, s, l, x);
  }

  lemma BodyStarted(h: Handler, s: Engine, p: nat)
    requires Inv(h, s) && HasBody(s, p) && !s.bodies[p].Reading? && !s.bodies[p].Absent?
    ensures KeyOf(s, p) in s.starts && !s.starts[KeyOf(s, p)].Timers?
  {
    assert BodyOk(h, s, p);
  }

  lemma {:induction false} RunKeepsArmed(h: Handler, s: Engine, run: seq<Label>, x: Schedule)
    requires TInv(h, s) && Armed(s, x) && ValidRun(h, s, run) && StartsKeep(run) && Expire(x) !in run
    ensures TInv(h, After(h, s, run)) && Armed(After(h, s, run), x)
    decreases |run|
  {
    if run != [] {
      assert run[0] in run;
      ArmedStep(h, s, run[0], x);
      TStep(h, s, run[0]);
      RunKeepsArmed(h, Step(h, s, run[0]), run[1..], x);
    }
  }

  /** In every run whose start handlers keep their instance, and in which the schedule has not expired, a quiet
      instance's schedule is held exactly if it is an active timer of its stored record and the saga has not ended. */
  lemma HeldExactlyWhen(h: Handler, run: seq<Label>, x: Schedule)
    requires ValidRun(h, Init, run) && StartsKeep(run) && Expire(x) !in run && Quiet(After(h, Init, run), x.instanceId)
    ensures var s := After(h, Init, run);
            x in s.schedules <==>
            && x.instanceId in s.store && !s.store[x.instanceId].ended
            && x.name in s.store[x.instanceId].activeTimers
  {
    RunKeepsArmed(h, Init, run, x);
    HeldNow(h, After(h, Init, run), x);
  }

  lemma HeldNow(h: Handler, s: Engine, x: Schedule)
    requires TInv(h, s) && Armed(s, x) && Quiet(s, x.instanceId)
    ensures x in s.schedules <==>
            && x.instanceId in s.store && !s.store[x.instanceId].ended
            && x.name in s.store[x.instanceId].activeTimers
  {
    assert !Busy(s, x.instanceId);
    AgreeNow(h, s);
  }
}
