/**
 Exactly when the end-of-instance guarantees hold.

 `startSagaInstance` creates the record and only then runs `handleSagaInstanceEnd`, outside the scheduler's
 queue.  If its handler called `endSaga()`, tasks that found the record in between are overtaken by the
 deletion: a timer they arm is never removed, and a handler can still be called for the deleted instance.
 */
module SagaStartRace {
  import opened Wrappers
  import opened SagaEngine
  import opened SagaTimers
  import C = SagaScheduler

  ghost predicate OnlyStart(run: seq<Label>, r: Result) {
    forall i :: 0 <= i < |run| && run[i].StartBegin? ==> run[i].result == r
  }

  /** s can be reached by a run whose start handlers all return r. */
  ghost predicate Reached(h: Handler, run: seq<Label>, r: Result, s: Engine) {
    ValidRun(h, Init, run) && OnlyStart(run, r) && After(h, Init, run) == s
  }

  lemma {:induction false} AfterSnoc(h: Handler, s: Engine, run: seq<Label>, l: Label)
    requires ValidRun(h, s, run) && Enabled(After(h, s, run), l)
    ensures ValidRun(h, s, run + [l]) && After(h, s, run + [l]) == Step(h, After(h, s, run), l)
    decreases |run|
  {
    if run == [] {
      assert run + [l] == [l];
      assert [l][1..] == [];
    } else {
      AfterSnoc(h, Step(h, s, run[0]), run[1..], l);
      assert (run + [l])[1..] == run[1..] + [l];
    }
  }

  lemma Extend(h: Handler, run: seq<Label>, r: Result, s: Engine, l: Label) returns (run': seq<Label>, s': Engine)
    requires Reached(h, run, r, s) && Enabled(s, l) && (l.StartBegin? ==> l.result == r)
    ensures Reached(h, run', r, s') && s' == Step(h, s, l)
  {
    AfterSnoc(h, Init, run, l);
    run', s' := run + [l], Step(h, s, l);
  }

  /** The start step makes all its timer calls. */
  lemma {:induction false} DrainOps(h: Handler, run: seq<Label>, r: Result, s: Engine, id: string)
    returns (run': seq<Label>, s': Engine)
    requires Reached(h, run, r, s) && id in s.starts && s.starts[id].Timers?
    ensures Reached(h, run', r, s')
    ensures s' == s.(starts := s.starts[id := Timers(s.starts[id].next, [])], schedules := s'.schedules)
    decreases |s.starts[id].ops|
  {
    if s.starts[id].ops == [] {
      assert s.starts[id := Timers(s.starts[id].next, [])] == s.starts;
      run', s' := run, s;
    } else {
      var run1, s1 := Extend(h, run, r, s, StartTail(id, ""));
      run', s' := DrainOps(h, run1, r, s1, id);
    }
  }

  /** The start step removes all the schedules it found. */
  lemma {:induction false} DrainPending(h: Handler, run: seq<Label>, r: Result, s: Engine, id: string)
    returns (run': seq<Label>, s': Engine)
    requires Reached(h, run, r, s) && id in s.starts && s.starts[id].EndTimers?
    ensures Reached(h, run', r, s')
    ensures s' == s.(starts := s.starts[id := EndTimers(s.starts[id].next, {})], schedules := s'.schedules)
    decreases |s.starts[id].pending|
  {
    if s.starts[id].pending == {} {
      assert s.starts[id := EndTimers(s.starts[id].next, {})] == s.starts;
      run', s' := run, s;
    } else {
      var n :| n in s.starts[id].pending;
      var run1, s1 := Extend(h, run, r, s, StartTail(id, n));
      run', s' := DrainPending(h, run1, r, s1, id);
    }
  }

  /** The start step of an instance that is to be deleted, just before it deletes. */
  ghost predicate AboutToDelete(s: Engine, id: string, c: Content) {
    && s.chains == C.Empty() && s.bodies == map[]
    && s.starts == map[id := EndTimers(c, {})] && s.created == map[id := c] && s.store == map[id := c]
    && c.ended && !c.preserve
  }

  lemma ReachDelete(h: Handler, id: string, event: Event, r: Result) returns (run: seq<Label>, s: Engine)
    requires r.Returns? && r.end == Some(false)
    ensures Reached(h, run, r, s) && AboutToDelete(s, id, StartContent(event, r))
  {
    var c := StartContent(event, r);
    var run1, s1 := Extend(h, [], r, Init, StartBegin(id, event, r));
    var run2, s2 := DrainOps(h, run1, r, s1, id);
    var run3, s3 := Extend(h, run2, r, s2, StartTail(id, ""));
    assert s3.starts[id] == EndFinding(c);
    var run4, s4 := Extend(h, run3, r, s3, StartTail(id, ""));
    run, s := DrainPending(h, run4, r, s4, id);
  }

  const LATE: string := "late"

  /** An event handler that arms a timer. */
  function ArmLate(p: nat, c: Content): Result { Returns(map[], [TimerAdd(LATE, Cron)], [], None) }

  /** A task has read the record that is about to go. */
  lemma ReachHandling(h: Handler, id: string, event: Event, r: Result) returns (run: seq<Label>, s: Engine)
    requires r.Returns? && r.end == Some(false)
    ensures var c := StartContent(event, r);
            && Reached(h, run, r, s)
            && |s.chains.links| == 1 && s.chains.links[0].key == id && s.chains.links[0].task == EventTask(event)
            && s.chains.links[0].status.Running?
            && s.bodies == map[0 := Handling(c)]
            && s.starts == map[id := EndTimers(c, {})] && s.created == map[id := c] && s.store == map[id := c]
            && c.ended && !c.preserve
  {
    var run1, s1 := ReachDelete(h, id, event, r);
    var run2, s2 := Extend(h, run1, r, s1, Arrive(id, EventTask(event)));
    var run3, s3 := Extend(h, run2, r, s2, Begin(0));
    run, s := Extend(h, run3, r, s3, Read(0));
  }

  /** The task has armed its timer and saved the record again. */
  ghost predicate SavedLate(s: Engine, id: string, c: Content) {
    && |s.chains.links| == 1 && s.chains.links[0].key == id && s.chains.links[0].status.Running?
    && 0 in s.bodies && s.bodies.Keys == {0} && s.bodies[0].EndFinding? && !s.bodies[0].next.preserve
    && s.starts == map[id := EndTimers(c, {})] && s.store.Keys == {id} && !c.preserve
    && Schedule(id, LATE) in s.schedules
  }

  lemma ReachSaved(id: string, event: Event, r: Result) returns (run: seq<Label>, s: Engine)
    requires r.Returns? && r.end == Some(false)
    ensures Reached(ArmLate, run, r, s) && SavedLate(s, id, StartContent(event, r))
  {
    var run0, s0 := ReachHandling(ArmLate, id, event, r);
    var run1, s1 := Extend(ArmLate, run0, r, s0, Handle(0));
    var c := StartContent(event, r);
    var next := AfterHandler(EventTask(event), c, ArmLate(0, c));
    assert s1.bodies[0] == Timers(next, [Arm(LATE)]);
    var run2, s2 := Extend(ArmLate, run1, r, s1, Tail(0, ""));
    assert s2.bodies[0] == Timers(next, []);
    run, s := Extend(ArmLate, run2, r, s2, Tail(0, ""));
  }

  /** A timer armed by a task that the deletion overtakes stays with the runner for good. */
  lemma LateTimerIsOrphaned(id: string, event: Event, r: Result) returns (run: seq<Label>, s: Engine)
    requires r.Returns? && r.end == Some(false)
    ensures Reached(ArmLate, run, r, s)
    ensures Schedule(id, LATE) in s.schedules && Quiet(s, id) && id !in s.store
  {
    var run3, s3 := ReachSaved(id, event, r);
    var run4, s4 := Extend(ArmLate, run3, r, s3, StartTail(id, ""));
    assert id !in s4.store && s4.starts[id] == Applied;
    var run5, s5 := Extend(ArmLate, run4, r, s4, Tail(0, ""));
    run, s := Extend(ArmLate, run5, r, s5, Tail(0, ""));
  }

  lemma DisagreeingRun(r: Result) returns (run: seq<Label>)
    requires r.Returns? && r.end == Some(false)
    ensures ValidRun(ArmLate, Init, run) && OnlyStart(run, r) && !TimersAgree(After(ArmLate, Init, run))
  {
    var s;
    run, s := LateTimerIsOrphaned("i", Event("e", "k", ""), r);
    assert Schedule("i", LATE) in s.schedules;
  }

  /** The runner agrees with the stored timers in all runs exactly when start handlers do not end the saga
      they start without preserving it. */
  lemma TimersAgreeExactlyWhen(r: Result)
    requires r.Returns?
    ensures r.end != Some(false) <==>
            forall h: Handler, run: seq<Label> :: ValidRun(h, Init, run) && OnlyStart(run, r) ==>
                TimersAgree(After(h, Init, run))
  {
    if r.end == Some(false) {
      var run := DisagreeingRun(r);
    } else {
      forall h: Handler, run: seq<Label> | ValidRun(h, Init, run) && OnlyStart(run, r)
        ensures TimersAgree(After(h, Init, run))
      {
        TimerAgreement(h, run);
      }
    }
  }

  /** In some reachable state a handler is about to be invoked for a deleted instance. */
  ghost predicate LateCall(h: Handler, run: seq<Label>, l: Label, id: string) {
    && ValidRun(h, Init, run) && Enabled(After(h, Init, run), l)
    && Gone(After(h, Init, run), id) && InvokesHandlerOf(After(h, Init, run), l, id)
  }

  /** And deleted instances get no handler call in any run under exactly the same condition. */
  lemma NoLateCallExactlyWhen(r: Result)
    requires r.Returns?
    ensures r.end != Some(false) <==>
            forall h: Handler, run: seq<Label>, l: Label, id: string :: OnlyStart(run, r) ==> !LateCall(h, run, l, id)
  {
    if r.end == Some(false) {
      var run0, s0 := ReachHandling(ArmLate, "i", Event("e", "k", ""), r);
      var run1, s1 := Extend(ArmLate, run0, r, s0, StartTail("i", ""));
      assert LateCall(ArmLate, run1, Handle(0), "i");
    } else {
      forall h: Handler, run: seq<Label>, l: Label, id: string | OnlyStart(run, r) ensures !LateCall(h, run, l, id) {
        if ValidRun(h, Init, run) && Enabled(After(h, Init, run), l) && Gone(After(h, Init, run), id) {
          RunKeepsTInv(h, Init, run);
          GoneStays(h, After(h, Init, run), l, id);
        }
      }
    }
  }
}
