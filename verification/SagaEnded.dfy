/**
 What an ended instance can still get: a handler call, exactly when its record is preserved.
 */
module SagaEnded {
  import opened Wrappers
  import opened SagaEngine
  import opened SagaTimers
  import R = SagaStartRace
  import C = SagaScheduler

  /** Nothing of the instance is in progress or queued. */
  ghost predicate Resting(s: Engine, id: string) {
    id in s.starts && s.starts[id].Done() && id !in s.chains.tails
  }

  // ---------------------------------------------------------------- only preserved records stay

  /** Body p is about to delete the record. */
  ghost predicate Deleting(s: Engine, p: nat, id: string) {
    HasBody(s, p) && KeyOf(s, p) == id && (s.bodies[p].EndFinding? || s.bodies[p].EndTimers?)
    && !s.bodies[p].next.preserve
  }

  ghost predicate Unpreserved(s: Engine, id: string) { id in s.store && s.store[id].ended && !s.store[id].preserve }

  ghost predicate PInv(s: Engine) { forall id :: Unpreserved(s, id) ==> exists p: nat :: Deleting(s, p, id) }

  /** Bodies that are about to delete stay so, and no record changes. */
  lemma PKept(s: Engine, s': Engine)
    requires PInv(s) && forall id :: Unpreserved(s', id) ==> Unpreserved(s, id)
    requires forall p: nat, id :: Deleting(s, p, id) ==> Deleting(s', p, id)
    ensures PInv(s')
  {
    forall id | Unpreserved(s', id) ensures exists p: nat :: Deleting(s', p, id) {
      var p: nat :| Deleting(s, p, id);
      assert Deleting(s', p, id);
    }
  }

  lemma PTail(s: Engine, s': Engine, p: nat, choice: string)
    requires PInv(s) && HasBody(s, p) && TailEnabled(s.bodies[p], choice)
    requires var t := TailStep(s.bodies[p], KeyOf(s, p), s.store, s.schedules, choice);
             s' == s.(bodies := s.bodies[p := t.phase], store := t.store, schedules := t.schedules)
    ensures PInv(s')
  {
    forall id | Unpreserved(s', id) ensures exists q: nat :: Deleting(s', q, id) {
      if id == KeyOf(s, p) && s.bodies[p].Timers? && s.bodies[p].ops == [] {
        assert Deleting(s', p, id);
      } else {
        assert Unpreserved(s, id);
        var q: nat :| Deleting(s, q, id);
        assert Deleting(s', q, id);
      }
    }
  }

  lemma PStartTail(s: Engine, s': Engine, id: string, choice: string)
    requires PInv(s) && id in s.starts && id in s.created && StartOk(s, id) && TailEnabled(s.starts[id], choice)
    requires s.starts[id].Timers? ==> s.starts[id].next == s.created[id]
    requires var t := TailStep(s.starts[id], id, s.store, s.schedules, choice);
             s' == s.(starts := s.starts[id := t.phase], store := t.store, schedules := t.schedules)
    ensures PInv(s')
  {
    PKept(s, s');
  }

  lemma POther(h: Handler, s: Engine, l: Label)
    requires PInv(s) && Enabled(s, l) && !l.Tail? && !l.StartTail? && (l.Begin? ==> l.p !in s.bodies)
    ensures PInv(Step(h, s, l))
  {
    PKept(s, Step(h, s, l));
  }

  lemma PStep(h: Handler, s: Engine, l: Label)
    requires TInv(h, s) && PInv(s) && Enabled(s, l)
    ensures PInv(Step(h, s, l))
  {
    match l
    case Tail(p, choice) => PTail(s, Step(h, s, l), p, choice);
    case StartTail(id, choice) =>
      assert StartOk(s, id) && IdOk(h, s, id);
      PStartTail(s, Step(h, s, l), id, choice);
    case Begin(p) =>
      BeginIsNew(s, p);
      POther(h, s, l);
    case _ => POther(h, s, l);
  }

  lemma {:induction false} RunKeepsPInv(h: Handler, s: Engine, run: seq<Label>)
    requires TInv(h, s) && PInv(s) && ValidRun(h, s, run) && StartsKeep(run)
    ensures TInv(h, After(h, s, run)) && PInv(After(h, s, run))
    decreases |run|
  {
    if run != [] {
      PStep(h, s, run[0]);
      TStep(h, s, run[0]);
      RunKeepsPInv(h, Step(h, s, run[0]), run[1..]);
    }
  }

  /** With nothing queued every body of the instance is over. */
  lemma RestingBodies(h: Handler, s: Engine, id: string, p: nat)
    requires Inv(h, s) && id !in s.chains.tails && HasBody(s, p) && KeyOf(s, p) == id
    ensures s.bodies[p].Done()
  {
    assert BodyOk(h, s, p);
  }

  /** A record that is ended and at rest is a preserved one. */
  lemma EndedIsPreserved(h: Handler, s: Engine, id: string)
    requires TInv(h, s) && PInv(s) && Resting(s, id) && id in s.store && s.store[id].ended
    ensures s.store[id].preserve
  {
    forall p: nat ensures !Deleting(s, p, id) {
      if HasBody(s, p) && KeyOf(s, p) == id { RestingBodies(h, s, id, p); }
    }
    assert !Unpreserved(s, id);
  }

  // ---------------------------------------------------------------- calls to come

  /** After run, step l calls a handler for the instance. */
  ghost predicate CallsLater(h: Handler, s: Engine, run: seq<Label>, l: Label, id: string) {
    && ValidRun(h, s, run) && StartsKeep(run)
    && Enabled(After(h, s, run), l) && InvokesHandlerOf(After(h, s, run), l, id)
  }

  /** The next event or timer of an instance at rest reaches its handler, ended or not. */
  lemma NextTaskIsHandled(h: Handler, s: Engine, id: string, task: Task)
    requires Inv(h, s) && Resting(s, id) && id in s.store
    ensures var n := |s.chains.links|; CallsLater(h, s, [Arrive(id, task), Begin(n), Read(n)], Handle(n), id)
  {
    var n := |s.chains.links|;
    C.NextPeriodStartsClean(s.chains, id, task);
    var s1 := Step(h, s, Arrive(id, task));
    Queued(h, s1, n, id);
    Enters(h, s, Arrive(id, task), [Begin(n), Read(n)]);
    assert [Arrive(id, task)] + [Begin(n), Read(n)] == [Arrive(id, task), Begin(n), Read(n)];
  }

  /** A task that may start, of an instance with a record, comes to its handler. */
  lemma Queued(h: Handler, s: Engine, n: nat, id: string)
    requires C.Enabled(s.chains, C.Start(n)) && KeyOf(s, n) == id && id in s.store
    ensures CallsLater(h, s, [Begin(n), Read(n)], Handle(n), id)
  {
    var s2 := Step(h, s, Begin(n));
    assert KeyOf(s2, n) == id && s2.bodies[n] == Reading && s2.store == s.store;
    var s3 := Step(h, s2, Read(n));
    assert s3.bodies[n] == Handling(s.store[id]) && KeyOf(s3, n) == id;
    Enters(h, s2, Read(n), []);
    assert [Read(n)] + [] == [Read(n)];
    Enters(h, s, Begin(n), [Read(n)]);
    assert [Begin(n)] + [Read(n)] == [Begin(n), Read(n)];
  }

  lemma Enters(h: Handler, s: Engine, l: Label, rest: seq<Label>)
    requires Enabled(s, l) && ValidRun(h, Step(h, s, l), rest)
    ensures ValidRun(h, s, [l] + rest) && After(h, s, [l] + rest) == After(h, Step(h, s, l), rest)
  {
    assert ([l] + rest)[1..] == rest;
  }

  /** An ended instance at rest gets a handler call in some continuation exactly when its record is preserved. */
  lemma EndedIsCalledExactlyWhen(h: Handler, before: seq<Label>, id: string)
    requires ValidRun(h, Init, before) && StartsKeep(before) && Resting(After(h, Init, before), id)
    requires var s := After(h, Init, before); id in s.store ==> s.store[id].ended
    ensures var s := After(h, Init, before);
            (exists run, l :: CallsLater(h, s, run, l, id)) <==> (id in s.store && s.store[id].preserve)
  {
    RunKeepsPInv(h, Init, before);
    var s := After(h, Init, before);
    if id in s.store { StoredIsCalled(h, s, id); } else { NeverCalled(h, s, id); }
  }

  lemma StoredIsCalled(h: Handler, s: Engine, id: string)
    requires TInv(h, s) && PInv(s) && Resting(s, id) && id in s.store && s.store[id].ended
    ensures s.store[id].preserve && exists run, l :: CallsLater(h, s, run, l, id)
  {
    EndedIsPreserved(h, s, id);
    NextTaskIsHandled(h, s, id, TimerTask(""));
  }

  lemma NeverCalled(h: Handler, s: Engine, id: string)
    requires TInv(h, s) && Resting(s, id) && id !in s.store
    ensures forall run, l :: !CallsLater(h, s, run, l, id)
  {
    forall run, l ensures !CallsLater(h, s, run, l, id) {
      if ValidRun(h, s, run) && StartsKeep(run) && Enabled(After(h, s, run), l) {
        GoneIsNotCalled(h, s, run, l, id);
      }
    }
  }

  lemma GoneIsNotCalled(h: Handler, s: Engine, run: seq<Label>, l: Label, id: string)
    requires TInv(h, s) && ValidRun(h, s, run) && StartsKeep(run) && Enabled(After(h, s, run), l)
    requires Resting(s, id) && id !in s.store
    ensures !InvokesHandlerOf(After(h, s, run), l, id)
  {
    NoHandlerAfterDeletion(h, s, run, id);
    RunKeepsTInv(h, s, run);
    GoneStays(h, After(h, s, run), l, id);
  }

  /** Every start handler that ends its saga and preserves it leads to such an instance, whose next event is
      handled all the same. */
  lemma PreservedInstance(h: Handler, id: string, event: Event, r: Result) returns (run: seq<Label>, s: Engine)
    requires r.Returns? && r.end == Some(true)
    ensures R.Reached(h, run, r, s) && Resting(s, id) && id in s.store && s.store[id].ended
    ensures forall next: Event :: var n := |s.chains.links|;
              CallsLater(h, s, [Arrive(id, EventTask(next)), Begin(n), Read(n)], Handle(n), id)
  {
    var c := StartContent(event, r);
    run, s := R.Extend(h, [], r, Init, StartBegin(id, event, r));
    run, s := R.DrainOps(h, run, r, s, id);
    run, s := R.Extend(h, run, r, s, StartTail(id, ""));
    assert s.starts[id] == EndFinding(c) && s.store == map[id := c];
    run, s := R.Extend(h, run, r, s, StartTail(id, ""));
    run, s := R.DrainPending(h, run, r, s, id);
    run, s := R.Extend(h, run, r, s, StartTail(id, ""));
    assert s.starts[id] == Applied && s.store == map[id := c];
    RunKeepsInv(h, Init, run);
    forall next: Event
      ensures var n := |s.chains.links|;
              CallsLater(h, s, [Arrive(id, EventTask(next)), Begin(n), Read(n)], Handle(n), id)
    {
      NextTaskIsHandled(h, s, id, EventTask(next));
    }
  }
}
