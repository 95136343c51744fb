/**
 The per-instance promise chain of `DefaultSagaScheduler`.

 Every call of `enqueue` makes one link: the promise
 `existingChain.then(task).catch(rethrow).finally(cleanup)`.  A link waits for its predecessor,
 runs its task (or is skipped with the predecessor's error), has its `finally` callback run, and
 settles.  Each of these is a separate turn of the event loop, so the steps of different links
 interleave freely.
 */
module SagaScheduler {
  import opened Wrappers

  datatype Outcome = Resolved | Rejected(error: string)

  /** Finishing: the task part is settled but the `finally` callback has not run yet.
      Cleaned: the callback has run, the link itself is about to settle. */
  datatype Status =
    | Waiting
    | Running
    | Finishing(outcome: Outcome)
    | Cleaned(outcome: Outcome)
    | Settled(outcome: Outcome)
  {
    predicate Live() { Waiting? || Running? || Finishing? }
    predicate Over() { Finishing? || Cleaned? || Settled? }
    function Rank(): nat {
      match this
      case Waiting => 4 case Running => 3 case Finishing(_) => 2 case Cleaned(_) => 1 case Settled(_) => 0
    }
  }

  /** prev is None for a chain that starts from `Promise.resolve()`. */
  datatype Link<T> = Link(key: string, task: T, prev: Option<nat>, status: Status, ran: bool)

  /** links: every promise made so far, oldest first.  tails: the `instanceQueues` map. */
  datatype Chains<T> = Chains(links: seq<Link<T>>, tails: map<string, nat>)

  datatype Label<T> =
    | Enqueue(key: string, task: T)
    | Start(p: nat)
    | Skip(p: nat)
    | Complete(p: nat, outcome: Outcome)
    | Cleanup(p: nat)
    | Settle(p: nat)

  function Empty<T>(): Chains<T> { Chains([], map[]) }

  /** What the promise in front of link p has settled to, if it has. */
  function PrevOutcome<T>(s: Chains<T>, p: nat): Option<Outcome>
    requires p < |s.links|
  {
    match s.links[p].prev
    case None => Some(Resolved)
    case Some(i) =>
      if i < |s.links| && s.links[i].status.Settled? then Some(s.links[i].status.outcome) else None
  }

  predicate Enabled<T>(s: Chains<T>, l: Label<T>) {
    match l
    case Enqueue(_, _) => true
    case Start(p) => p < |s.links| && s.links[p].status.Waiting? && PrevOutcome(s, p) == Some(Resolved)
    case Skip(p) =>
      p < |s.links| && s.links[p].status.Waiting? && PrevOutcome(s, p).Some? && PrevOutcome(s, p).value.Rejected?
    case Complete(p, _) => p < |s.links| && s.links[p].status.Running?
    case Cleanup(p) => p < |s.links| && s.links[p].status.Finishing?
    case Settle(p) => p < |s.links| && s.links[p].status.Cleaned?
  }

  function SetStatus<T>(s: Chains<T>, p: nat, status: Status): Chains<T>
    requires p < |s.links|
  {
    s.(links := s.links[p := s.links[p].(status := status)])
  }

  function Step<T>(s: Chains<T>, l: Label<T>): Chains<T>
    requires Enabled(s, l)
  {
    match l
    case Enqueue(k, t) =>
      var prev := if k in s.tails then Some(s.tails[k]) else None;
      Chains(s.links + [Link(k, t, prev, Waiting, false)], s.tails[k := |s.links|])
    case Start(p) => s.(links := s.links[p := s.links[p].(status := Running, ran := true)])
    case Skip(p) => SetStatus(s, p, Finishing(PrevOutcome(s, p).value))
    case Complete(p, o) => SetStatus(s, p, Finishing(o))
    case Cleanup(p) =>
      var k := s.links[p].key;
      var t := if k in s.tails && s.tails[k] == p then s.tails - {k} else s.tails;
      SetStatus(s, p, Cleaned(s.links[p].status.outcome)).(tails := t)
    case Settle(p) => SetStatus(s, p, Settled(s.links[p].status.outcome))
  }

  /** The instance a step belongs to. */
  function KeyOf<T>(s: Chains<T>, l: Label<T>): string
    requires Enabled(s, l)
  {
    match l
    case Enqueue(k, _) => k
    case Start(p) => s.links[p].key
    case Skip(p) => s.links[p].key
    case Complete(p, _) => s.links[p].key
    case Cleanup(p) => s.links[p].key
    case Settle(p) => s.links[p].key
  }

  // ---------------------------------------------------------------- the invariant

  ghost predicate PrevOk<T>(s: Chains<T>, p: nat)
    requires p < |s.links|
  {
    match s.links[p].prev
    case None => forall i :: 0 <= i < p && s.links[i].key == s.links[p].key ==> !s.links[i].status.Live()
    case Some(i) =>
      && i < p && s.links[i].key == s.links[p].key
      && (forall j :: i < j < p ==> s.links[j].key != s.links[p].key)
      && (!s.links[p].status.Waiting? ==> s.links[i].status.Settled?)
  }

  /** Why a link that is past waiting ran or did not run, and what it was rejected with. */
  ghost predicate RanOk<T>(s: Chains<T>, p: nat)
    requires p < |s.links|
  {
    var x := s.links[p];
    && (x.status.Waiting? ==> !x.ran)
    && (x.status.Running? ==> x.ran)
    && (x.prev.None? && !x.status.Waiting? ==> x.ran)
    && (x.prev.Some? && !x.status.Waiting? && x.prev.value < p && s.links[x.prev.value].status.Settled? ==>
          var o := s.links[x.prev.value].status.outcome;
          && (x.ran <==> o.Resolved?)
          && (!x.ran ==> x.status.Over() && x.status.outcome == o))
  }

  ghost predicate TailOk<T>(s: Chains<T>, k: string)
    requires k in s.tails
  {
    var t := s.tails[k];
    t < |s.links| && s.links[t].key == k && s.links[t].status.Live()
    && forall j :: t < j < |s.links| ==> s.links[j].key != k
  }

  ghost predicate Serial<T>(s: Chains<T>) {
    forall i, j :: 0 <= i < j < |s.links| && s.links[i].key == s.links[j].key ==>
      s.links[j].status.Waiting? || !s.links[i].status.Live()
  }

  ghost predicate Inv<T>(s: Chains<T>) {
    && Serial(s)
    && (forall p :: 0 <= p < |s.links| ==> PrevOk(s, p) && RanOk(s, p))
    && (forall k :: k in s.tails ==> TailOk(s, k))
    && (forall p :: 0 <= p < |s.links| && s.links[p].status.Live() ==> s.links[p].key in s.tails)
  }

  lemma InvStep<T>(s: Chains<T>, l: Label<T>)
    requires Inv(s) && Enabled(s, l)
    ensures Inv(Step(s, l))
  {
    var s' := Step(s, l);
    match l
    case Enqueue(k, t) =>
      forall p | 0 <= p < |s'.links| ensures PrevOk(s', p) && RanOk(s', p) {
        if p < |s.links| { assert PrevOk(s, p) && RanOk(s, p); }
      }
      forall j | j in s'.tails ensures TailOk(s', j) {
        if j != k { assert TailOk(s, j); }
      }
      assert Serial(s') by {
        forall i, j | 0 <= i < j < |s'.links| && s'.links[i].key == s'.links[j].key
          ensures s'.links[j].status.Waiting? || !s'.links[i].status.Live()
        {}
      }
    case Start(p) => InvMove(s, l, p);
    case Skip(p) => InvMove(s, l, p);
    case Complete(p, _) => InvMove(s, l, p);
    case Cleanup(p) => InvMove(s, l, p);
    case Settle(p) => InvMove(s, l, p);
  }

  lemma OnlyOneLive<T>(s: Chains<T>, p: nat)
    requires Inv(s) && p < |s.links| && s.links[p].status.Waiting? && PrevOutcome(s, p).Some?
    ensures forall i :: 0 <= i < p && s.links[i].key == s.links[p].key ==> !s.links[i].status.Live()
  {
    assert PrevOk(s, p);
  }

  /** What every step except `Enqueue` does: one link moves forward, the rest stay. */
  ghost predicate Moves<T>(s: Chains<T>, s': Chains<T>, p: nat) {
    && p < |s.links| == |s'.links|
    && (forall q :: 0 <= q < |s.links| && q != p ==> s'.links[q] == s.links[q])
    && s'.links[p].key == s.links[p].key && s'.links[p].prev == s.links[p].prev && s'.links[p].task == s.links[p].task
    && s'.links[p].status.Rank() < s.links[p].status.Rank()
  }

  lemma MoveSerial<T>(s: Chains<T>, s': Chains<T>, p: nat)
    requires Inv(s) && Moves(s, s', p)
    requires s.links[p].status.Waiting? ==>
      forall i :: 0 <= i < p && s.links[i].key == s.links[p].key ==> !s.links[i].status.Live()
    ensures Serial(s')
  {
    forall i, j | 0 <= i < j < |s'.links| && s'.links[i].key == s'.links[j].key
      ensures s'.links[j].status.Waiting? || !s'.links[i].status.Live()
    {
      assert s.links[j].status.Waiting? || !s.links[i].status.Live();
    }
  }

  lemma MovePrev<T>(s: Chains<T>, s': Chains<T>, p: nat, q: nat)
    requires Inv(s) && Moves(s, s', p) && q < |s.links|
    requires s.links[p].status.Waiting? ==> PrevOutcome(s, p).Some?
    ensures PrevOk(s', q)
  {
    assert PrevOk(s, q);
    match s.links[q].prev
    case None =>
      forall i | 0 <= i < q && s'.links[i].key == s'.links[q].key ensures !s'.links[i].status.Live() {
        assert !s.links[i].status.Live();
      }
    case Some(i) =>
      forall j | i < j < q ensures s'.links[j].key != s'.links[q].key {
        assert s.links[j].key != s.links[q].key;
      }
  }

  lemma MoveRan<T>(s: Chains<T>, l: Label<T>, p: nat, q: nat)
    requires Inv(s) && Enabled(s, l) && !l.Enqueue? && p == l.p && q < |s.links|
    ensures RanOk(Step(s, l), q)
  {
    assert PrevOk(s, q) && RanOk(s, q) && PrevOk(s, p) && RanOk(s, p);
  }

  lemma MoveTails<T>(s: Chains<T>, l: Label<T>, p: nat)
    requires Inv(s) && Enabled(s, l) && !l.Enqueue? && p == l.p
    ensures var s' := Step(s, l);
            && (forall k :: k in s'.tails ==> TailOk(s', k))
            && (forall q :: 0 <= q < |s'.links| && s'.links[q].status.Live() ==> s'.links[q].key in s'.tails)
  {
    var s' := Step(s, l);
    var k := s.links[p].key;
    assert k in s.tails ==> TailOk(s, k);
    forall j | j in s'.tails ensures TailOk(s', j) { assert TailOk(s, j); }
    forall q | 0 <= q < |s'.links| && s'.links[q].status.Live() ensures s'.links[q].key in s'.tails {
      assert s.links[q].status.Live();
    }
  }

  lemma InvMove<T>(s: Chains<T>, l: Label<T>, p: nat)
    requires Inv(s) && Enabled(s, l) && !l.Enqueue? && p == l.p
    ensures Inv(Step(s, l)) && Moves(s, Step(s, l), p)
  {
    var s' := Step(s, l);
    if s.links[p].status.Waiting? { OnlyOneLive(s, p); }
    MoveSerial(s, s', p);
    forall q | 0 <= q < |s'.links| ensures PrevOk(s', q) && RanOk(s', q) {
      MovePrev(s, s', p, q);
      MoveRan(s, l, p, q);
    }
    MoveTails(s, l, p);
  }

  // ---------------------------------------------------------------- whole runs

  ghost predicate ValidRun<T>(s: Chains<T>, run: seq<Label<T>>)
    decreases |run|
  {
    run == [] || (Enabled(s, run[0]) && ValidRun(Step(s, run[0]), run[1..]))
  }

  ghost function After<T>(s: Chains<T>, run: seq<Label<T>>): Chains<T>
    requires ValidRun(s, run)
    decreases |run|
  {
    if run == [] then s else After(Step(s, run[0]), run[1..])
  }

  lemma {:induction false} RunKeepsInv<T>(s: Chains<T>, run: seq<Label<T>>)
    requires Inv(s) && ValidRun(s, run)
    ensures Inv(After(s, run))
    decreases |run|
  {
    if run != [] {
      InvStep(s, run[0]);
      RunKeepsInv(Step(s, run[0]), run[1..]);
    }
  }

  /** In every reachable state at most one task of an instance is running, and a task has started or been
      skipped only after the task part and the `finally` callback of every earlier one of its instance. */
  lemma SerialExecution<T>(run: seq<Label<T>>, i: nat, j: nat)
    requires ValidRun(Empty<T>(), run)
    requires var s := After(Empty<T>(), run); i < j < |s.links| && s.links[i].key == s.links[j].key
    ensures var s := After(Empty<T>(), run);
            && !(s.links[i].status.Running? && s.links[j].status.Running?)
            && (!s.links[j].status.Waiting? ==> s.links[i].status.Cleaned? || s.links[i].status.Settled?)
  {
    RunKeepsInv(Empty<T>(), run);
  }

  /** `instanceQueues` holds exactly the instances that still have a chain whose `finally` has not run. */
  lemma QueueMapIsLiveKeys<T>(run: seq<Label<T>>, k: string)
    requires ValidRun(Empty<T>(), run)
    ensures var s := After(Empty<T>(), run);
            k in s.tails <==> exists p :: 0 <= p < |s.links| && s.links[p].key == k && s.links[p].status.Live()
  {
    RunKeepsInv(Empty<T>(), run);
    var s := After(Empty<T>(), run);
    if k in s.tails { assert TailOk(s, k); }
  }

  // ---------------------------------------------------------------- busy periods

  /** The links chained together up to p, oldest first: everything of p's instance since the map entry
      was last cleaned up. */
  ghost function PeriodOf<T>(s: Chains<T>, p: nat): (r: seq<nat>)
    requires p < |s.links|
    ensures r != [] && r[|r| - 1] == p
    decreases p
  {
    match s.links[p].prev
    case None => [p]
    case Some(i) => if i < p then PeriodOf(s, i) + [p] else [p]
  }

  ghost predicate Failed<T>(s: Chains<T>, p: nat) {
    p < |s.links| && s.links[p].ran && s.links[p].status.Over() && s.links[p].status.outcome.Rejected?
  }

  ghost predicate RanClean<T>(s: Chains<T>, p: nat) {
    p < |s.links| && s.links[p].ran && s.links[p].status.Over() && s.links[p].status.outcome.Resolved?
  }

  ghost predicate Skipped<T>(s: Chains<T>, p: nat, o: Outcome) {
    p < |s.links| && !s.links[p].ran && s.links[p].status.Over() && s.links[p].status.outcome == o
  }

  /** r[a] failed, everything before it resolved, and everything after it was skipped with the same error. */
  ghost predicate FailsAt<T>(s: Chains<T>, r: seq<nat>, a: nat) {
    && a < |r| && Failed(s, r[a])
    && (forall b :: 0 <= b < a ==> RanClean(s, r[b]))
    && (forall b :: a < b < |r| ==> Skipped(s, r[b], s.links[r[a]].status.outcome))
  }

  /** Members of a period are one instance's links in enqueue order with none left out, and the links before
      the period, if any, have all been cleaned up. */
  lemma {:induction false} PeriodIsContiguous<T>(s: Chains<T>, p: nat)
    requires Inv(s) && p < |s.links|
    ensures var r := PeriodOf(s, p);
            && (forall a :: 0 <= a < |r| ==> r[a] <= p && s.links[r[a]].key == s.links[p].key)
            && (forall a, b :: 0 <= a < b < |r| ==> r[a] < r[b])
            && (forall q :: r[0] <= q <= p && s.links[q].key == s.links[p].key ==> q in r)
            && (forall q :: 0 <= q < r[0] && s.links[q].key == s.links[p].key ==> !s.links[q].status.Live())
            && s.links[r[0]].prev.None?
    decreases p
  {
    assert PrevOk(s, p);
    if s.links[p].prev.Some? {
      var i := s.links[p].prev.value;
      PeriodIsContiguous(s, i);
      var r := PeriodOf(s, i);
      assert PeriodOf(s, p) == r + [p];
      forall q | r[0] <= q <= p && s.links[q].key == s.links[p].key ensures q in r + [p] {
        assert q <= i || q == p;
        if q <= i { assert q in r; }
      }
    }
  }

  /** The tasks of a busy period that are past waiting either all ran with only the last one possibly still
      going or failed, or run exactly up to and including a first failure whose error rejects all the rest. */
  lemma {:induction false} BusyPeriod<T>(s: Chains<T>, p: nat)
    requires Inv(s) && p < |s.links| && !s.links[p].status.Waiting?
    ensures var r := PeriodOf(s, p);
            if s.links[p].ran then forall a :: 0 <= a < |r| - 1 ==> RanClean(s, r[a])
            else exists a :: 0 <= a < |r| - 1 && FailsAt(s, r, a)
    decreases p
  {
    assert PrevOk(s, p) && RanOk(s, p);
    if s.links[p].prev.Some? {
      var i := s.links[p].prev.value;
      BusyPeriod(s, i);
      assert RanOk(s, i);
      var r0 := PeriodOf(s, i);
      var r := r0 + [p];
      assert PeriodOf(s, p) == r;
      if s.links[p].ran {
        BusyExtendRan(s, r0, p);
      } else if s.links[i].ran {
        assert FailsAt(s, r, |r0| - 1) by {
          forall b | 0 <= b < |r0| - 1 ensures RanClean(s, r[b]) { assert r[b] == r0[b]; }
        }
      } else {
        var a :| 0 <= a < |r0| - 1 && FailsAt(s, r0, a);
        assert FailsAt(s, r, a) by {
          forall b | 0 <= b < a ensures RanClean(s, r[b]) { assert r[b] == r0[b]; }
          assert Skipped(s, r0[|r0| - 1], s.links[r0[a]].status.outcome);
          forall b | a < b < |r| ensures Skipped(s, r[b], s.links[r[a]].status.outcome) {
            if b < |r0| { assert r[b] == r0[b]; }
          }
        }
      }
    }
  }

  lemma BusyExtendRan<T>(s: Chains<T>, r0: seq<nat>, p: nat)
    requires r0 != [] && RanClean(s, r0[|r0| - 1])
    requires forall a :: 0 <= a < |r0| - 1 ==> RanClean(s, r0[a])
    ensures var r := r0 + [p]; forall a :: 0 <= a < |r| - 1 ==> RanClean(s, r[a])
  {}

  /** A new chain owes nothing to the one before it: whatever that one ended with, its head may start. */
  lemma NextPeriodStartsClean<T>(s: Chains<T>, k: string, task: T)
    requires Inv(s) && k !in s.tails
    ensures var s' := Step(s, Enqueue(k, task)); Enabled(s', Start(|s.links|)) && PeriodOf(s', |s.links|) == [|s.links|]
  {}

  // ---------------------------------------------------------------- independence and progress

  /** What the step does to its one link. */
  function Moved<T>(s: Chains<T>, l: Label<T>): Link<T>
    requires Enabled(s, l) && !l.Enqueue?
  {
    var x := s.links[l.p];
    match l
    case Start(_) => x.(status := Running, ran := true)
    case Skip(p) => x.(status := Finishing(PrevOutcome(s, p).value))
    case Complete(_, o) => x.(status := Finishing(o))
    case Cleanup(_) => x.(status := Cleaned(x.status.outcome))
    case Settle(_) => x.(status := Settled(x.status.outcome))
  }

  function TailsAfter(tails: map<string, nat>, k: string, p: nat, cleanup: bool): map<string, nat> {
    if cleanup && k in tails && tails[k] == p then tails - {k} else tails
  }

  lemma MoveShape<T>(s: Chains<T>, l: Label<T>)
    requires Enabled(s, l) && !l.Enqueue?
    ensures Step(s, l) == Chains(s.links[l.p := Moved(s, l)], TailsAfter(s.tails, s.links[l.p].key, l.p, l.Cleanup?))
  {}

  /** A move of one instance is unaffected by a change to another instance's links. */
  lemma MoveIsLocal<T>(s: Chains<T>, s': Chains<T>, m: Label<T>)
    requires Inv(s) && Enabled(s, m) && !m.Enqueue? && |s.links| <= |s'.links|
    requires forall q :: 0 <= q < |s.links| && s.links[q].key == s.links[m.p].key ==> s'.links[q] == s.links[q]
    ensures Enabled(s', m) && Moved(s', m) == Moved(s, m)
  {
    assert PrevOk(s, m.p);
    assert PrevOutcome(s', m.p) == PrevOutcome(s, m.p);
  }

  lemma OtherMoveIsLocal<T>(s: Chains<T>, l: Label<T>, m: Label<T>)
    requires Inv(s) && Enabled(s, l) && Enabled(s, m) && KeyOf(s, l) != KeyOf(s, m) && !l.Enqueue? && !m.Enqueue?
    ensures Enabled(Step(s, l), m)
    ensures Step(Step(s, l), m) == Chains(
              s.links[l.p := Moved(s, l)][m.p := Moved(s, m)],
              TailsAfter(TailsAfter(s.tails, s.links[l.p].key, l.p, l.Cleanup?), s.links[m.p].key, m.p, m.Cleanup?))
  {
    MoveShape(s, l);
    var a := Step(s, l);
    assert forall q :: 0 <= q < |s.links| && s.links[q].key == s.links[m.p].key ==> a.links[q] == s.links[q];
    MoveIsLocal(s, a, m);
    MoveShape(a, m);
  }

  lemma UpdatesCommute<A>(a: seq<A>, i: nat, x: A, j: nat, y: A)
    requires i < |a| && j < |a| && i != j
    ensures a[i := x][j := y] == a[j := y][i := x]
  {}

  lemma RemovalsCommute(t: map<string, nat>, k: string, p: nat, b: bool, k': string, p': nat, b': bool)
    requires k != k'
    ensures TailsAfter(TailsAfter(t, k, p, b), k', p', b') == TailsAfter(TailsAfter(t, k', p', b'), k, p, b)
  {}

  /** A step, `Enqueue` included, neither enables nor disables a move of another instance. */
  lemma EnabledElsewhere<T>(s: Chains<T>, l: Label<T>, m: Label<T>)
    requires Inv(s) && Enabled(s, l) && !m.Enqueue? && m.p < |s.links| && s.links[m.p].key != KeyOf(s, l)
    ensures Enabled(Step(s, l), m) <==> Enabled(s, m)
  {
    assert PrevOk(s, m.p);
    var s' := Step(s, l);
    assert forall q :: 0 <= q < |s.links| && s.links[q].key == s.links[m.p].key ==> s'.links[q] == s.links[q];
    assert PrevOutcome(s', m.p) == PrevOutcome(s, m.p);
  }

  /** Steps of different instances commute. */
  lemma KeysAreIndependent<T>(s: Chains<T>, l: Label<T>, m: Label<T>)
    requires Inv(s) && Enabled(s, l) && Enabled(s, m) && KeyOf(s, l) != KeyOf(s, m) && !l.Enqueue? && !m.Enqueue?
    ensures Enabled(Step(s, l), m) && Enabled(Step(s, m), l)
    ensures Step(Step(s, l), m) == Step(Step(s, m), l)
  {
    OtherMoveIsLocal(s, l, m);
    OtherMoveIsLocal(s, m, l);
    UpdatesCommute(s.links, l.p, Moved(s, l), m.p, Moved(s, m));
    RemovalsCommute(s.tails, s.links[l.p].key, l.p, l.Cleanup?, s.links[m.p].key, m.p, m.Cleanup?);
  }

  /** Enqueueing for one instance leaves every step of the others as it was. */
  lemma EnqueueIsIndependent<T>(s: Chains<T>, k: string, task: T, m: Label<T>)
    requires Inv(s) && Enabled(s, m) && !m.Enqueue? && KeyOf(s, m) != k
    ensures Enabled(Step(s, Enqueue(k, task)), m)
    ensures Step(Step(s, Enqueue(k, task)), m) == Step(Step(s, m), Enqueue(k, task))
  {
    var a := Step(s, Enqueue(k, task));
    MoveShape(s, m);
    MoveIsLocal(s, a, m);
    MoveShape(a, m);
    assert Step(a, m).links == Step(Step(s, m), Enqueue(k, task)).links;
    assert Step(a, m).tails == Step(Step(s, m), Enqueue(k, task)).tails;
  }

  /** An instance with an unsettled chain can always take a step of its own. */
  lemma KeyCanMove<T>(s: Chains<T>, p: nat) returns (l: Label<T>)
    requires Inv(s) && p < |s.links| && !s.links[p].status.Settled?
    ensures !l.Enqueue? && Enabled(s, l) && KeyOf(s, l) == s.links[p].key
    decreases p
  {
    assert PrevOk(s, p);
    match s.links[p].status
    case Running => l := Complete(p, Resolved);
    case Finishing(_) => l := Cleanup(p);
    case Cleaned(_) => l := Settle(p);
    case Waiting =>
      if s.links[p].prev.Some? && !s.links[s.links[p].prev.value].status.Settled? {
        l := KeyCanMove(s, s.links[p].prev.value);
      } else {
        l := if PrevOutcome(s, p) == Some(Resolved) then Start(p) else Skip(p);
      }
  }

  // ---------------------------------------------------------------- refinement of one queue per instance

  /** The simple picture: waiting tasks in order, the running one, and what the last task of the current
      busy period ended with. */
  datatype Fifo = Fifo(queue: seq<nat>, running: Option<nat>, last: Option<Outcome>)

  datatype FifoStep = Push(n: nat) | Run | Reject | Finish(outcome: Outcome) | Close | Stutter

  predicate FifoEnabled(f: Fifo, x: FifoStep) {
    match x
    case Push(_) => true
    case Run => f.running.None? && f.queue != [] && (f.last.Some? ==> f.last.value.Resolved?)
    case Reject => f.running.None? && f.queue != [] && f.last.Some? && f.last.value.Rejected?
    case Finish(_) => f.running.Some?
    case Close => f.running.None? && f.queue == []
    case Stutter => true
  }

  function FifoNext(f: Fifo, x: FifoStep): Fifo
    requires FifoEnabled(f, x)
  {
    match x
    case Push(n) => f.(queue := f.queue + [n])
    case Run => Fifo(f.queue[1..], Some(f.queue[0]), None)
    case Reject => f.(queue := f.queue[1..])
    case Finish(o) => Fifo(f.queue, None, Some(o))
    case Close => f.(last := None)
    case Stutter => f
  }

  function WaitingIds<T>(links: seq<Link<T>>, k: string): seq<nat> {
    if links == [] then []
    else
      var n := |links| - 1;
      WaitingIds(links[..n], k) + (if links[n].key == k && links[n].status.Waiting? then [n] else [])
  }

  function FirstLive<T>(links: seq<Link<T>>, k: string): (r: Option<nat>)
    ensures r.Some? ==>
              && r.value < |links| && links[r.value].key == k && links[r.value].status.Live()
              && forall i :: 0 <= i < r.value && links[i].key == k ==> !links[i].status.Live()
    ensures r.None? ==> forall i :: 0 <= i < |links| && links[i].key == k ==> !links[i].status.Live()
  {
    if links == [] then None
    else
      var n := |links| - 1;
      var r := FirstLive(links[..n], k);
      assert forall i :: 0 <= i < n ==> links[..n][i] == links[i];
      if r.Some? then r
      else if links[n].key == k && links[n].status.Live() then Some(n) else None
  }

  /** The queue that the linked promises stand for. */
  ghost function Abs<T>(s: Chains<T>, k: string): Fifo { QueueOf(s.links, k) }

  ghost function QueueOf<T>(links: seq<Link<T>>, k: string): Fifo {
    var w := WaitingIds(links, k);
    match FirstLive(links, k)
    case None => Fifo(w, None, None)
    case Some(f) =>
      match links[f].status {
        case Running => Fifo(w, Some(f), None)
        case Finishing(o) => Fifo(w, None, Some(o))
        case _ => Fifo(w, None, Behind(links, links[f].prev))
      }
  }

  /** The outcome a waiting link's turn will begin with, once its predecessor is over. */
  ghost function Behind<T>(links: seq<Link<T>>, prev: Option<nat>): Option<Outcome> {
    if prev.Some? && prev.value < |links| && links[prev.value].status.Over()
    then Some(links[prev.value].status.outcome) else None
  }

  /** Links of k are chained to earlier links of k. */
  ghost predicate PrevInKey<T>(links: seq<Link<T>>, k: string) {
    forall f :: 0 <= f < |links| && links[f].key == k && links[f].prev.Some? ==>
      links[f].prev.value < f && links[links[f].prev.value].key == k
  }

  lemma PrevsInKey<T>(s: Chains<T>, k: string)
    requires Inv(s)
    ensures PrevInKey(s.links, k)
  {
    forall f | 0 <= f < |s.links| && s.links[f].key == k && s.links[f].prev.Some?
      ensures s.links[f].prev.value < f && s.links[s.links[f].prev.value].key == k
    {
      assert PrevOk(s, f);
    }
  }

  ghost function Image<T>(s: Chains<T>, l: Label<T>, k: string): FifoStep
    requires Enabled(s, l)
  {
    if KeyOf(s, l) != k then Stutter else
    match l
    case Enqueue(_, _) => Push(|s.links|)
    case Start(_) => Run
    case Skip(_) => Reject
    case Complete(_, o) => Finish(o)
    case Cleanup(p) => if k in s.tails && s.tails[k] == p then Close else Stutter
    case Settle(_) => Stutter
  }

  lemma {:induction false} WaitingSame<T>(a: seq<Link<T>>, b: seq<Link<T>>, k: string)
    requires |a| == |b|
    requires forall i :: 0 <= i < |a| ==>
             (a[i].key == k && a[i].status.Waiting? <==> b[i].key == k && b[i].status.Waiting?)
    ensures WaitingIds(a, k) == WaitingIds(b, k)
  {
    if a != [] { WaitingSame(a[..|a| - 1], b[..|a| - 1], k); }
  }

  lemma {:induction false} NoneWaiting<T>(links: seq<Link<T>>, k: string)
    requires forall i :: 0 <= i < |links| && links[i].key == k ==> !links[i].status.Waiting?
    ensures WaitingIds(links, k) == []
  {
    if links != [] { NoneWaiting(links[..|links| - 1], k); }
  }

  /** The oldest waiting link is the head of the queue, and moving it on takes it off. */
  lemma {:induction false} WaitingHead<T>(a: seq<Link<T>>, b: seq<Link<T>>, k: string, p: nat)
    requires |a| == |b| && p < |a| && a[p].key == k && a[p].status.Waiting?
    requires forall i :: 0 <= i < p && a[i].key == k ==> !a[i].status.Waiting?
    requires forall i :: 0 <= i < |a| && i != p ==> a[i] == b[i]
    requires !b[p].status.Waiting?
    ensures WaitingIds(a, k) == [p] + WaitingIds(b, k)
  {
    var n := |a| - 1;
    if p == n {
      NoneWaiting(a[..n], k);
      NoneWaiting(b[..n], k);
    } else {
      WaitingHead(a[..n], b[..n], k, p);
    }
  }

  lemma FirstLiveIs<T>(links: seq<Link<T>>, k: string, p: nat)
    requires p < |links| && links[p].key == k && links[p].status.Live()
    requires forall i :: 0 <= i < p && links[i].key == k ==> !links[i].status.Live()
    ensures FirstLive(links, k) == Some(p)
  {}

  lemma RefinesOtherMove<T>(s: Chains<T>, l: Label<T>, k: string)
    requires Inv(s) && Enabled(s, l) && KeyOf(s, l) != k && !l.Enqueue?
    ensures Abs(Step(s, l), k) == Abs(s, k)
  {
    MoveShape(s, l);
    PrevsInKey(s, k);
    SameView(s.links, Step(s, l).links, k);
  }

  lemma RefinesOtherEnqueue<T>(s: Chains<T>, k': string, task: T, k: string)
    requires Inv(s) && k' != k
    ensures Abs(Step(s, Enqueue(k', task)), k) == Abs(s, k)
  {
    PrevsInKey(s, k);
    var links := Step(s, Enqueue(k', task)).links;
    AppendElsewhere(s.links, links[|s.links|], k);
  }

  lemma AppendElsewhere<T>(links: seq<Link<T>>, x: Link<T>, k: string)
    requires PrevInKey(links, k) && x.key != k
    ensures QueueOf(links + [x], k) == QueueOf(links, k)
  {
    assert (links + [x])[..|links|] == links;
  }

  /** Another instance's step leaves the queue of k alone. */
  lemma RefinesOther<T>(s: Chains<T>, l: Label<T>, k: string)
    requires Inv(s) && Enabled(s, l) && KeyOf(s, l) != k
    ensures Abs(Step(s, l), k) == Abs(s, k)
  {
    if l.Enqueue? { RefinesOtherEnqueue(s, l.key, l.task, k); } else { RefinesOtherMove(s, l, k); }
  }

  lemma SameView<T>(a: seq<Link<T>>, b: seq<Link<T>>, k: string)
    requires |a| == |b| && PrevInKey(a, k)
    requires forall q :: 0 <= q < |a| ==> b[q].key == a[q].key && (a[q].key == k ==> b[q] == a[q])
    ensures QueueOf(b, k) == QueueOf(a, k)
  {
    WaitingSame(a, b, k);
    match FirstLive(a, k)
    case None =>
    case Some(f) => FirstLiveIs(b, k, f);
  }

  lemma RefinesEnqueue<T>(s: Chains<T>, k: string, task: T)
    requires Inv(s)
    ensures Abs(Step(s, Enqueue(k, task)), k) == FifoNext(Abs(s, k), Push(|s.links|))
  {
    PrevsInKey(s, k);
    if k in s.tails { assert TailOk(s, k); }
    AppendView(s.links, Step(s, Enqueue(k, task)).links[|s.links|], k);
  }

  lemma AppendView<T>(links: seq<Link<T>>, x: Link<T>, k: string)
    requires PrevInKey(links, k) && x.key == k && x.status.Waiting? && (FirstLive(links, k).None? ==> x.prev.None?)
    ensures QueueOf(links + [x], k) == QueueOf(links, k).(queue := QueueOf(links, k).queue + [|links|])
  {
    assert (links + [x])[..|links|] == links;
    match FirstLive(links, k)
    case None => FirstLiveIs(links + [x], k, |links|);
    case Some(f) => FirstLiveIs(links + [x], k, f);
  }

  /** A link that leaves the waiting state is the head of its queue. */
  lemma RefinesDequeue<T>(s: Chains<T>, l: Label<T>, k: string)
    requires Inv(s) && Enabled(s, l) && (l.Start? || l.Skip?) && KeyOf(s, l) == k
    ensures FifoEnabled(Abs(s, k), Image(s, l, k)) && Abs(Step(s, l), k) == FifoNext(Abs(s, k), Image(s, l, k))
  {
    OnlyOneLive(s, l.p);
    assert PrevOk(s, l.p);
    MoveShape(s, l);
    HeadView(s.links, Step(s, l).links, k, l.p);
  }

  lemma HeadView<T>(a: seq<Link<T>>, b: seq<Link<T>>, k: string, p: nat)
    requires p < |a| && a[p].key == k && a[p].status.Waiting?
             && forall i :: 0 <= i < p && a[i].key == k ==> !a[i].status.Live()
    requires |b| == |a| && b == a[p := b[p]] && b[p].key == k && (b[p].status.Running? || b[p].status.Finishing?)
    ensures QueueOf(a, k) == Fifo([p] + WaitingIds(b, k), None, Behind(a, a[p].prev))
    ensures QueueOf(b, k) == if b[p].status.Running? then Fifo(WaitingIds(b, k), Some(p), None)
                             else Fifo(WaitingIds(b, k), None, Some(b[p].status.outcome))
  {
    FirstLiveIs(a, k, p);
    FirstLiveIs(b, k, p);
    WaitingHead(a, b, k, p);
  }

  /** A link that is not waiting and still live is the only live one besides waiting ones. */
  lemma EarlierAreDone<T>(s: Chains<T>, p: nat)
    requires Inv(s) && p < |s.links| && !s.links[p].status.Waiting?
    ensures forall i :: 0 <= i < p && s.links[i].key == s.links[p].key ==> !s.links[i].status.Live()
  {}

  lemma LaterAreWaiting<T>(s: Chains<T>, p: nat)
    requires Inv(s) && p < |s.links| && s.links[p].status.Live()
    ensures forall j :: p < j < |s.links| && s.links[j].key == s.links[p].key ==> s.links[j].status.Waiting?
  {}

  lemma RefinesComplete<T>(s: Chains<T>, l: Label<T>, k: string)
    requires Inv(s) && Enabled(s, l) && l.Complete? && KeyOf(s, l) == k
    ensures FifoEnabled(Abs(s, k), Image(s, l, k)) && Abs(Step(s, l), k) == FifoNext(Abs(s, k), Image(s, l, k))
  {
    var s', p := Step(s, l), l.p;
    EarlierAreDone(s, p);
    FirstLiveIs(s.links, k, p);
    FirstLiveIs(s'.links, k, p);
    WaitingSame(s.links, s'.links, k);
  }

  lemma RefinesCleanup<T>(s: Chains<T>, p: nat, k: string)
    requires Inv(s) && Enabled(s, Cleanup(p)) && s.links[p].key == k
    ensures var l := Label<T>.Cleanup(p);
            FifoEnabled(Abs(s, k), Image(s, l, k)) && Abs(Step(s, l), k) == FifoNext(Abs(s, k), Image(s, l, k))
  {
    EarlierAreDone(s, p);
    LaterAreWaiting(s, p);
    assert TailOk(s, k);
    if s.tails[k] == p {
      LastCleaned(s.links, Step(s, Cleanup(p)).links, k, p);
    } else {
      NextWaitsOn(s, p);
      MiddleCleaned(s.links, Step(s, Cleanup(p)).links, k, p);
    }
  }

  /** The cleanup of the last link empties the queue's state. */
  lemma LastCleaned<T>(a: seq<Link<T>>, b: seq<Link<T>>, k: string, p: nat)
    requires p < |a| && a[p].key == k && a[p].status.Finishing?
             && forall i :: 0 <= i < |a| && i != p && a[i].key == k ==> !a[i].status.Live()
    requires b == a[p := a[p].(status := Cleaned(a[p].status.outcome))]
    ensures QueueOf(a, k) == Fifo([], None, Some(a[p].status.outcome)) && QueueOf(b, k) == Fifo([], None, None)
  {
    FirstLiveIs(a, k, p);
    NoneWaiting(a, k);
    NoneWaiting(b, k);
  }

  /** The cleanup of any other link leaves its outcome to the next one. */
  lemma MiddleCleaned<T>(a: seq<Link<T>>, b: seq<Link<T>>, k: string, p: nat)
    requires p < |a| && a[p].key == k && a[p].status.Finishing?
             && forall i :: 0 <= i < p && a[i].key == k ==> !a[i].status.Live()
    requires b == a[p := a[p].(status := Cleaned(a[p].status.outcome))]
    requires FirstLive(b, k).Some? && b[FirstLive(b, k).value].status.Waiting?
             && b[FirstLive(b, k).value].prev == Some(p)
    ensures QueueOf(b, k) == QueueOf(a, k)
  {
    FirstLiveIs(a, k, p);
    WaitingSame(a, b, k);
  }

  /** While p's `finally` has not run, the next link of its instance is chained to p. */
  lemma NextWaitsOn<T>(s: Chains<T>, p: nat)
    requires Inv(s) && p < |s.links| && s.links[p].status.Finishing?
    requires s.links[p].key in s.tails && s.tails[s.links[p].key] != p
    ensures var s' := Step(s, Cleanup(p));
            && FirstLive(s'.links, s.links[p].key).Some?
            && var f := FirstLive(s'.links, s.links[p].key).value;
               f > p && s.links[f].status.Waiting? && s.links[f].prev == Some(p)
  {
    var k := s.links[p].key;
    var s' := Step(s, Cleanup(p));
    assert TailOk(s, k);
    assert s'.links[s.tails[k]].status.Live();
    EarlierAreDone(s, p);
    var f := FirstLive(s'.links, k).value;
    assert f > p;
    assert PrevOk(s, f);
    LaterAreWaiting(s, p);
    assert forall j :: p < j < f ==> s'.links[j] == s.links[j];
  }

  lemma RefinesSettle<T>(s: Chains<T>, p: nat, k: string)
    requires Inv(s) && Enabled(s, Settle(p)) && s.links[p].key == k
    ensures Abs(Step(s, Settle(p)), k) == Abs(s, k)
  {
    PrevsInKey(s, k);
    SettledView(s.links, Step(s, Settle(p)).links, k, p);
  }

  lemma SettledView<T>(a: seq<Link<T>>, b: seq<Link<T>>, k: string, p: nat)
    requires p < |a| && a[p].key == k && a[p].status.Cleaned? && PrevInKey(a, k)
    requires b == a[p := a[p].(status := Settled(a[p].status.outcome))]
    ensures QueueOf(b, k) == QueueOf(a, k)
  {
    WaitingSame(a, b, k);
    match FirstLive(a, k)
    case None =>
    case Some(f) => FirstLiveIs(b, k, f);
  }

  /** Every step of the promise chains is one step of the instance's queue, and no step of any other's. */
  lemma RefinesFifo<T>(s: Chains<T>, l: Label<T>, k: string)
    requires Inv(s) && Enabled(s, l)
    ensures FifoEnabled(Abs(s, k), Image(s, l, k))
    ensures Abs(Step(s, l), k) == FifoNext(Abs(s, k), Image(s, l, k))
  {
    if KeyOf(s, l) != k {
      RefinesOther(s, l, k);
    } else {
      match l
      case Enqueue(_, task) => RefinesEnqueue(s, k, task);
      case Start(_) => RefinesDequeue(s, l, k);
      case Skip(_) => RefinesDequeue(s, l, k);
      case Complete(_, _) => RefinesComplete(s, l, k);
      case Cleanup(p) => RefinesCleanup(s, p, k);
      case Settle(p) => RefinesSettle(s, p, k);
    }
  }

  ghost function FifoAfter<T>(s: Chains<T>, run: seq<Label<T>>, k: string, f: Fifo): Option<Fifo>
    requires ValidRun(s, run)
    decreases |run|
  {
    if run == [] then Some(f)
    else if FifoEnabled(f, Image(s, run[0], k))
    then FifoAfter(Step(s, run[0]), run[1..], k, FifoNext(f, Image(s, run[0], k)))
    else None
  }

  /** Over a whole run the promises of one instance behave as one queue does: no step of it is ever refused
      by the queue, and the two end in the same place. */
  lemma {:induction false} RunRefinesFifo<T>(s: Chains<T>, run: seq<Label<T>>, k: string)
    requires Inv(s) && ValidRun(s, run)
    ensures Inv(After(s, run)) && FifoAfter(s, run, k, Abs(s, k)) == Some(Abs(After(s, run), k))
    decreases |run|
  {
    if run != [] {
      InvStep(s, run[0]);
      RefinesFifo(s, run[0], k);
      RunRefinesFifo(Step(s, run[0]), run[1..], k);
    }
  }

  /** The scheduler object.  `promises` stands for the promise objects themselves; each method is one
      uninterrupted turn: the synchronous part of `enqueue`, or one promise callback. */
  class DefaultSagaScheduler<T> {
    var instanceQueues: map<string, nat>
    var promises: seq<Link<T>>

    ghost function State(): Chains<T>
      reads this
    {
      Chains(promises, instanceQueues)
    }

    ghost predicate Valid()
      reads this
    {
      Inv(State())
    }

    constructor ()
      ensures Valid() && State() == Empty()
    {
      instanceQueues, promises := map[], [];
    }

    method Enqueue(instanceId: string, task: T) returns (newChain: nat)
      requires Valid()
      modifies this
      ensures Valid() && State() == Step(old(State()), Label.Enqueue(instanceId, task))
      ensures newChain == |old(promises)|
              && Abs(State(), instanceId).queue == Abs(old(State()), instanceId).queue + [newChain]
    {
      ghost var s := State();
      var existing := if instanceId in instanceQueues then Some(instanceQueues[instanceId]) else None;
      newChain := |promises|;
      promises := promises + [Link(instanceId, task, existing, Waiting, false)];
      instanceQueues := instanceQueues[instanceId := newChain];
      InvStep(s, Label.Enqueue(instanceId, task));
      RefinesFifo(s, Label.Enqueue(instanceId, task), instanceId);
    }

    /** The `then` reaction: the predecessor has settled, so the task starts or the rejection is passed on. */
    method Then(p: nat) returns (started: bool)
      requires Valid() && p < |promises| && promises[p].status.Waiting? && PrevOutcome(State(), p).Some?
      modifies this
      ensures Valid() && started == PrevOutcome(old(State()), p).value.Resolved?
      ensures State() == Step(old(State()), if started then Start(p) else Skip(p))
      ensures forall i :: 0 <= i < p && promises[i].key == promises[p].key ==> !promises[i].status.Live()
    {
      ghost var s := State();
      var link := promises[p];
      var before := if link.prev.None? then Resolved else promises[link.prev.value].status.outcome;
      started := before.Resolved?;
      if started {
        promises := promises[p := link.(status := Running, ran := true)];
      } else {
        promises := promises[p := link.(status := Finishing(before))];
      }
      InvStep(s, if started then Start(p) else Skip(p));
      OnlyOneLive(s, p);
    }

    /** The task's promise has settled. */
    method TaskDone(p: nat, outcome: Outcome)
      requires Valid() && p < |promises| && promises[p].status.Running?
      modifies this
      ensures Valid() && State() == Step(old(State()), Complete(p, outcome))
    {
      ghost var s := State();
      promises := promises[p := promises[p].(status := Finishing(outcome))];
      InvStep(s, Complete(p, outcome));
    }

    /** The `finally` callback: the map entry goes only if no later task has replaced it. */
    method Finally(p: nat)
      requires Valid() && p < |promises| && promises[p].status.Finishing?
      modifies this
      ensures Valid() && State() == Step(old(State()), Cleanup(p))
      ensures promises[p].key in instanceQueues <==>
              exists q :: p < q < |promises| && promises[q].key == promises[p].key
    {
      ghost var s := State();
      var link := promises[p];
      assert TailOk(s, link.key);
      LaterAreWaiting(s, p);
      EarlierAreDone(s, p);
      promises := promises[p := link.(status := Cleaned(link.status.outcome))];
      if link.key in instanceQueues && instanceQueues[link.key] == p {
        instanceQueues := instanceQueues - {link.key};
      }
      InvStep(s, Cleanup(p));
    }

    /** The promise that `enqueue` returned settles. */
    method ChainSettles(p: nat)
      requires Valid() && p < |promises| && promises[p].status.Cleaned?
      modifies this
      ensures Valid() && State() == Step(old(State()), Settle(p))
    {
      ghost var s := State();
      promises := promises[p := promises[p].(status := Settled(promises[p].status.outcome))];
      InvStep(s, Settle(p));
    }
  }
}
