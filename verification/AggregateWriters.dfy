/**
 One object at a time writes a key: what is stored, on the way and new against what the object has been reduced
 with, and what the next object to load the key gets.
 */
module AggregateWriters {
  import opened Wrappers
  import opened Aggregates

  ghost predicate IsOpen(s: Repo, p: nat, c: Call) {
    p in s.persists && Pending(s.persists[p].phase) && SameKey(s.persists[p].call, c)
  }

  /** The batch of the persist that is open for the key, if one is. */
  ghost function OpenBatch(s: Repo, c: Call): seq<Event> {
    if exists p :: IsOpen(s, p, c) then
      var p :| IsOpen(s, p, c);
      s.persists[p].batch
    else []
  }

  lemma OpenIs(s: Repo, p: nat, c: Call)
    requires Ordered(s) && IsOpen(s, p, c)
    ensures OpenBatch(s, c) == s.persists[p].batch
  {
    forall q | IsOpen(s, q, c) ensures q == p {
      if q != p { Excludes(s, p, q); }
    }
  }

  /** All there is of the events of object `a`: stored, on the way, and new. */
  ghost function Everything(s: Repo, a: nat, c: Call): seq<Event> {
    History(s, c) + OpenBatch(s, c) + At(s.newEvents, a)
  }

  /** Of the open persists, `a`'s are those under the key of `c`. */
  ghost predicate Owns(s: Repo, a: nat, c: Call) {
    forall p :: p in s.persists && Pending(s.persists[p].phase) ==>
                  (s.persists[p].call.agg == a <==> SameKey(s.persists[p].call, c))
  }

  /** Object `a` is as the store has it, and nobody is writing. */
  ghost predicate Synced(s: Repo, a: nat, c: Call) {
    && (forall p :: p in s.persists && Pending(s.persists[p].phase) ==>
                      s.persists[p].call.agg != a && !SameKey(s.persists[p].call, c))
    && At(s.newEvents, a) == [] && History(s, c) == At(s.raised, a)
  }

  /** In the run only `a` persists under the key, and only there; others may load and look. */
  ghost predicate OnlyWriter(s: Repo, run: seq<Label>, a: nat, c: Call)
    requires ValidRun(s, run)
    decreases |run|
  {
    run == [] ||
    ((run[0].Acquire? ==> (s.persists[run[0].p].call.agg == a <==> SameKey(s.persists[run[0].p].call, c)))
     && (run[0].Load? ==> run[0].agg != a)
     && OnlyWriter(Step(s, run[0]), run[1..], a, c))
  }

  /** The store fails a persist of `a` that has taken events. */
  predicate Loses(s: Repo, l: Label, a: nat)
    requires Enabled(s, l)
  {
    (l.StepFails? || l.Rollback?) && s.persists[l.p].call.agg == a && s.persists[l.p].batch != []
  }

  ghost predicate NeverLoses(s: Repo, run: seq<Label>, a: nat)
    requires ValidRun(s, run)
    decreases |run|
  {
    run == [] || (!Loses(s, run[0], a) && NeverLoses(Step(s, run[0]), run[1..], a))
  }

  function Raised(l: Label, a: nat): seq<Event> { if l.Raise? && l.agg == a then [l.e] else [] }

  /** The open persists of a key are the same, with the same batches. */
  lemma SameOpen(s: Repo, t: Repo, c: Call)
    requires Ordered(s) && Ordered(t)
    requires forall p :: IsOpen(t, p, c) ==> IsOpen(s, p, c)
    requires forall p :: IsOpen(s, p, c) ==> IsOpen(t, p, c) && t.persists[p].batch == s.persists[p].batch
    ensures OpenBatch(t, c) == OpenBatch(s, c)
  {
    if p :| IsOpen(s, p, c) {
      OpenIs(s, p, c);
      OpenIs(t, p, c);
    }
  }

  /** `p` has stopped being open. */
  lemma ClosedOpen(s: Repo, t: Repo, p: nat, c: Call)
    requires Ordered(s) && IsOpen(s, p, c) && Moves(s, t, p) && !Pending(t.persists[p].phase)
    ensures OpenBatch(s, c) == s.persists[p].batch && OpenBatch(t, c) == []
  {
    OpenIs(s, p, c);
    forall q ensures !IsOpen(t, q, c) {
      if q != p && IsOpen(s, q, c) { Excludes(s, p, q); }
    }
  }

  /** The lock is free, so no persist is open for the key. */
  lemma NoneOpen(s: Repo, p: nat, c: Call)
    requires Inv(s) && Enabled(s, Acquire(p)) && Safe(s, Acquire(p)) && SameKey(s.persists[p].call, c)
    ensures forall q :: !IsOpen(s, q, c)
  {
    forall q ensures !IsOpen(s, q, c) {
      if q in s.persists && SameKey(s.persists[q].call, c) {
        assert LockKey(s.persists[q].call) == LockKey(s.persists[p].call);
      }
    }
  }

  lemma EverythingAcquire(s: Repo, p: nat, a: nat, c: Call)
    requires Inv(s) && Owns(s, a, c) && Enabled(s, Acquire(p)) && Safe(s, Acquire(p))
    requires s.persists[p].call.agg == a <==> SameKey(s.persists[p].call, c)
    ensures Everything(Step(s, Acquire(p)), a, c) == Everything(s, a, c) && Owns(Step(s, Acquire(p)), a, c)
  {
    OrderedAcquire(s, p);
    SameHistory(s, Acquire(p), c);
    if s.persists[p].call.agg == a { NoneOpen(s, p, c); }
    TakesNewEvents(s, Step(s, Acquire(p)), p, a, c);
  }

  /** The new events become the open batch. */
  lemma TakesNewEvents(s: Repo, t: Repo, p: nat, a: nat, c: Call)
    requires Ordered(s) && Ordered(t) && Owns(s, a, c) && History(t, c) == History(s, c)
    requires p in s.persists && !Pending(s.persists[p].phase)
             && t.newEvents == s.newEvents[s.persists[p].call.agg := []]
    requires t.persists ==
             s.persists[p := Persist(s.persists[p].call, Finding, At(s.newEvents, s.persists[p].call.agg))]
    requires s.persists[p].call.agg == a <==> SameKey(s.persists[p].call, c)
    requires s.persists[p].call.agg == a ==> forall q :: !IsOpen(s, q, c)
    ensures Everything(t, a, c) == Everything(s, a, c) && Owns(t, a, c)
  {
    if s.persists[p].call.agg == a {
      assert IsOpen(t, p, c);
      OpenIs(t, p, c);
      assert History(s, c) + [] + At(s.newEvents, a) == History(s, c) + At(s.newEvents, a) + [];
    } else {
      SameOpen(s, t, c);
    }
  }

  /** A write that shows moves the batch into the history. */
  lemma EverythingLands(s: Repo, t: Repo, p: nat, w: Write, a: nat, c: Call)
    requires Ordered(s) && Ordered(t) && Owns(s, a, c) && Lands(s, t, p, w) && t.newEvents == s.newEvents
    requires !Pending(t.persists[p].phase)
    ensures Everything(t, a, c) == Everything(s, a, c) && Owns(t, a, c)
  {
    StoredHistory(s, t, p, c);
    DropsOpen(s, t, p, c);
    if SameKey(s.persists[p].call, c) { OpenIs(s, p, c); }
    Regroup(History(s, c), OpenBatch(s, c), At(s.newEvents, a));
    OwnsLess(s, t, p, a, c);
  }

  lemma Regroup(h: seq<Event>, b: seq<Event>, n: seq<Event>)
    ensures h + b + [] + n == h + b + n && h + [] + b + n == h + b + n && h + [] + n == h + n
  {
  }

  lemma OwnsLess(s: Repo, t: Repo, p: nat, a: nat, c: Call)
    requires Owns(s, a, c) && Moves(s, t, p) && (Pending(t.persists[p].phase) ==> Pending(s.persists[p].phase))
    ensures Owns(t, a, c)
  {
  }

  /** A failed step drops the batch. */
  lemma EverythingFails(s: Repo, l: Label, a: nat, c: Call)
    requires Ordered(s) && Owns(s, a, c) && Enabled(s, l) && (l.StepFails? || l.Rollback?)
    ensures Everything(Step(s, l), a, c) ==
            if Loses(s, l, a) then History(s, c) + At(s.newEvents, a) else Everything(s, a, c)
    ensures Owns(Step(s, l), a, c)
  {
    OrderedInner(s, l);
    SameHistory(s, l, c);
    FailMoves(s, l);
    DropsBatch(s, Step(s, l), l.p, a, c);
  }

  lemma FailMoves(s: Repo, l: Label)
    requires Enabled(s, l) && (l.StepFails? || l.Rollback?)
    ensures var t := Step(s, l);
            && Moves(s, t, l.p) && t.newEvents == s.newEvents
            && Pending(s.persists[l.p].phase) && !Pending(t.persists[l.p].phase)
  {
  }

  lemma DropsBatch(s: Repo, t: Repo, p: nat, a: nat, c: Call)
    requires Ordered(s) && Ordered(t) && Owns(s, a, c) && Moves(s, t, p) && t.newEvents == s.newEvents
    requires Pending(s.persists[p].phase) && !Pending(t.persists[p].phase) && History(t, c) == History(s, c)
    ensures Everything(t, a, c) == if s.persists[p].call.agg == a && s.persists[p].batch != []
                                   then History(s, c) + At(s.newEvents, a) else Everything(s, a, c)
    ensures Owns(t, a, c)
  {
    DropsOpen(s, t, p, c);
    Regroup(History(s, c), [], At(s.newEvents, a));
    if SameKey(s.persists[p].call, c) { OpenIs(s, p, c); }
    OwnsLess(s, t, p, a, c);
  }

  lemma DropsOpen(s: Repo, t: Repo, p: nat, c: Call)
    requires Ordered(s) && Ordered(t) && Moves(s, t, p) && Pending(s.persists[p].phase) && !Pending(t.persists[p].phase)
    ensures OpenBatch(t, c) == if SameKey(s.persists[p].call, c) then [] else OpenBatch(s, c)
  {
    if SameKey(s.persists[p].call, c) { ClosedOpen(s, t, p, c); } else { SameOpen(s, t, c); }
  }

  /** Any other move leaves the open batches as they are. */
  lemma EverythingQuiet(s: Repo, l: Label, a: nat, c: Call)
    requires Inv(s) && Owns(s, a, c) && Enabled(s, l) && Safe(s, l) && !l.Raise? && !l.Load?
    requires !l.Acquire? && !l.StepFails? && !l.Rollback? && !l.Commit? && !(l.WriteOk? && s.mode.AtOnce?)
    ensures Everything(Step(s, l), a, c) == Everything(s, a, c) && Owns(Step(s, l), a, c)
  {
    var t := Step(s, l);
    OrderedStep(s, l);
    SameHistory(s, l, c);
    if l.Begin? {
      SameOpen(s, t, c);
    } else {
      if l.Found? { PreparedIsComplete(s, l.p, l.row, l.checkpoint); }
      SamePending(s, l);
      StaysOpen(s, t, l.p, a, c);
    }
  }

  lemma StaysOpen(s: Repo, t: Repo, p: nat, a: nat, c: Call)
    requires Ordered(s) && Ordered(t) && Owns(s, a, c) && Moves(s, t, p) && t.persists[p].batch == s.persists[p].batch
    requires Pending(t.persists[p].phase) <==> Pending(s.persists[p].phase)
    ensures OpenBatch(t, c) == OpenBatch(s, c) && Owns(t, a, c)
  {
    SameOpen(s, t, c);
  }

  lemma SamePending(s: Repo, l: Label)
    requires Enabled(s, l) && (l.LockFails? || l.Found? || l.WriteOk? || l.Release?) && !(l.WriteOk? && s.mode.AtOnce?)
    requires l.Found? ==> WriteOf(Prepared(s, s.persists[l.p].call, s.persists[l.p].batch, l.row, l.checkpoint)).Some?
    ensures var t := Step(s, l);
            Moves(s, t, l.p) && t.persists[l.p].batch == s.persists[l.p].batch && t.newEvents == s.newEvents
            && (Pending(t.persists[l.p].phase) <==> Pending(s.persists[l.p].phase))
  {
  }

  lemma EverythingRaise(s: Repo, l: Label, a: nat, c: Call)
    requires Ordered(s) && Owns(s, a, c) && Enabled(s, l) && (l.Raise? || (l.Load? && l.agg != a))
    ensures var t := Step(s, l);
            Everything(t, a, c) == Everything(s, a, c) + Raised(l, a)
                && At(t.raised, a) == At(s.raised, a) + Raised(l, a)
            && Owns(t, a, c)
  {
    RaiseMoves(s, l, a);
    SamePersists(s, Step(s, l), a, c);
    var before := History(s, c) + OpenBatch(s, c);
    assert before + (At(s.newEvents, a) + Raised(l, a)) == before + At(s.newEvents, a) + Raised(l, a);
  }

  lemma SamePersists(s: Repo, t: Repo, a: nat, c: Call)
    requires Ordered(s) && Owns(s, a, c) && t.persists == s.persists && t.acquired == s.acquired && t.stored == s.stored
    ensures OpenBatch(t, c) == OpenBatch(s, c) && History(t, c) == History(s, c) && Owns(t, a, c)
  {
    assert Ordered(t);
    SameOpen(s, t, c);
  }

  lemma RaiseMoves(s: Repo, l: Label, a: nat)
    requires Enabled(s, l) && (l.Raise? || (l.Load? && l.agg != a))
    ensures var t := Step(s, l);
            && t.persists == s.persists && t.acquired == s.acquired && t.stored == s.stored
            && At(t.newEvents, a) == At(s.newEvents, a) + Raised(l, a)
            && At(t.raised, a) == At(s.raised, a) + Raised(l, a)
  {
  }

  lemma RaisedStays(s: Repo, l: Label, a: nat)
    requires Enabled(s, l) && !l.Raise? && !l.Load?
    ensures Step(s, l).raised == s.raised
  {
  }

  lemma EverythingStep(s: Repo, l: Label, a: nat, c: Call)
    requires Inv(s) && Owns(s, a, c) && Enabled(s, l) && Safe(s, l) && (l.Load? ==> l.agg != a)
    requires l.Acquire? ==> (s.persists[l.p].call.agg == a <==> SameKey(s.persists[l.p].call, c))
    ensures var t := Step(s, l);
            && Owns(t, a, c) && At(t.raised, a) == At(s.raised, a) + Raised(l, a)
            && Everything(t, a, c) ==
               if Loses(s, l, a) then History(s, c) + At(s.newEvents, a) else Everything(s, a, c) + Raised(l, a)
  {
    if l.Raise? || l.Load? {
      EverythingRaise(s, l, a, c);
    } else {
      RaisedStays(s, l, a);
      assert Everything(s, a, c) + [] == Everything(s, a, c) && At(s.raised, a) + [] == At(s.raised, a);
      if l.Acquire? {
        EverythingAcquire(s, l.p, a, c);
      } else if l.StepFails? || l.Rollback? {
        EverythingFails(s, l, a, c);
      } else if l.Commit? || (l.WriteOk? && s.mode.AtOnce?) {
        EverythingWritten(s, l, a, c);
      } else {
        EverythingQuiet(s, l, a, c);
      }
    }
  }

  lemma EverythingWritten(s: Repo, l: Label, a: nat, c: Call)
    requires Ordered(s) && Owns(s, a, c) && Enabled(s, l) && (l.Commit? || (l.WriteOk? && s.mode.AtOnce?))
    ensures Everything(Step(s, l), a, c) == Everything(s, a, c) && Owns(Step(s, l), a, c)
  {
    var w := s.persists[l.p].phase.write;
    ToLands(s, l.p, w, if l.Commit? then Finished else Releasing(None));
    OrderedInner(s, l);
    EverythingLands(s, Step(s, l), l.p, w, a, c);
  }

  /** With nothing lost the events of `a` are all there; once some are lost they stay so. */
  lemma {:induction false} EverythingRun(s: Repo, run: seq<Label>, a: nat, c: Call)
    requires Inv(s) && Owns(s, a, c) && ValidRun(s, run) && SafeRun(s, run) && OnlyWriter(s, run, a, c)
    ensures var t := After(s, run);
            && Inv(t)
            && (NeverLoses(s, run, a) && Everything(s, a, c) == At(s.raised, a) ==>
                  Everything(t, a, c) == At(t.raised, a))
            && (!NeverLoses(s, run, a) && Everything(s, a, c) == At(s.raised, a) ==>
                  |Everything(t, a, c)| < |At(t.raised, a)|)
            && (|Everything(s, a, c)| < |At(s.raised, a)| ==> |Everything(t, a, c)| < |At(t.raised, a)|)
    decreases |run|
  {
    if run != [] {
      var t := Step(s, run[0]);
      InvStep(s, run[0]);
      EverythingStep(s, run[0], a, c);
      if Loses(s, run[0], a) { LossShrinks(s, run[0], a, c); }
      EverythingRun(t, run[1..], a, c);
    }
  }

  lemma LossShrinks(s: Repo, l: Label, a: nat, c: Call)
    requires Ordered(s) && Owns(s, a, c) && Enabled(s, l) && Loses(s, l, a)
    ensures |History(s, c) + At(s.newEvents, a)| < |Everything(s, a, c)|
  {
    OpenIs(s, l.p, c);
  }

  /** One writer at a time.  From a load (or from the birth of the key) on, while no other object persists under
      the key: the stored history followed by the new events is all the object has been reduced with, exactly when
      the store failed no persist that had taken events, and none that has is still open. */
  lemma NothingLostExactlyWhen(s: Repo, run: seq<Label>, a: nat, c: Call)
    requires Inv(s) && Synced(s, a, c) && ValidRun(s, run) && SafeRun(s, run) && OnlyWriter(s, run, a, c)
    ensures var t := After(s, run);
            History(t, c) + At(t.newEvents, a) == At(t.raised, a) <==> NeverLoses(s, run, a) && OpenBatch(t, c) == []
  {
    SyncedOwns(s, a, c);
    EverythingRun(s, run, a, c);
    var t := After(s, run);
    WholeOrShort(History(t, c), OpenBatch(t, c), At(t.newEvents, a), At(t.raised, a));
  }

  /** An event has been raised, and a persist has taken it and its lock. */
  lemma Taken(mode: Visibility, c: Call, e: Event) returns (run: seq<Label>, t: Repo)
    ensures run == [Raise(c.agg, e), Begin(0, c), Acquire(0)]
    ensures ValidRun(New(mode), run) && After(New(mode), run) == t
    ensures t == Repo(mode, map[c.agg := []], map[c.agg := [e]], map[], 0, map[LockKey(c) := 0],
                      map[0 := Persist(c, Finding, [e])], [0], {})
  {
    var s := New(mode);
    run, t := Snoc(s, [], s, Raise(c.agg, e));
    assert [] + [e] == [e];
    assert t == s.(newEvents := map[c.agg := [e]], raised := map[c.agg := [e]]);
    run, t := Snoc(s, run, t, Begin(0, c));
    assert t.persists == map[0 := Persist(c, Waiting, [])];
    run, t := Snoc(s, run, t, Acquire(0));
    assert t.newEvents == map[c.agg := []] && t.locks == map[LockKey(c) := 0];
    assert t.persists == map[0 := Persist(c, Finding, [e])];
  }

  /** One failing step is enough: an event raised and taken by a persist is gone when the store fails to find the
      record, or to write it. */
  lemma FailureLoses(mode: Visibility, c: Call, e: Event, writing: bool) returns (run: seq<Label>, t: Repo)
    ensures ValidRun(New(mode), run) && After(New(mode), run) == t && Raise(c.agg, e) in run && StepFails(0) in run
    ensures At(t.raised, c.agg) == [e] && At(t.newEvents, c.agg) == [] && t.rows == map[] && t.locks == map[]
  {
    run, t := Taken(mode, c, e);
    if writing { run, t := Snoc(New(mode), run, t, Found(0, None, map[])); }
    run, t := Fails(mode, run, t, c);
  }

  lemma Fails(mode: Visibility, before: seq<Label>, s: Repo, c: Call) returns (run: seq<Label>, t: Repo)
    requires ValidRun(New(mode), before) && After(New(mode), before) == s && 0 in s.persists
    requires s.persists[0].call == c && (s.persists[0].phase.Finding? || s.persists[0].phase.Writing?)
    requires s.locks == map[LockKey(c) := 0]
    ensures ValidRun(New(mode), run) && After(New(mode), run) == t && before <= run && StepFails(0) in run
    ensures t == s.(locks := map[], persists := t.persists)
  {
    run, t := Snoc(New(mode), before, s, StepFails(0));
    assert t.persists[0] == s.persists[0].(phase := Releasing(None));
    run, t := Snoc(New(mode), run, t, Release(0));
    assert t.locks == map[];
  }

  lemma SyncedOwns(s: Repo, a: nat, c: Call)
    requires Synced(s, a, c)
    ensures Owns(s, a, c) && Everything(s, a, c) == At(s.raised, a)
  {
    assert forall p :: !IsOpen(s, p, c);
    assert History(s, c) + [] + [] == History(s, c);
  }

  lemma WholeOrShort(h: seq<Event>, b: seq<Event>, n: seq<Event>, r: seq<Event>)
    ensures h + b + n == r ==> (h + n == r <==> b == [])
    ensures |h + b + n| < |r| ==> h + n != r
  {
    assert |h + b + n| == |h + n| + |b|;
    if b == [] { assert h + b == h; }
  }

  /** Loading brings an object into line with the store, whatever was lost before, if no persist is open. */
  lemma LoadSyncs(s: Repo, a: nat, c: Call, row: Option<nat>)
    requires Inv(s) && Enabled(s, Load(a, c, row)) && forall p :: !IsOpen(s, p, c)
    ensures Synced(Step(s, Load(a, c, row)), a, c) && Inv(Step(s, Load(a, c, row)))
  {
    InvStep(s, Load(a, c, row));
    var t := Step(s, Load(a, c, row));
    assert History(t, c) == History(s, c);
    forall p | p in t.persists && Pending(t.persists[p].phase)
      ensures t.persists[p].call.agg != a && !SameKey(t.persists[p].call, c)
    {
      assert !IsOpen(s, p, c);
    }
    match row
    case None => NothingStored(s.persists, s.acquired, s.stored, c);
    case Some(r) => assert Has(s.rows[r].content, History(s, c));
  }

  // ---------------------------------------------------------------- replay

  function Reduce<S>(reducers: map<string, (S, Event) -> S>, state: S, e: Event): S {
    if e.kind in reducers then reducers[e.kind](state, e) else state
  }

  function Replay<S>(reducers: map<string, (S, Event) -> S>, init: S, events: seq<Event>): S {
    if events == [] then init
    else Reduce(reducers, Replay(reducers, init, events[..|events| - 1]), events[|events| - 1])
  }

  lemma ReplayNext<S>(reducers: map<string, (S, Event) -> S>, init: S, events: seq<Event>, i: nat)
    requires i < |events|
    ensures Replay(reducers, init, events[..i + 1]) == Reduce(reducers, Replay(reducers, init, events[..i]), events[i])
  {
    assert events[..i + 1][..i] == events[..i];
  }

  /** The event's reducer has made `after` of `before`; an event without one changes nothing. */
  ghost predicate Reduces<S>(reducers: map<string, (S, Event) -> S>, e: Event, before: S, after: S) {
    && (e.kind in reducers ==> after == reducers[e.kind](before, e))
    && (e.kind !in reducers ==> after == before)
  }

  /** One state for each event and one more, each made of the one before by that event's reducer. */
  ghost predicate States<S>(reducers: map<string, (S, Event) -> S>, events: seq<Event>, states: seq<S>) {
    |states| == |events| + 1 && forall i :: 0 <= i < |events| ==> Reduces(reducers, events[i], states[i], states[i + 1])
  }

  /** The events' reducers lead from `init` to `end`, in order. */
  ghost predicate LeadsTo<S(!new)>(reducers: map<string, (S, Event) -> S>, init: S, events: seq<Event>, end: S) {
    exists states :: States(reducers, events, states) && states[0] == init && states[|events|] == end
  }

  lemma {:induction false} ReplayStates<S>(reducers: map<string, (S, Event) -> S>, init: S, events: seq<Event>)
    returns (states: seq<S>)
    ensures States(reducers, events, states) && states[0] == init && states[|events|] == Replay(reducers, init, events)
  {
    if events == [] {
      states := [init];
    } else {
      var m := |events| - 1;
      var front := ReplayStates(reducers, init, events[..m]);
      states := front + [Replay(reducers, init, events)];
      forall i | 0 <= i < |events| ensures Reduces(reducers, events[i], states[i], states[i + 1]) {
        if i < m { assert Reduces(reducers, events[..m][i], front[i], front[i + 1]); }
      }
    }
  }

  lemma {:induction false} StatesAgree<S>(reducers: map<string, (S, Event) -> S>, events: seq<Event>,
                                          s: seq<S>, t: seq<S>, k: nat)
    requires States(reducers, events, s) && States(reducers, events, t) && s[0] == t[0] && k <= |events|
    ensures s[k] == t[k]
  {
    if k > 0 {
      StatesAgree(reducers, events, s, t, k - 1);
      assert Reduces(reducers, events[k - 1], s[k - 1], s[k]) && Reduces(reducers, events[k - 1], t[k - 1], t[k]);
    }
  }

  /** The replay is where the reducers lead, and they lead nowhere else. */
  lemma ReplayExactlyWhen<S(!new)>(reducers: map<string, (S, Event) -> S>, init: S, events: seq<Event>, end: S)
    ensures LeadsTo(reducers, init, events, end) <==> end == Replay(reducers, init, events)
  {
    var states := ReplayStates(reducers, init, events);
    if LeadsTo(reducers, init, events, end) {
      var t :| States(reducers, events, t) && t[0] == init && t[|events|] == end;
      StatesAgree(reducers, events, states, t, |events|);
    }
  }

  function Sum(events: seq<Event>, kind: string, amount: Event -> int): int {
    if events == [] then 0
    else (if events[0].kind == kind then amount(events[0]) else 0) + Sum(events[1..], kind, amount)
  }

  /** A balance, say: where the reducer of one kind adds an amount and there is no other, the replay adds up the
      amounts of that kind's events. */
  lemma {:induction false} ReplayAddsUp(reducers: map<string, (int, Event) -> int>, kind: string,
                                        amount: Event -> int, init: int, events: seq<Event>)
    requires reducers.Keys == {kind} && forall s, e :: reducers[kind](s, e) == s + amount(e)
    ensures Replay(reducers, init, events) == init + Sum(events, kind, amount)
  {
    if events != [] {
      var m := |events| - 1;
      ReplayAddsUp(reducers, kind, amount, init, events[..m]);
      SumLast(events, kind, amount);
    }
  }

  lemma {:induction false} SumLast(events: seq<Event>, kind: string, amount: Event -> int)
    requires events != []
    ensures var m := |events| - 1;
            Sum(events, kind, amount) ==
            Sum(events[..m], kind, amount) + if events[m].kind == kind then amount(events[m]) else 0
  {
    if |events| > 1 {
      SumLast(events[1..], kind, amount);
      assert events[1..][..|events| - 2] == events[..|events| - 1][1..];
    }
  }

  /** Load, raise, persist, load: with nothing lost, nothing open and nothing new, the next object to load the key
      replays the reducers to the live state of the one that wrote it. */
  lemma LoadedIsLive<S(!new)>(s: Repo, run: seq<Label>, a: nat, c: Call, b: nat, row: Option<nat>,
                        reducers: map<string, (S, Event) -> S>, init: S)
    requires Inv(s) && Synced(s, a, c) && ValidRun(s, run) && SafeRun(s, run) && OnlyWriter(s, run, a, c)
    requires NeverLoses(s, run, a) && At(After(s, run).newEvents, a) == [] && forall p :: !IsOpen(After(s, run), p, c)
    requires Enabled(After(s, run), Load(b, c, row))
    ensures var t := After(s, run);
            Replay(reducers, init, At(Step(t, Load(b, c, row)).raised, b)) == Replay(reducers, init, At(t.raised, a))
    ensures var t := After(s, run);
            forall live :: LeadsTo(reducers, init, At(t.raised, a), live) <==>
                           LeadsTo(reducers, init, At(Step(t, Load(b, c, row)).raised, b), live)
  {
    var t := After(s, run);
    NothingLostExactlyWhen(s, run, a, c);
    EverythingRun(s, run, a, c);
    LoadSyncs(t, b, c, row);
    assert History(t, c) + [] == History(t, c) == History(Step(t, Load(b, c, row)), c);
  }
}
