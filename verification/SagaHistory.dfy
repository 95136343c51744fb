/**
 What is in a saga instance's record: no lost update, and what a failed task leaves behind.
 */
module SagaHistory {
  import opened Wrappers
  import opened SagaEngine
  import opened SagaCalls
  import C = SagaScheduler

  /** Every handler of the fold returned normally on the content it was given. */
  ghost predicate Returned(h: Handler, links: seq<C.Link<Task>>, ids: seq<nat>, c: Content) {
    ids == [] ||
    (var m := |ids| - 1;
     ids[m] < |links| && h(ids[m], Fold(h, links, ids[..m], c)).Returns? && Returned(h, links, ids[..m], c))
  }

  ghost predicate AllReturned(h: Handler, s: Engine, id: string)
    requires id in s.created
  {
    Returned(h, s.chains.links, AppliedIds(s, id, |s.chains.links|), s.created[id])
  }

  lemma {:induction false} ReturnedSame(h: Handler, a: seq<C.Link<Task>>, b: seq<C.Link<Task>>,
    ids: seq<nat>, c: Content)
    requires forall i :: 0 <= i < |ids| ==> ids[i] < |a| && ids[i] < |b| && a[ids[i]].task == b[ids[i]].task
    ensures Returned(h, a, ids, c) == Returned(h, b, ids, c)
  {
    if ids != [] {
      FoldSame(h, a, b, ids[..|ids| - 1], c);
      ReturnedSame(h, a, b, ids[..|ids| - 1], c);
    }
  }

  lemma AllReturnedSame(h: Handler, s: Engine, s': Engine, id: string)
    requires SameHistory(s, s', id)
    ensures AllReturned(h, s', id) == AllReturned(h, s, id)
  {
    var n := |s.chains.links|;
    AppliedSame(s, s', id, n);
    AppliedBeyond(s', id, n, |s'.chains.links|);
    ReturnedSame(h, s.chains.links, s'.chains.links, AppliedIds(s, id, n), s.created[id]);
  }

  ghost predicate RInv(h: Handler, s: Engine) {
    Inv(h, s) && forall id :: id in s.created ==> AllReturned(h, s, id)
  }

  ghost predicate IsSave(s: Engine, l: Label) {
    l.Tail? && l.p in s.bodies && s.bodies[l.p].Timers? && s.bodies[l.p].ops == []
  }

  lemma StepBodies(h: Handler, s: Engine, l: Label)
    requires Enabled(s, l) && !IsSave(s, l) && (l.Begin? ==> l.p !in s.bodies)
    ensures NoSave(s, Step(h, s, l))
  {}

  lemma StepLinks(h: Handler, s: Engine, l: Label)
    requires Enabled(s, l)
    ensures ChainsGrow(s.chains, Step(h, s, l).chains)
  {}

  lemma StepCreated(h: Handler, s: Engine, l: Label)
    requires Enabled(s, l)
    ensures Step(h, s, l).created ==
            if l.StartBegin? then s.created[l.id := StartContent(l.event, l.result)] else s.created
  {}

  /** Apart from a save and from the birth of an instance, a step leaves every history as it was. */
  lemma StepHistory(h: Handler, s: Engine, s': Engine, born: Option<string>)
    requires Shape(s) && ChainsGrow(s.chains, s'.chains) && NoSave(s, s')
    requires forall id :: id in s.created && born != Some(id) ==> id in s'.created && s'.created[id] == s.created[id]
    ensures forall id :: id in s.created && born != Some(id) ==> SameHistory(s, s', id)
  {
    forall id | id in s.created && born != Some(id) ensures SameHistory(s, s', id) { GrowsHistory(s, s', id); }
  }

  lemma SaveReturned(h: Handler, s: Engine, s': Engine, p: nat)
    requires C.Serial(s.chains) && EInv(h, s) && HasBody(s, p) && s.bodies[p].Timers? && KeyOf(s, p) in s.created
    requires AllReturned(h, s, KeyOf(s, p)) && h(p, Replay(h, s, KeyOf(s, p))).Returns?
    requires p in s'.bodies && s'.bodies[p].Saved()
    requires s' == s.(bodies := s.bodies[p := s'.bodies[p]], store := s'.store)
    ensures AllReturned(h, s', KeyOf(s, p))
  {
    var id := KeyOf(s, p);
    forall q: nat | q > p ensures !SavedTask(s, q, id) { NothingLaterSaved(h, s, p, q); }
    AppliedGrows(s, s', id, p);
    var ids := AppliedIds(s, id, |s.chains.links|);
    assert (ids + [p])[..|ids|] == ids;
  }

  lemma SaveHistory(h: Handler, s: Engine, s': Engine, p: nat)
    requires RInv(h, s) && HasBody(s, p) && s.bodies[p].Timers?
    requires p in s'.bodies && s'.bodies[p].Saved()
    requires s' == s.(bodies := s.bodies[p := s'.bodies[p]], store := s'.store)
    ensures forall id :: id in s'.created ==> AllReturned(h, s', id)
  {
    assert BodyOk(h, s, p);
    SaveReturned(h, s, s', p);
    forall j | j in s'.created ensures AllReturned(h, s', j) {
      if j != KeyOf(s, p) { SaveOther(h, s, s', p, j); }
    }
  }

  lemma SaveOther(h: Handler, s: Engine, s': Engine, p: nat, j: string)
    requires Shape(s) && HasBody(s, p) && p in s'.bodies && j in s.created && j != KeyOf(s, p) && AllReturned(h, s, j)
    requires s' == s.(bodies := s.bodies[p := s'.bodies[p]], store := s'.store)
    ensures AllReturned(h, s', j)
  {
    assert SameHistory(s, s', j);
    AllReturnedSame(h, s, s', j);
  }

  lemma RInvStep(h: Handler, s: Engine, l: Label)
    requires RInv(h, s) && Enabled(s, l)
    ensures RInv(h, Step(h, s, l))
  {
    InvStep(h, s, l);
    if IsSave(s, l) { SaveStep(h, s, l); } else { QuietStep(h, s, l, Step(h, s, l)); }
  }

  lemma SaveStep(h: Handler, s: Engine, l: Label)
    requires RInv(h, s) && Enabled(s, l) && IsSave(s, l)
    ensures var s' := Step(h, s, l); forall id :: id in s'.created ==> AllReturned(h, s', id)
  {
    var t := TailStep(s.bodies[l.p], KeyOf(s, l.p), s.store, s.schedules, l.choice);
    var s' := s.(bodies := s.bodies[l.p := t.phase], store := t.store);
    assert t.schedules == s.schedules;
    SaveHistory(h, s, s', l.p);
  }

  lemma QuietStep(h: Handler, s: Engine, l: Label, s': Engine)
    requires RInv(h, s) && Enabled(s, l) && !IsSave(s, l) && s' == Step(h, s, l) && Inv(h, s')
    ensures forall id :: id in s'.created ==> AllReturned(h, s', id)
  {
    if l.Begin? { BeginIsNew(s, l.p); }
    var born := if l.StartBegin? then Some(l.id) else None;
    QuietHistory(h, s, l, s', born);
    if l.StartBegin? { BornState(h, s, l); }
    QuietReturned(h, s, s', born);
  }

  lemma QuietHistory(h: Handler, s: Engine, l: Label, s': Engine, born: Option<string>)
    requires Shape(s) && Enabled(s, l) && !IsSave(s, l) && s' == Step(h, s, l) && (l.Begin? ==> l.p !in s.bodies)
    requires born == if l.StartBegin? then Some(l.id) else None
    ensures s'.created.Keys == s.created.Keys + (if born.Some? then {born.value} else {})
    ensures forall id :: id in s.created && born != Some(id) ==> SameHistory(s, s', id)
  {
    StepBodies(h, s, l);
    StepLinks(h, s, l);
    StepCreated(h, s, l);
    StepHistory(h, s, s', born);
  }

  lemma BornState(h: Handler, s: Engine, l: Label)
    requires Enabled(s, l) && l.StartBegin?
    ensures var s' := Step(h, s, l); l.id in s'.starts && s'.starts[l.id].Timers?
  {
  }

  lemma QuietReturned(h: Handler, s: Engine, s': Engine, born: Option<string>)
    requires RInv(h, s) && s'.created.Keys == s.created.Keys + (if born.Some? then {born.value} else {})
    requires forall id :: id in s.created && born != Some(id) ==> SameHistory(s, s', id)
    requires born.Some? ==> Inv(h, s') && born.value in s'.starts && s'.starts[born.value].Timers?
    ensures forall id :: id in s'.created ==> AllReturned(h, s', id)
  {
    forall id | id in s'.created ensures AllReturned(h, s', id) {
      if born == Some(id) {
        forall p: nat | p in s'.bodies ensures !SavedTask(s', p, id) { assert BodyOk(h, s', p); }
        AppliedBeyond(s', id, 0, |s'.chains.links|);
      } else {
        AllReturnedSame(h, s, s', id);
      }
    }
  }

  lemma {:induction false} RunKeepsRInv(h: Handler, s: Engine, run: seq<Label>)
    requires RInv(h, s) && ValidRun(h, s, run)
    ensures RInv(h, After(h, s, run))
    decreases |run|
  {
    if run != [] {
      RInvStep(h, s, run[0]);
      RunKeepsRInv(h, Step(h, s, run[0]), run[1..]);
    }
  }

  // ---------------------------------------------------------------- the theorems

  /** The events of the event tasks among ids, in order. */
  ghost function EventsOf(links: seq<C.Link<Task>>, ids: seq<nat>): seq<Event> {
    if ids == [] then []
    else
      var p := ids[|ids| - 1];
      EventsOf(links, ids[..|ids| - 1]) +
      (if p < |links| && links[p].task.EventTask? then [links[p].task.event] else [])
  }

  lemma {:induction false} FoldEvents(h: Handler, links: seq<C.Link<Task>>, ids: seq<nat>, c: Content)
    requires Returned(h, links, ids, c)
    ensures Fold(h, links, ids, c).events == c.events + EventsOf(links, ids)
  {
    if ids != [] {
      var m := |ids| - 1;
      FoldEvents(h, links, ids[..m], c);
    }
  }

  /** The task's body is over: its own promise has settled. */
  ghost predicate Finished(s: Engine, p: nat, id: string) {
    p < |s.chains.links| && s.chains.links[p].key == id && s.chains.links[p].status.Over()
  }

  lemma RejectedLeavesNoTrace(h: Handler, s: Engine, p: nat, id: string)
    requires Inv(h, s) && Finished(s, p, id) && s.chains.links[p].status.outcome.Rejected?
    ensures !SavedTask(s, p, id)
  {
    if p in s.bodies { assert BodyOk(h, s, p); }
  }

  lemma ResolvedWasApplied(h: Handler, s: Engine, p: nat, id: string)
    requires Inv(h, s) && Finished(s, p, id) && s.chains.links[p].status.outcome.Resolved?
    ensures p in s.bodies && (SavedTask(s, p, id) <==> s.bodies[p].Applied?)
    ensures s.chains.links[p].task.EventTask? ==> s.bodies[p].Applied?
  {
    ResolvedRan(s.chains, p);
    assert BodyOk(h, s, p);
  }

  /** Step i of the run is the one that started the instance with these contents. */
  ghost predicate StartedAt(run: seq<Label>, i: nat, id: string, c: Content) {
    i < |run| && run[i].StartBegin? && run[i].id == id && run[i].result.Returns?
    && c == StartContent(run[i].event, run[i].result)
  }

  lemma {:induction false} CreatedByStart(h: Handler, s: Engine, run: seq<Label>, id: string) returns (at: Option<nat>)
    requires ValidRun(h, s, run) && id in After(h, s, run).created
    ensures var c := After(h, s, run).created[id];
            if at.None? then id in s.created && c == s.created[id] else StartedAt(run, at.value, id, c)
    decreases |run|
  {
    at := None;
    if run != [] {
      var t := Step(h, s, run[0]);
      at := CreatedByStart(h, t, run[1..], id);
      if at.Some? {
        assert run[1..][at.value] == run[at.value + 1];
        at := Some(at.value + 1);
      } else {
        CreatedHere(h, s, run[0], id);
        if run[0].StartBegin? && run[0].id == id { at := Some(0); }
      }
    }
  }

  lemma CreatedHere(h: Handler, s: Engine, l: Label, id: string)
    requires Enabled(s, l) && id in Step(h, s, l).created
    ensures if l.StartBegin? && l.id == id then StartedAt([l], 0, id, Step(h, s, l).created[id])
            else id in s.created && Step(h, s, l).created[id] == s.created[id]
  {
    StepCreated(h, s, l);
  }

  /** Task p's handler, given `before`, returned what makes `after` of it. */
  ghost predicate Made(h: Handler, links: seq<C.Link<Task>>, p: nat, before: Content, after: Content) {
    p < |links| && h(p, before).Returns? && Leaves(links[p].task, h(p, before), before, after)
  }

  /** One content after the other: each is what the next task of ids left of the one before. */
  ghost predicate Trail(h: Handler, links: seq<C.Link<Task>>, ids: seq<nat>, contents: seq<Content>) {
    && |contents| == |ids| + 1
    && forall k :: 0 <= k < |ids| ==> Made(h, links, ids[k], contents[k], contents[k + 1])
  }

  lemma {:induction false} FoldTrail(h: Handler, links: seq<C.Link<Task>>, ids: seq<nat>, c: Content)
    returns (contents: seq<Content>)
    requires Returned(h, links, ids, c)
    ensures Trail(h, links, ids, contents) && contents[0] == c && contents[|ids|] == Fold(h, links, ids, c)
  {
    if ids == [] {
      contents := [c];
    } else {
      var m := |ids| - 1;
      var front := FoldTrail(h, links, ids[..m], c);
      var r := h(ids[m], front[m]);
      HandlerLeaves(links[ids[m]].task, front[m], r);
      contents := front + [AfterHandler(links[ids[m]].task, front[m], r)];
      assert Made(h, links, ids[m], front[m], contents[m + 1]);
      forall k | 0 <= k < |ids| ensures Made(h, links, ids[k], contents[k], contents[k + 1]) {
        if k < m { assert Made(h, links, ids[..m][k], front[k], front[k + 1]); }
      }
    }
  }

  /** The contents that the instance has had: the first is its start step's, the last is the one stored. */
  ghost predicate Grew(h: Handler, run: seq<Label>, s: Engine, id: string, contents: seq<Content>)
    requires id in s.store
  {
    var ids := AppliedIds(s, id, |s.chains.links|);
    && Trail(h, s.chains.links, ids, contents) && contents[|ids|] == s.store[id]
    && exists i: nat :: StartedWith(run, i, id, contents[0])
  }

  ghost predicate StartedWith(run: seq<Label>, i: nat, id: string, first: Content) {
    i < |run| && run[i].StartBegin? && run[i].id == id && run[i].result.Returns?
    && Starts(run[i].event, run[i].result, first)
  }

  /** No lost update.  Whatever the interleaving, the stored content of an instance has grown from what its start
      step made through the tasks that have written it, in enqueue order: each handler was given what the one
      before it had left, and all it returned went into the record.  The events are the one start event and
      the events of those tasks in that order.  The tasks that have written it are, among the finished ones,
      exactly those that succeeded and found the record: one that threw, or was skipped, left no trace. */
  lemma NoLostUpdate(h: Handler, run: seq<Label>, id: string)
    requires ValidRun(h, Init, run) && id in After(h, Init, run).store
    ensures var s := After(h, Init, run);
            && id in s.created
            && var ids := AppliedIds(s, id, |s.chains.links|);
            && s.store[id] == Fold(h, s.chains.links, ids, s.created[id])
            && (exists contents :: Grew(h, run, s, id, contents))
            && (exists i: nat :: StartedAt(run, i, id, s.created[id])
                                 && s.store[id].events == [run[i].event] + EventsOf(s.chains.links, ids))
            && (forall i, j :: 0 <= i < j < |ids| ==> ids[i] < ids[j])
            && (forall p: nat :: Finished(s, p, id) && s.chains.links[p].status.outcome.Rejected? ==> p !in ids)
            && (forall p: nat :: Finished(s, p, id) && s.chains.links[p].status.outcome.Resolved? ==>
                  p in s.bodies && (p in ids <==> s.bodies[p].Applied?)
                  && (s.chains.links[p].task.EventTask? ==> p in ids))
  {
    RunKeepsRInv(h, Init, run);
    var at := CreatedByStart(h, Init, run, id);
    var s := After(h, Init, run);
    RecordIsFold(h, s, id);
    AppliedAreFinished(h, s, id);
    assert StartedAt(run, at.value, id, s.created[id]);
    var contents := RecordGrew(h, run, s, id, at.value);
  }

  lemma RecordGrew(h: Handler, run: seq<Label>, s: Engine, id: string, at: nat) returns (contents: seq<Content>)
    requires RInv(h, s) && id in s.store && id in s.created && StartedAt(run, at, id, s.created[id])
    ensures Grew(h, run, s, id, contents)
  {
    assert AllReturned(h, s, id);
    RecordIsFold(h, s, id);
    contents := FoldTrail(h, s.chains.links, AppliedIds(s, id, |s.chains.links|), s.created[id]);
    StartStarts(run[at].event, run[at].result);
    assert StartedWith(run, at, id, contents[0]);
  }

  ghost predicate Answers(h: Handler, p: nat, c: Content, r: Result) { h(p, c) == r && r.Returns? }

  /** The data stored is what the handler of the last task that has written the record returned, given the content
      before it, or what the start handler returned if no task has. */
  lemma LastWriterWins(h: Handler, run: seq<Label>, id: string)
    requires ValidRun(h, Init, run) && id in After(h, Init, run).store
    ensures var s := After(h, Init, run);
            var ids := AppliedIds(s, id, |s.chains.links|);
            if ids == [] then
              exists i: nat :: i < |run| && run[i].StartBegin? && run[i].id == id && run[i].result.Returns?
                               && s.store[id].data == run[i].result.data
            else
              var last := ids[|ids| - 1];
              exists c, r :: Answers(h, last, c, r) && s.store[id].data == r.data
  {
    NoLostUpdate(h, run, id);
    var s := After(h, Init, run);
    var contents :| Grew(h, run, s, id, contents);
    var ids := AppliedIds(s, id, |s.chains.links|);
    if ids == [] {
      var i: nat :| StartedWith(run, i, id, contents[0]);
    } else {
      var k := |ids| - 1;
      assert Made(h, s.chains.links, ids[k], contents[k], contents[k + 1]);
      assert Answers(h, ids[k], contents[k], h(ids[k], contents[k]));
    }
  }

  /** A handler is given the record as it is stored at that moment: nothing has been written since the task read it. */
  lemma HandlerSeesRecord(h: Handler, run: seq<Label>, p: nat)
    requires ValidRun(h, Init, run) && Enabled(After(h, Init, run), Handle(p))
    ensures var s := After(h, Init, run);
            KeyOf(s, p) in s.store ==> s.bodies[p].copy == s.store[KeyOf(s, p)]
  {
    RunKeepsRInv(h, Init, run);
    var s := After(h, Init, run);
    assert BodyOk(h, s, p);
    assert IdOk(h, s, KeyOf(s, p));
  }

  lemma RecordIsFold(h: Handler, s: Engine, id: string)
    requires RInv(h, s) && id in s.store
    ensures id in s.created
    ensures var ids := AppliedIds(s, id, |s.chains.links|);
            && s.store[id] == Fold(h, s.chains.links, ids, s.created[id])
            && s.store[id].events == s.created[id].events + EventsOf(s.chains.links, ids)
            && (forall i, j :: 0 <= i < j < |ids| ==> ids[i] < ids[j])
  {
    assert IdOk(h, s, id) && AllReturned(h, s, id);
    FoldEvents(h, s.chains.links, AppliedIds(s, id, |s.chains.links|), s.created[id]);
  }

  lemma AppliedAreFinished(h: Handler, s: Engine, id: string)
    requires RInv(h, s)
    ensures var ids := AppliedIds(s, id, |s.chains.links|);
            && (forall p: nat :: Finished(s, p, id) && s.chains.links[p].status.outcome.Rejected? ==> p !in ids)
            && (forall p: nat :: Finished(s, p, id) && s.chains.links[p].status.outcome.Resolved? ==>
                  p in s.bodies && (p in ids <==> s.bodies[p].Applied?)
                  && (s.chains.links[p].task.EventTask? ==> p in ids))
  {
    var ids := AppliedIds(s, id, |s.chains.links|);
    forall p: nat | Finished(s, p, id) && s.chains.links[p].status.outcome.Rejected? ensures p !in ids {
      RejectedLeavesNoTrace(h, s, p, id);
    }
    forall p: nat | Finished(s, p, id) && s.chains.links[p].status.outcome.Resolved?
      ensures p in s.bodies && (p in ids <==> s.bodies[p].Applied?) && (s.chains.links[p].task.EventTask? ==> p in ids)
    {
      ResolvedWasApplied(h, s, p, id);
    }
  }

  lemma {:induction false} ResolvedRan(c: C.Chains<Task>, p: nat)
    requires C.Inv(c) && p < |c.links| && c.links[p].status.Over() && c.links[p].status.outcome.Resolved?
    ensures c.links[p].ran
  {
    assert C.PrevOk(c, p) && C.RanOk(c, p);
  }
}
