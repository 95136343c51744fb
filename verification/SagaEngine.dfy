/**
 The saga engine as a protocol: the scheduler's chains, the bodies of the tasks they run, the start steps,
 the saga-instance table and the schedules the job runner holds.

 Every `await` of `sagaHandleEvent`, `handleTimerEvent` and `startSagaInstance` ends a step, so between any
 two steps of one task steps of others may come.  The instance table is keyed by instance id (one record is
 ever created for an id) and start steps are NOT queued in the scheduler, just as in the program.
 */
module SagaEngine {
  import opened Wrappers
  import C = SagaScheduler

  datatype Event = Event(id: string, kind: string, payload: string)
  datatype Kind = Timeout | Cron

  /** The reserved part of an instance's data, and the rest, which is all that handlers may set. */
  datatype Content = Content(
    data: map<string, string>, events: seq<Event>, activeTimers: map<string, Kind>, ended: bool, preserve: bool)

  datatype Task = EventTask(event: Event) | TimerTask(name: string)
  datatype TimerAdd = TimerAdd(name: string, kind: Kind)

  /** What a user handler does to its `SagaInstance`: new data, `upsertTimer` and `removeTimer` calls in
      order, and `endSaga(preserve)` if it was called. */
  datatype Result =
    | Throws(error: string)
    | Returns(data: map<string, string>, adds: seq<TimerAdd>, removes: seq<string>, end: Option<bool>)

  /** The handler as seen by the p-th task; the index lets two calls with equal arguments differ. */
  type Handler = (nat, Content) -> Result

  /** A call on the job runner. */
  datatype Op = Arm(name: string) | Disarm(name: string)

  datatype Schedule = Schedule(instanceId: string, name: string)

  datatype Phase =
    | Reading
    | Handling(copy: Content)
    | Timers(next: Content, ops: seq<Op>)
    | EndFinding(next: Content)
    | EndTimers(next: Content, pending: set<string>)
    | Applied
    | Absent
    | Threw(error: string)
  {
    predicate Done() { Applied? || Absent? || Threw? }
    /** `saveEntity` has happened. */
    predicate Saved() { EndFinding? || EndTimers? || Applied? }
  }

  /** created: what each start step writes (or is about to write) as the first content of its instance. */
  datatype Engine = Engine(
    chains: C.Chains<Task>,
    bodies: map<nat, Phase>,
    starts: map<string, Phase>,
    created: map<string, Content>,
    store: map<string, Content>,
    schedules: set<Schedule>)

  datatype Label =
    | Arrive(id: string, task: Task)
    | Begin(p: nat)
    | SkipTask(p: nat)
    | Read(p: nat)
    | Handle(p: nat)
    | Tail(p: nat, choice: string)
    | FinishTask(p: nat)
    | CleanupTask(p: nat)
    | SettleTask(p: nat)
    | StartBegin(id: string, event: Event, result: Result)
    | StartTail(id: string, choice: string)
    | Expire(schedule: Schedule)

  // ---------------------------------------------------------------- the effect of a handler

  function AddTimers(active: map<string, Kind>, adds: seq<TimerAdd>): (r: map<string, Kind>)
    ensures r.Keys == active.Keys + set a | a in adds :: a.name
    ensures forall n :: n in active ==> r[n] == active[n]
  {
    if adds == [] then active
    else
      var m := |adds| - 1;
      var before := AddTimers(active, adds[..m]);
      assert adds == adds[..m] + [adds[m]];
      if adds[m].name in before then before else before[adds[m].name := adds[m].kind]
  }

  function RemoveTimers(active: map<string, Kind>, removes: seq<string>): (r: map<string, Kind>)
    ensures r.Keys == active.Keys - set n | n in removes
    ensures forall n :: n in r ==> r[n] == active[n]
  {
    map n | n in active && n !in removes :: active[n]
  }

  /** A one-shot timer that has just fired is no longer active. */
  function Fired(active: map<string, Kind>, task: Task): map<string, Kind> {
    if task.TimerTask? && task.name in active && active[task.name].Timeout? then active - {task.name} else active
  }

  function FiredOps(active: map<string, Kind>, task: Task): seq<Op> {
    if task.TimerTask? && task.name in active && active[task.name].Timeout? then [Disarm(task.name)] else []
  }

  function ArmOps(adds: seq<TimerAdd>): seq<Op> { seq(|adds|, i requires 0 <= i < |adds| => Arm(adds[i].name)) }

  function DisarmOps(names: seq<string>): seq<Op> { seq(|names|, i requires 0 <= i < |names| => Disarm(names[i])) }

  /** Adds before removes, whatever order the handler made the calls in. */
  function TimerOps(adds: seq<TimerAdd>, removes: seq<string>): seq<Op> { ArmOps(adds) + DisarmOps(removes) }

  function Effect(c: Content, r: Result): Content
    requires r.Returns?
  {
    Content(r.data, c.events, RemoveTimers(AddTimers(c.activeTimers, r.adds), r.removes),
            c.ended || r.end.Some?, if r.end.Some? then r.end.value else c.preserve)
  }

  function AfterHandler(task: Task, c: Content, r: Result): Content
    requires r.Returns?
  {
    var c1 := Effect(c.(activeTimers := Fired(c.activeTimers, task)), r);
    if task.EventTask? then c1.(events := c1.events + [task.event]) else c1
  }

  function HandlerOps(task: Task, c: Content, r: Result): seq<Op>
    requires r.Returns?
  {
    FiredOps(c.activeTimers, task) + TimerOps(r.adds, r.removes)
  }

  function StartContent(event: Event, r: Result): Content
    requires r.Returns?
  {
    Effect(Content(map[], [event], map[], false, false), r)
  }

  function ApplyOp(schedules: set<Schedule>, id: string, op: Op): set<Schedule> {
    match op
    case Arm(n) => schedules + {Schedule(id, n)}
    case Disarm(n) => schedules - {Schedule(id, n)}
  }

  // ---------------------------------------------------------------- steps

  predicate TailEnabled(ph: Phase, choice: string) {
    match ph
    case Timers(_, _) => true
    case EndFinding(_) => true
    case EndTimers(_, pending) => pending == {} || choice in pending
    case _ => false
  }

  datatype Shared = Shared(phase: Phase, store: map<string, Content>, schedules: set<Schedule>)

  /** From the timer calls to the end of `handleSagaInstanceEnd`; task bodies and start steps share it. */
  function TailStep(ph: Phase, id: string, store: map<string, Content>, schedules: set<Schedule>,
    choice: string): Shared
    requires TailEnabled(ph, choice)
  {
    match ph
    case Timers(next, ops) =>
      if ops != [] then Shared(Timers(next, ops[1..]), store, ApplyOp(schedules, id, ops[0]))
      else Shared(if next.ended then EndFinding(next) else Applied, store[id := next], schedules)
    case EndFinding(next) =>
      Shared(EndTimers(next, if id in store then next.activeTimers.Keys else {}), store, schedules)
    case EndTimers(next, pending) =>
      if pending != {} then Shared(EndTimers(next, pending - {choice}), store, ApplyOp(schedules, id, Disarm(choice)))
      else Shared(Applied, if next.preserve then store else store - {id}, schedules)
  }

  function BodyOutcome(task: Task, ph: Phase): C.Outcome
    requires ph.Done()
  {
    match ph
    case Applied => C.Resolved
    case Absent => if task.TimerTask? then C.Resolved else C.Rejected("TypeError")
    case Threw(e) => C.Rejected(e)
  }

  function KeyOf(s: Engine, p: nat): string
    requires p < |s.chains.links|
  {
    s.chains.links[p].key
  }

  /** p is a task whose body is in progress or over. */
  predicate HasBody(s: Engine, p: nat) { p < |s.chains.links| && p in s.bodies }

  predicate Enabled(s: Engine, l: Label) {
    match l
    case Arrive(id, _) => id in s.starts
    case Begin(p) => C.Enabled(s.chains, C.Start(p))
    case SkipTask(p) => C.Enabled(s.chains, C.Skip(p))
    case Read(p) => HasBody(s, p) && s.bodies[p].Reading?
    case Handle(p) => HasBody(s, p) && s.bodies[p].Handling?
    case Tail(p, choice) => HasBody(s, p) && TailEnabled(s.bodies[p], choice)
    case FinishTask(p) => HasBody(s, p) && s.bodies[p].Done() && s.chains.links[p].status.Running?
    case CleanupTask(p) => C.Enabled(s.chains, C.Cleanup(p))
    case SettleTask(p) => C.Enabled(s.chains, C.Settle(p))
    case StartBegin(id, _, r) => id !in s.starts && r.Returns?
    case StartTail(id, choice) => id in s.starts && TailEnabled(s.starts[id], choice)
    case Expire(_) => true
  }

  function Handled(h: Handler, p: nat, task: Task, copy: Content): Phase {
    var r := h(p, copy);
    match r
    case Throws(e) => Threw(e)
    case Returns(_, _, _, _) => Timers(AfterHandler(task, copy, r), HandlerOps(task, copy, r))
  }

  function Step(h: Handler, s: Engine, l: Label): Engine
    requires Enabled(s, l)
  {
    match l
    case Arrive(id, task) => s.(chains := C.Step(s.chains, C.Enqueue(id, task)))
    case Begin(p) => s.(chains := C.Step(s.chains, C.Start(p)), bodies := s.bodies[p := Reading])
    case SkipTask(p) => s.(chains := C.Step(s.chains, C.Skip(p)))
    case Read(p) =>
      var id := KeyOf(s, p);
      s.(bodies := s.bodies[p := if id in s.store then Handling(s.store[id]) else Absent])
    case Handle(p) => s.(bodies := s.bodies[p := Handled(h, p, s.chains.links[p].task, s.bodies[p].copy)])
    case Tail(p, choice) =>
      var t := TailStep(s.bodies[p], KeyOf(s, p), s.store, s.schedules, choice);
      s.(bodies := s.bodies[p := t.phase], store := t.store, schedules := t.schedules)
    case FinishTask(p) =>
      s.(chains := C.Step(s.chains, C.Complete(p, BodyOutcome(s.chains.links[p].task, s.bodies[p]))))
    case CleanupTask(p) => s.(chains := C.Step(s.chains, C.Cleanup(p)))
    case SettleTask(p) => s.(chains := C.Step(s.chains, C.Settle(p)))
    case StartBegin(id, event, r) =>
      var c := StartContent(event, r);
      s.(starts := s.starts[id := Timers(c, TimerOps(r.adds, r.removes))], created := s.created[id := c])
    case StartTail(id, choice) =>
      var t := TailStep(s.starts[id], id, s.store, s.schedules, choice);
      s.(starts := s.starts[id := t.phase], store := t.store, schedules := t.schedules)
    case Expire(x) => s.(schedules := s.schedules - {x})
  }

  const Init: Engine := Engine(C.Empty(), map[], map[], map[], map[], {})

  ghost predicate ValidRun(h: Handler, s: Engine, run: seq<Label>)
    decreases |run|
  {
    run == [] || (Enabled(s, run[0]) && ValidRun(h, Step(h, s, run[0]), run[1..]))
  }

  ghost function After(h: Handler, s: Engine, run: seq<Label>): Engine
    requires ValidRun(h, s, run)
    decreases |run|
  {
    if run == [] then s else After(h, Step(h, s, run[0]), run[1..])
  }

  // ---------------------------------------------------------------- the history of an instance

  ghost predicate SavedTask(s: Engine, p: nat, id: string) {
    p < |s.chains.links| && s.chains.links[p].key == id && p in s.bodies && s.bodies[p].Saved()
  }

  /** The tasks among the first n that have written the record of id, in enqueue order. */
  ghost function AppliedIds(s: Engine, id: string, n: nat): (r: seq<nat>)
    ensures forall i :: 0 <= i < |r| ==> r[i] < n && SavedTask(s, r[i], id)
    ensures forall p: nat :: p < n && SavedTask(s, p, id) ==> p in r
    ensures forall i, j :: 0 <= i < j < |r| ==> r[i] < r[j]
  {
    if n == 0 then [] else AppliedIds(s, id, n - 1) + (if SavedTask(s, n - 1, id) then [n - 1] else [])
  }

  ghost function AfterTask(h: Handler, links: seq<C.Link<Task>>, p: nat, c: Content): Content {
    if p < |links| && h(p, c).Returns? then AfterHandler(links[p].task, c, h(p, c)) else c
  }

  /** c folded through the tasks of ids, oldest first. */
  ghost function Fold(h: Handler, links: seq<C.Link<Task>>, ids: seq<nat>, c: Content): Content {
    if ids == [] then c else AfterTask(h, links, ids[|ids| - 1], Fold(h, links, ids[..|ids| - 1], c))
  }

  ghost function Replay(h: Handler, s: Engine, id: string): Content
    requires id in s.created
  {
    Fold(h, s.chains.links, AppliedIds(s, id, |s.chains.links|), s.created[id])
  }

  // ---------------------------------------------------------------- the invariant

  ghost predicate IdOk(h: Handler, s: Engine, id: string)
    requires id in s.created && id in s.starts
  {
    && (id in s.store ==> s.store[id] == Replay(h, s, id))
    && (s.starts[id].Timers? ==> id !in s.store && s.starts[id].next == s.created[id])
    && !s.starts[id].Reading? && !s.starts[id].Handling?
  }

  ghost predicate BodyOk(h: Handler, s: Engine, p: nat)
    requires HasBody(s, p)
  {
    var x := s.chains.links[p];
    && x.key in s.starts && x.key in s.created
    && (s.starts[x.key].Timers? ==> s.bodies[p].Reading? || s.bodies[p].Absent?)
    && (s.bodies[p].Handling? ==> s.bodies[p].copy == Replay(h, s, x.key))
    && (s.bodies[p].Timers? ==>
          var c := Replay(h, s, x.key);
          h(p, c).Returns? && s.bodies[p].next == AfterHandler(x.task, c, h(p, c)))
    && (x.status.Running?
          || (x.status.Over() && s.bodies[p].Done() && x.status.outcome == BodyOutcome(x.task, s.bodies[p])))
  }

  ghost predicate Shape(s: Engine) {
    && s.starts.Keys == s.created.Keys
    && s.store.Keys <= s.created.Keys
    && (forall p: nat :: p in s.bodies ==> p < |s.chains.links|)
    && (forall p: nat :: p < |s.chains.links| ==>
          s.chains.links[p].key in s.starts && (s.chains.links[p].ran <==> p in s.bodies))
  }

  ghost predicate EInv(h: Handler, s: Engine) {
    && Shape(s)
    && (forall id :: id in s.created ==> IdOk(h, s, id))
    && (forall p: nat :: p in s.bodies ==> BodyOk(h, s, p))
  }

  /** A link that may still start has no body yet. */
  lemma BeginIsNew(s: Engine, p: nat)
    requires C.Inv(s.chains) && Shape(s) && C.Enabled(s.chains, C.Start(p))
    ensures p !in s.bodies
  {
    assert C.RanOk(s.chains, p);
  }

  /** At most one body of an instance is in progress. */
  lemma OneBody(h: Handler, s: Engine, p: nat, q: nat)
    requires C.Serial(s.chains) && EInv(h, s) && p in s.bodies && q in s.bodies && KeyOf(s, p) == KeyOf(s, q)
    requires !s.bodies[p].Done() && !s.bodies[q].Done()
    ensures p == q
  {
    assert BodyOk(h, s, p) && BodyOk(h, s, q);
  }

  // ---------------------------------------------------------------- framing

  /** The later state keeps keys, tasks and first contents, and the same tasks of id have written. */
  ghost predicate SameHistory(s: Engine, s': Engine, id: string) {
    && id in s.created && id in s'.created && s'.created[id] == s.created[id]
    && |s.chains.links| <= |s'.chains.links|
    && (forall p :: 0 <= p < |s.chains.links| ==>
          s'.chains.links[p].key == s.chains.links[p].key && s'.chains.links[p].task == s.chains.links[p].task)
    && (forall p: nat :: SavedTask(s, p, id) <==> SavedTask(s', p, id))
  }

  lemma {:induction false} AppliedSame(s: Engine, s': Engine, id: string, n: nat)
    requires forall p: nat :: p < n ==> (SavedTask(s, p, id) <==> SavedTask(s', p, id))
    ensures AppliedIds(s, id, n) == AppliedIds(s', id, n)
  {
    if n > 0 { AppliedSame(s, s', id, n - 1); }
  }

  lemma {:induction false} AppliedBeyond(s: Engine, id: string, m: nat, n: nat)
    requires m <= n && forall p: nat :: m <= p < n ==> !SavedTask(s, p, id)
    ensures AppliedIds(s, id, n) == AppliedIds(s, id, m)
  {
    if m < n { AppliedBeyond(s, id, m, n - 1); }
  }

  lemma {:induction false} FoldSame(h: Handler, a: seq<C.Link<Task>>, b: seq<C.Link<Task>>, ids: seq<nat>, c: Content)
    requires forall i :: 0 <= i < |ids| ==> ids[i] < |a| && ids[i] < |b| && a[ids[i]].task == b[ids[i]].task
    ensures Fold(h, a, ids, c) == Fold(h, b, ids, c)
  {
    if ids != [] { FoldSame(h, a, b, ids[..|ids| - 1], c); }
  }

  lemma ReplaySame(h: Handler, s: Engine, s': Engine, id: string)
    requires SameHistory(s, s', id)
    ensures Replay(h, s', id) == Replay(h, s, id)
  {
    var n := |s.chains.links|;
    AppliedSame(s, s', id, n);
    AppliedBeyond(s', id, n, |s'.chains.links|);
    FoldSame(h, s.chains.links, s'.chains.links, AppliedIds(s, id, n), s.created[id]);
  }

  lemma AppliedGrows(s: Engine, s': Engine, id: string, p: nat)
    requires s'.chains == s.chains && !SavedTask(s, p, id) && SavedTask(s', p, id)
    requires forall q: nat :: q != p ==> (SavedTask(s, q, id) <==> SavedTask(s', q, id))
    requires forall q: nat :: q > p ==> !SavedTask(s, q, id)
    ensures AppliedIds(s', id, |s.chains.links|) == AppliedIds(s, id, |s.chains.links|) + [p]
  {
    var n := |s.chains.links|;
    AppliedSame(s, s', id, p);
    AppliedBeyond(s, id, p, n);
    AppliedBeyond(s', id, p + 1, n);
  }

  /** When the newest task of id to get that far saves, the history grows by that task. */
  lemma ReplayGrows(h: Handler, s: Engine, s': Engine, id: string, p: nat)
    requires id in s.created && s'.created == s.created && s'.chains == s.chains
    requires !SavedTask(s, p, id) && SavedTask(s', p, id)
    requires forall q: nat :: q != p ==> (SavedTask(s, q, id) <==> SavedTask(s', q, id))
    requires forall q: nat :: q > p ==> !SavedTask(s, q, id)
    ensures Replay(h, s', id) == AfterTask(h, s.chains.links, p, Replay(h, s, id))
  {
    AppliedGrows(s, s', id, p);
    var ids := AppliedIds(s, id, |s.chains.links|);
    assert (ids + [p])[..|ids|] == ids;
  }

  // ---------------------------------------------------------------- every step keeps the invariant

  lemma FrameId(h: Handler, s: Engine, s': Engine, id: string)
    requires id in s.created && id in s.starts && IdOk(h, s, id) && SameHistory(s, s', id)
    requires id in s'.starts && s'.starts[id] == s.starts[id]
    requires (id in s.store <==> id in s'.store) && (id in s.store ==> s'.store[id] == s.store[id])
    ensures IdOk(h, s', id)
  {
    ReplaySame(h, s, s', id);
  }

  /** The link may move on, but a finished one keeps its outcome. */
  ghost predicate SameOutcome(a: C.Status, b: C.Status) {
    a == b || (a.Over() && b.Over() && a.outcome == b.outcome)
  }

  lemma FrameBody(h: Handler, s: Engine, s': Engine, p: nat)
    requires HasBody(s, p) && BodyOk(h, s, p) && SameHistory(s, s', KeyOf(s, p))
    requires HasBody(s', p) && s'.bodies[p] == s.bodies[p]
    requires SameOutcome(s.chains.links[p].status, s'.chains.links[p].status)
    requires KeyOf(s, p) in s'.starts && (s'.starts[KeyOf(s, p)].Timers? ==> s.starts[KeyOf(s, p)].Timers?)
    ensures BodyOk(h, s', p)
  {
    ReplaySame(h, s, s', KeyOf(s, p));
  }

  /** What every chain step does to the links that were there before. */
  ghost predicate ChainsGrow(a: C.Chains<Task>, b: C.Chains<Task>) {
    && |a.links| <= |b.links|
    && (forall p :: 0 <= p < |a.links| ==> b.links[p].key == a.links[p].key && b.links[p].task == a.links[p].task)
  }

  lemma ArriveGrows(s: Engine, id: string, task: Task)
    requires Shape(s) && id in s.starts
    ensures var b := C.Step(s.chains, C.Enqueue(id, task));
            && ChainsGrow(s.chains, b) && Shape(s.(chains := b))
            && (forall p: nat :: p < |s.chains.links| ==> b.links[p] == s.chains.links[p])
  {}

  lemma MoveGrows(s: Engine, l: C.Label<Task>)
    requires Shape(s) && C.Inv(s.chains) && !l.Enqueue? && C.Enabled(s.chains, l)
    ensures var b := C.Step(s.chains, l);
            && ChainsGrow(s.chains, b) && |b.links| == |s.chains.links|
            && b.links[l.p] == C.Moved(s.chains, l)
            && (forall p: nat :: p < |s.chains.links| && p != l.p ==> b.links[p] == s.chains.links[p])
            && (s.chains.links[l.p].status.Waiting? ==> !s.chains.links[l.p].ran)
            && (!l.Start? ==> b.links[l.p].ran == s.chains.links[l.p].ran)
  {
    C.MoveShape(s.chains, l);
    assert C.RanOk(s.chains, l.p);
  }

  lemma GrowsHistory(s: Engine, s': Engine, id: string)
    requires Shape(s) && ChainsGrow(s.chains, s'.chains) && id in s.created && id in s'.created
             && s'.created[id] == s.created[id]
    requires forall p: nat :: p in s.bodies ==> p in s'.bodies
    requires forall p: nat :: p in s'.bodies ==>
               if p in s.bodies then s'.bodies[p].Saved() == s.bodies[p].Saved() else !s'.bodies[p].Saved()
    ensures SameHistory(s, s', id)
  {}

  /** No body crosses its save. */
  ghost predicate NoSave(s: Engine, s': Engine) {
    && (forall p: nat :: p in s.bodies ==> p in s'.bodies)
    && (forall p: nat :: p in s'.bodies ==>
          if p in s.bodies then s'.bodies[p].Saved() == s.bodies[p].Saved() else !s'.bodies[p].Saved())
  }

  lemma HistoriesKeep(s: Engine, s': Engine)
    requires Shape(s) && ChainsGrow(s.chains, s'.chains) && s'.created == s.created
    requires NoSave(s, s')
    ensures forall id :: id in s.created ==> SameHistory(s, s', id)
  {
    forall id | id in s.created ensures SameHistory(s, s', id) { GrowsHistory(s, s', id); }
  }

  /** Records and start steps stay, and every body but p. */
  ghost predicate Spares(s: Engine, s': Engine, p: nat) {
    && Shape(s) && Shape(s') && ChainsGrow(s.chains, s'.chains) && NoSave(s, s')
    && s'.created == s.created && s'.starts == s.starts && s'.store == s.store
    && (forall q: nat :: q in s'.bodies && q != p ==>
          q in s.bodies && s'.bodies[q] == s.bodies[q]
              && SameOutcome(s.chains.links[q].status, s'.chains.links[q].status))
  }

  /** Then all that is left to show is that p's body is in order. */
  lemma OthersKeep(h: Handler, s: Engine, s': Engine, p: nat)
    requires EInv(h, s) && Spares(s, s', p) && (p in s'.bodies ==> BodyOk(h, s', p))
    ensures EInv(h, s')
  {
    HistoriesKeep(s, s');
    forall id | id in s'.created ensures IdOk(h, s', id) { FrameId(h, s, s', id); }
    forall q: nat | q in s'.bodies ensures BodyOk(h, s', q) {
      if q != p {
        assert BodyOk(h, s, q);
        FrameBody(h, s, s', q);
      }
    }
  }

  /** The history of p's instance is the same on both sides. */
  lemma SparesReplay(h: Handler, s: Engine, s': Engine, p: nat)
    requires Spares(s, s', p) && HasBody(s, p) && KeyOf(s, p) in s.created
    ensures HasBody(s', p) && KeyOf(s', p) == KeyOf(s, p) && Replay(h, s', KeyOf(s, p)) == Replay(h, s, KeyOf(s, p))
  {
    GrowsHistory(s, s', KeyOf(s, p));
    ReplaySame(h, s, s', KeyOf(s, p));
  }

  /** Steps of the chains that change no phase: arriving, skipping, cleaning up and settling. */
  lemma ArriveKeeps(h: Handler, s: Engine, id: string, task: Task)
    requires EInv(h, s) && id in s.starts
    ensures EInv(h, s.(chains := C.Step(s.chains, C.Enqueue(id, task))))
  {
    var s' := s.(chains := C.Step(s.chains, C.Enqueue(id, task)));
    ArriveGrows(s, id, task);
    OthersKeep(h, s, s', |s'.chains.links|);
  }

  lemma QuietKeeps(h: Handler, s: Engine, l: C.Label<Task>)
    requires EInv(h, s) && C.Inv(s.chains) && C.Enabled(s.chains, l) && (l.Skip? || l.Cleanup? || l.Settle?)
    ensures EInv(h, s.(chains := C.Step(s.chains, l)))
  {
    QuietSpares(s, l);
    OthersKeep(h, s, s.(chains := C.Step(s.chains, l)), |s.chains.links|);
  }

  /** A link that skips has no body, and one past its run keeps its outcome. */
  lemma QuietSpares(s: Engine, l: C.Label<Task>)
    requires Shape(s) && C.Inv(s.chains) && C.Enabled(s.chains, l) && (l.Skip? || l.Cleanup? || l.Settle?)
    ensures Spares(s, s.(chains := C.Step(s.chains, l)), |s.chains.links|)
  {
    MoveGrows(s, l);
    QuietShape(s, s.(chains := C.Step(s.chains, l)), l.p);
  }

  lemma QuietShape(s: Engine, s': Engine, p: nat)
    requires Shape(s) && s' == s.(chains := s'.chains) && ChainsGrow(s.chains, s'.chains)
    requires p < |s.chains.links| == |s'.chains.links| && s'.chains.links[p].ran == s.chains.links[p].ran
    requires forall q: nat :: q < |s.chains.links| && q != p ==> s'.chains.links[q] == s.chains.links[q]
    ensures Shape(s')
  {}

  lemma BeginShape(s: Engine, s': Engine, p: nat)
    requires Shape(s) && p < |s.chains.links| == |s'.chains.links| && ChainsGrow(s.chains, s'.chains)
    requires s'.chains.links[p].ran
             && forall q: nat :: q < |s.chains.links| && q != p ==> s'.chains.links[q] == s.chains.links[q]
    requires s' == s.(chains := s'.chains, bodies := s.bodies[p := Reading])
    ensures Shape(s')
  {}

  lemma BeginKeeps(h: Handler, s: Engine, p: nat)
    requires EInv(h, s) && C.Inv(s.chains) && Enabled(s, Begin(p))
    ensures EInv(h, Step(h, s, Begin(p)))
  {
    MoveGrows(s, C.Start(p));
    BegunKeeps(h, s, Step(h, s, Begin(p)), p);
  }

  lemma BegunKeeps(h: Handler, s: Engine, s': Engine, p: nat)
    requires EInv(h, s) && p < |s.chains.links| == |s'.chains.links| && ChainsGrow(s.chains, s'.chains)
             && p !in s.bodies
    requires s'.chains.links[p].ran && s'.chains.links[p].status.Running?
    requires forall q: nat :: q < |s.chains.links| && q != p ==> s'.chains.links[q] == s.chains.links[q]
    requires s' == s.(chains := s'.chains, bodies := s.bodies[p := Reading])
    ensures EInv(h, s')
  {
    BeginSpares(h, s, s', p);
    OthersKeep(h, s, s', p);
  }

  lemma BeginSpares(h: Handler, s: Engine, s': Engine, p: nat)
    requires Shape(s) && p < |s.chains.links| == |s'.chains.links| && ChainsGrow(s.chains, s'.chains) && p !in s.bodies
    requires s'.chains.links[p].ran && s'.chains.links[p].status.Running?
    requires forall q: nat :: q < |s.chains.links| && q != p ==> s'.chains.links[q] == s.chains.links[q]
    requires s' == s.(chains := s'.chains, bodies := s.bodies[p := Reading])
    ensures Spares(s, s', p) && BodyOk(h, s', p)
  {
    BeginShape(s, s', p);
  }

  lemma FinishKeeps(h: Handler, s: Engine, p: nat)
    requires EInv(h, s) && C.Inv(s.chains) && Enabled(s, FinishTask(p))
    ensures EInv(h, Step(h, s, FinishTask(p)))
  {
    FinishSpares(h, s, p);
    OthersKeep(h, s, Step(h, s, FinishTask(p)), p);
  }

  lemma FinishSpares(h: Handler, s: Engine, p: nat)
    requires Shape(s) && C.Inv(s.chains) && Enabled(s, FinishTask(p)) && BodyOk(h, s, p)
    ensures Spares(s, Step(h, s, FinishTask(p)), p) && BodyOk(h, Step(h, s, FinishTask(p)), p)
  {
    var o := BodyOutcome(s.chains.links[p].task, s.bodies[p]);
    var s' := s.(chains := C.Step(s.chains, C.Complete(p, o)));
    MoveGrows(s, C.Complete(p, o));
    QuietShape(s, s', p);
    SparesReplay(h, s, s', p);
  }

  /** What body p may be in without having changed the history. */
  ghost predicate PhaseOk(h: Handler, s: Engine, p: nat, ph: Phase)
    requires HasBody(s, p)
  {
    var x := s.chains.links[p];
    && x.key in s.created && x.key in s.starts
    && (s.starts[x.key].Timers? ==> ph.Reading? || ph.Absent?)
    && (ph.Handling? ==> ph.copy == Replay(h, s, x.key))
    && (ph.Timers? ==>
          var c := Replay(h, s, x.key);
          h(p, c).Returns? && ph.next == AfterHandler(x.task, c, h(p, c)))
  }

  /** A step that only replaces the phase of one body, and not across the save. */
  lemma PhaseKeeps(h: Handler, s: Engine, s': Engine, p: nat, ph: Phase)
    requires EInv(h, s) && HasBody(s, p) && s' == s.(bodies := s.bodies[p := ph], schedules := s'.schedules)
    requires !s.bodies[p].Done() && ph.Saved() == s.bodies[p].Saved() && PhaseOk(h, s, p, ph)
    ensures EInv(h, s')
  {
    PhaseBody(h, s, s', p, ph);
    OthersKeep(h, s, s', p);
  }

  lemma PhaseBody(h: Handler, s: Engine, s': Engine, p: nat, ph: Phase)
    requires Shape(s) && HasBody(s, p) && BodyOk(h, s, p)
             && s' == s.(bodies := s.bodies[p := ph], schedules := s'.schedules)
    requires !s.bodies[p].Done() && ph.Saved() == s.bodies[p].Saved() && PhaseOk(h, s, p, ph)
    ensures Spares(s, s', p) && BodyOk(h, s', p)
  {
    SparesReplay(h, s, s', p);
  }

  lemma ReadKeeps(h: Handler, s: Engine, p: nat)
    requires EInv(h, s) && Enabled(s, Read(p))
    ensures EInv(h, Step(h, s, Read(p)))
  {
    var s' := Step(h, s, Read(p));
    assert BodyOk(h, s, p) && IdOk(h, s, KeyOf(s, p));
    PhaseKeeps(h, s, s', p, s'.bodies[p]);
  }

  lemma HandleKeeps(h: Handler, s: Engine, p: nat)
    requires EInv(h, s) && Enabled(s, Handle(p))
    ensures EInv(h, Step(h, s, Handle(p)))
  {
    var s' := Step(h, s, Handle(p));
    assert BodyOk(h, s, p);
    PhaseKeeps(h, s, s', p, s'.bodies[p]);
  }

  /** Only one task of an instance is past reading, so nothing later has saved. */
  lemma NothingLaterSaved(h: Handler, s: Engine, p: nat, q: nat)
    requires C.Serial(s.chains) && EInv(h, s) && HasBody(s, p) && !s.bodies[p].Done() && q > p
    ensures !SavedTask(s, q, KeyOf(s, p))
  {
    assert BodyOk(h, s, p);
  }

  /** The save of a task: the record it replaces is the one it read. */
  lemma SaveKeeps(h: Handler, s: Engine, s': Engine, p: nat, ph: Phase)
    requires C.Serial(s.chains) && EInv(h, s) && HasBody(s, p) && s.bodies[p].Timers? && (ph.EndFinding? || ph.Applied?)
    requires s' == s.(bodies := s.bodies[p := ph], store := s.store[KeyOf(s, p) := s.bodies[p].next])
    ensures EInv(h, s')
  {
    assert BodyOk(h, s, p);
    forall j | j in s'.created ensures IdOk(h, s', j) {
      if j == KeyOf(s, p) { SaveKeepsOwn(h, s, s', p, ph); } else { SaveKeepsOther(h, s, s', p, ph, j); }
    }
    forall q: nat | q in s'.bodies ensures BodyOk(h, s', q) { SaveKeepsBody(h, s, s', p, ph, q); }
  }

  lemma SaveKeepsOwn(h: Handler, s: Engine, s': Engine, p: nat, ph: Phase)
    requires C.Serial(s.chains) && EInv(h, s) && HasBody(s, p) && s.bodies[p].Timers? && (ph.EndFinding? || ph.Applied?)
    requires s' == s.(bodies := s.bodies[p := ph], store := s.store[KeyOf(s, p) := s.bodies[p].next])
    ensures IdOk(h, s', KeyOf(s, p))
  {
    var id := KeyOf(s, p);
    assert BodyOk(h, s, p) && IdOk(h, s, id);
    forall q: nat | q > p ensures !SavedTask(s, q, id) { NothingLaterSaved(h, s, p, q); }
    ReplayGrows(h, s, s', id, p);
  }

  lemma SaveKeepsOther(h: Handler, s: Engine, s': Engine, p: nat, ph: Phase, j: string)
    requires Shape(s) && HasBody(s, p) && j in s.created && j in s.starts && IdOk(h, s, j) && j != KeyOf(s, p)
    requires s' == s.(bodies := s.bodies[p := ph], store := s'.store) && KeyOf(s, p) in s'.store
    requires s'.store == s.store[KeyOf(s, p) := s'.store[KeyOf(s, p)]]
    ensures IdOk(h, s', j)
  {
    assert SameHistory(s, s', j);
    FrameId(h, s, s', j);
  }

  lemma SaveKeepsBody(h: Handler, s: Engine, s': Engine, p: nat, ph: Phase, q: nat)
    requires C.Serial(s.chains) && EInv(h, s) && HasBody(s, p) && s.bodies[p].Timers? && (ph.EndFinding? || ph.Applied?)
    requires s' == s.(bodies := s.bodies[p := ph], store := s.store[KeyOf(s, p) := s.bodies[p].next])
    requires q in s.bodies
    ensures BodyOk(h, s', q)
  {
    assert BodyOk(h, s, p) && BodyOk(h, s, q);
    if KeyOf(s, q) == KeyOf(s, p) && q != p && !s.bodies[q].Done() { OneBody(h, s, p, q); }
    SaveKeepsBodyOf(h, s, s', p, ph, q);
  }

  lemma SaveKeepsBodyOf(h: Handler, s: Engine, s': Engine, p: nat, ph: Phase, q: nat)
    requires HasBody(s, p) && HasBody(s, q) && BodyOk(h, s, p) && BodyOk(h, s, q)
    requires s.bodies[p].Timers? && (ph.EndFinding? || ph.Applied?)
    requires KeyOf(s, q) == KeyOf(s, p) && q != p ==> s.bodies[q].Done()
    requires s' == s.(bodies := s.bodies[p := ph], store := s'.store)
    ensures BodyOk(h, s', q)
  {
    if KeyOf(s, q) != KeyOf(s, p) {
      assert SameHistory(s, s', KeyOf(s, q));
      FrameBody(h, s, s', q);
    }
  }

  /** The last step of an ended task: the record goes unless it is preserved. */
  lemma EndKeeps(h: Handler, s: Engine, s': Engine, p: nat)
    requires EInv(h, s) && HasBody(s, p) && s.bodies[p].EndTimers?
    requires s' == s.(bodies := s.bodies[p := Applied], store := s'.store)
    requires s'.store == s.store || s'.store == s.store - {KeyOf(s, p)}
    ensures EInv(h, s')
  {
    var id := KeyOf(s, p);
    assert BodyOk(h, s, p);
    HistoriesKeep(s, s');
    forall j | j in s'.created ensures IdOk(h, s', j) {
      assert IdOk(h, s, j);
      ReplaySame(h, s, s', j);
    }
    forall q: nat | q in s'.bodies ensures BodyOk(h, s', q) {
      assert BodyOk(h, s, q);
      if q != p { FrameBody(h, s, s', q); } else { ReplaySame(h, s, s', id); }
    }
  }

  lemma TailKeeps(h: Handler, s: Engine, p: nat, choice: string)
    requires C.Serial(s.chains) && EInv(h, s) && Enabled(s, Tail(p, choice))
    ensures EInv(h, Step(h, s, Tail(p, choice)))
  {
    var s' := Step(h, s, Tail(p, choice));
    assert BodyOk(h, s, p);
    if s.bodies[p].Timers? && s.bodies[p].ops == [] {
      SaveKeeps(h, s, s', p, s'.bodies[p]);
    } else if s.bodies[p].EndTimers? && s.bodies[p].pending == {} {
      EndKeeps(h, s, s', p);
    } else {
      PhaseKeeps(h, s, s', p, s'.bodies[p]);
    }
  }

  lemma StartBeginKeeps(h: Handler, s: Engine, id: string, event: Event, r: Result)
    requires EInv(h, s) && Enabled(s, StartBegin(id, event, r))
    ensures EInv(h, Step(h, s, StartBegin(id, event, r)))
  {
    var s' := Step(h, s, StartBegin(id, event, r));
    forall j | j in s.created ensures SameHistory(s, s', j) { GrowsHistory(s, s', j); }
    forall j | j in s'.created ensures IdOk(h, s', j) {
      if j != id { FrameId(h, s, s', j); }
    }
    forall q: nat | q in s'.bodies ensures BodyOk(h, s', q) { FrameBody(h, s, s', q); }
  }

  /** Until the record is created no task of the instance has found anything. */
  lemma NothingAppliedYet(h: Handler, s: Engine, id: string)
    requires EInv(h, s) && id in s.starts && s.starts[id].Timers?
    ensures Replay(h, s, id) == s.created[id]
  {
    forall p: nat | p in s.bodies ensures !SavedTask(s, p, id) { assert BodyOk(h, s, p); }
    AppliedBeyond(s, id, 0, |s.chains.links|);
  }

  lemma StartTailStore(h: Handler, s: Engine, id: string, choice: string)
    requires Enabled(s, StartTail(id, choice)) && id in s.created && IdOk(h, s, id) && s.store.Keys <= s.created.Keys
    requires s.starts[id].Timers? ==> Replay(h, s, id) == s.created[id]
    ensures var t := TailStep(s.starts[id], id, s.store, s.schedules, choice);
            && t.store.Keys <= s.created.Keys
            && (forall j :: j != id ==>
                  ((j in t.store <==> j in s.store) && (j in s.store ==> t.store[j] == s.store[j])))
            && (id in t.store ==> t.store[id] == Replay(h, s, id))
            && !t.phase.Reading? && !t.phase.Handling?
            && (t.phase.Timers? ==> s.starts[id].Timers? && id !in t.store && t.phase.next == s.created[id])
  {}

  lemma StartTailKeeps(h: Handler, s: Engine, id: string, choice: string)
    requires EInv(h, s) && Enabled(s, StartTail(id, choice))
    ensures EInv(h, Step(h, s, StartTail(id, choice)))
  {
    var t := TailStep(s.starts[id], id, s.store, s.schedules, choice);
    assert IdOk(h, s, id);
    if s.starts[id].Timers? { NothingAppliedYet(h, s, id); }
    StartTailStore(h, s, id, choice);
    StartPhaseKeeps(h, s, s.(starts := s.starts[id := t.phase], store := t.store, schedules := t.schedules), id, t);
  }

  /** Only the start step of id and the record of id change. */
  lemma StartPhaseKeeps(h: Handler, s: Engine, s': Engine, id: string, t: Shared)
    requires EInv(h, s) && id in s.created && id in s.starts
    requires s' == s.(starts := s.starts[id := t.phase], store := t.store, schedules := t.schedules)
    requires t.store.Keys <= s.created.Keys
    requires forall j :: j != id ==> ((j in t.store <==> j in s.store) && (j in s.store ==> t.store[j] == s.store[j]))
    requires id in t.store ==> t.store[id] == Replay(h, s, id)
    requires !t.phase.Reading? && !t.phase.Handling?
    requires t.phase.Timers? ==> s.starts[id].Timers? && id !in t.store && t.phase.next == s.created[id]
    ensures EInv(h, s')
  {
    forall j | j in s'.created ensures IdOk(h, s', j) {
      GrowsHistory(s, s', j);
      ReplaySame(h, s, s', id);
      if j != id { FrameId(h, s, s', j); }
    }
    forall q: nat | q in s'.bodies ensures BodyOk(h, s', q) { StartSparesBody(h, s, s', id, q); }
  }

  lemma StartSparesBody(h: Handler, s: Engine, s': Engine, id: string, q: nat)
    requires Shape(s) && HasBody(s, q) && BodyOk(h, s, q) && id in s.starts && id in s'.starts
    requires s' == s.(starts := s.starts[id := s'.starts[id]], store := s'.store, schedules := s'.schedules)
    requires s'.starts[id].Timers? ==> s.starts[id].Timers?
    ensures BodyOk(h, s', q)
  {
    GrowsHistory(s, s', KeyOf(s, q));
    FrameBody(h, s, s', q);
  }

  lemma ScheduleChange(h: Handler, s: Engine, s': Engine)
    requires EInv(h, s) && s' == s.(schedules := s'.schedules)
    ensures EInv(h, s')
  {
    OthersKeep(h, s, s', |s.chains.links|);
  }

  ghost predicate Inv(h: Handler, s: Engine) { C.Inv(s.chains) && EInv(h, s) }

  lemma ChainsStep(h: Handler, s: Engine, l: Label)
    requires C.Inv(s.chains) && Enabled(s, l)
    ensures C.Inv(Step(h, s, l).chains)
  {
    match l
    case Arrive(id, task) => C.InvStep(s.chains, C.Enqueue(id, task));
    case Begin(p) => C.InvStep(s.chains, C.Start(p));
    case SkipTask(p) => C.InvStep(s.chains, C.Skip(p));
    case FinishTask(p) => C.InvStep(s.chains, C.Complete(p, BodyOutcome(s.chains.links[p].task, s.bodies[p])));
    case CleanupTask(p) => C.InvStep(s.chains, C.Cleanup(p));
    case SettleTask(p) => C.InvStep(s.chains, C.Settle(p));
    case _ =>
  }

  lemma InvStep(h: Handler, s: Engine, l: Label)
    requires Inv(h, s) && Enabled(s, l)
    ensures Inv(h, Step(h, s, l))
  {
    ChainsStep(h, s, l);
    match l
    case Arrive(id, task) => ArriveKeeps(h, s, id, task);
    case Begin(p) => BeginKeeps(h, s, p);
    case SkipTask(p) => QuietKeeps(h, s, C.Skip(p));
    case Read(p) => ReadKeeps(h, s, p);
    case Handle(p) => HandleKeeps(h, s, p);
    case Tail(p, choice) => TailKeeps(h, s, p, choice);
    case FinishTask(p) => FinishKeeps(h, s, p);
    case CleanupTask(p) => QuietKeeps(h, s, C.Cleanup(p));
    case SettleTask(p) => QuietKeeps(h, s, C.Settle(p));
    case StartBegin(id, event, r) => StartBeginKeeps(h, s, id, event, r);
    case StartTail(id, choice) => StartTailKeeps(h, s, id, choice);
    case Expire(x) => ScheduleChange(h, s, Step(h, s, l));
  }

  lemma {:induction false} RunKeepsInv(h: Handler, s: Engine, run: seq<Label>)
    requires Inv(h, s) && ValidRun(h, s, run)
    ensures Inv(h, After(h, s, run))
    decreases |run|
  {
    if run != [] {
      InvStep(h, s, run[0]);
      RunKeepsInv(h, Step(h, s, run[0]), run[1..]);
    }
  }
}
