/**
 Event-sourced aggregates: persists that drain an aggregate under a lock and append to its stored history,
 interleaved with each other, and the replay of that history.
 */
module Aggregates {
  import opened Wrappers

  datatype Event = Event(kind: string, id: nat, createdAt: Option<nat>, source: Option<string>,
                         domainId: Option<string>, data: nat)

  datatype Value = Text(text: string) | Events(events: seq<Event>)

  type Content = map<string, Value>

  datatype Row = Row(tenant: string, table: string, content: Content)

  /** A call of `persist`: the aggregate's events are drained into the history of (tenant, table, id). */
  datatype Call = Call(agg: nat, tenant: string, table: string, id: string)

  /** The lock name joins tenant and id: keys that collide only exclude each other more. */
  function LockKey(c: Call): string { c.tenant + c.id }

  predicate SameKey(c: Call, d: Call) { c.tenant == d.tenant && c.table == d.table && c.id == d.id }

  datatype Write = Create(content: Content) | Save(row: nat, content: Content)

  /** Finding: the lock is held and newEvents are copied and emptied.  Writing: create or save is awaited.
      Releasing: the write is done or pending in the transaction, or the step failed.  Committing: the lock is
      released and a pending write waits for the commit. */
  datatype Phase =
    | Waiting
    | Finding
    | Writing(write: Write)
    | Releasing(pending: Option<Write>)
    | Committing(write: Write)
    | Finished

  datatype Persist = Persist(call: Call, phase: Phase, batch: seq<Event>)

  /** When other transactions see a write: the in-memory store applies it at once. */
  datatype Visibility = AtOnce | AtCommit

  /** acquired: persists in the order they got their lock.  stored: those whose write is visible.
      newEvents and raised are by aggregate object; raised is every event the object's state has been reduced
      with: the history it was loaded with, then what was raised on it. */
  datatype Repo = Repo(mode: Visibility, newEvents: map<nat, seq<Event>>, raised: map<nat, seq<Event>>,
                       rows: map<nat, Row>, nextRow: nat, locks: map<string, nat>,
                       persists: map<nat, Persist>, acquired: seq<nat>, stored: set<nat>)

  datatype Label =
    | Raise(agg: nat, e: Event)
    | Load(agg: nat, call: Call, row: Option<nat>)
    | Begin(p: nat, call: Call)
    | Acquire(p: nat)
    | LockFails(p: nat)
    | Found(p: nat, row: Option<nat>, checkpoint: Content)
    | StepFails(p: nat)
    | WriteOk(p: nat)
    | Release(p: nat)
    | Commit(p: nat)
    | Rollback(p: nat)

  function New(mode: Visibility): Repo { Repo(mode, map[], map[], map[], 0, map[], map[], [], {}) }

  function At(m: map<nat, seq<Event>>, a: nat): seq<Event> { if a in m then m[a] else [] }

  predicate Matches(r: Row, c: Call) {
    r.tenant == c.tenant && r.table == c.table && "domainId" in r.content && r.content["domainId"] == Text(c.id)
  }

  /** `maybeAddCheckpointState`: the spread of the checkpoint over the content. */
  function AddCheckpoint(content: Content, checkpoint: Content): Content { content + checkpoint }

  /** What `findEntity` on the domain id answers: the first matching row. */
  predicate FirstRow(rows: map<nat, Row>, c: Call, row: Option<nat>) {
    match row
    case None => forall r :: r in rows ==> !Matches(rows[r], c)
    case Some(r) => r in rows && Matches(rows[r], c) && forall q :: q in rows && q < r ==> !Matches(rows[q], c)
  }

  /** An object that nothing has happened to. */
  predicate Fresh(s: Repo, a: nat) {
    a !in s.newEvents && a !in s.raised && forall p :: p in s.persists ==> s.persists[p].call.agg != a
  }

  predicate Enabled(s: Repo, l: Label) {
    match l
    case Raise(_, _) => true
    case Load(a, c, row) => Fresh(s, a) && FirstRow(s.rows, c, row)
    case Begin(p, _) => p !in s.persists
    case Acquire(p) => p in s.persists && s.persists[p].phase.Waiting? && LockKey(s.persists[p].call) !in s.locks
    case LockFails(p) => p in s.persists && s.persists[p].phase.Waiting?
    case Found(p, row, _) =>
      p in s.persists && s.persists[p].phase.Finding? && FirstRow(s.rows, s.persists[p].call, row)
    case StepFails(p) => p in s.persists && (s.persists[p].phase.Finding? || s.persists[p].phase.Writing?)
    case WriteOk(p) => p in s.persists && s.persists[p].phase.Writing?
    case Release(p) => p in s.persists && s.persists[p].phase.Releasing?
    case Commit(p) => p in s.persists && s.persists[p].phase.Committing?
    case Rollback(p) => p in s.persists && s.persists[p].phase.Committing?
  }

  function To(s: Repo, p: nat, phase: Phase): Repo
    requires p in s.persists
  {
    s.(persists := s.persists[p := s.persists[p].(phase := phase)])
  }

  /** The record has a history to go through; without one both `persist` and `load` throw. */
  predicate Readable(content: Content) { "history" in content && content["history"].Events? }

  /** The content written once the record is found, or not. */
  function Prepared(s: Repo, c: Call, batch: seq<Event>, row: Option<nat>, checkpoint: Content): Phase
    requires row.Some? ==> row.value in s.rows
  {
    match row
    case None => Writing(Create(AddCheckpoint(map["domainId" := Text(c.id), "history" := Events(batch)], checkpoint)))
    case Some(r) =>
      var content := s.rows[r].content;
      if Readable(content) then
        Writing(Save(r, AddCheckpoint(content["history" := Events(content["history"].events + batch)], checkpoint)))
      else Releasing(None)
  }

  function Apply(s: Repo, p: nat, w: Write): Repo
    requires p in s.persists
  {
    var row := Row(s.persists[p].call.tenant, s.persists[p].call.table, w.content);
    match w
    case Create(_) => s.(rows := s.rows[s.nextRow := row], nextRow := s.nextRow + 1, stored := s.stored + {p})
    case Save(r, _) => s.(rows := s.rows[r := row], stored := s.stored + {p})
  }

  function Step(s: Repo, l: Label): Repo
    requires Enabled(s, l)
  {
    match l
    case Raise(a, e) =>
      s.(newEvents := s.newEvents[a := At(s.newEvents, a) + [e]], raised := s.raised[a := At(s.raised, a) + [e]])
    case Load(a, _, row) =>
      if row.Some? && Readable(s.rows[row.value].content)
      then s.(newEvents := s.newEvents[a := []], raised := s.raised[a := s.rows[row.value].content["history"].events])
      else s
    case Begin(p, c) => s.(persists := s.persists[p := Persist(c, Waiting, [])])
    case Acquire(p) =>
      var c := s.persists[p].call;
      s.(locks := s.locks[LockKey(c) := p], acquired := s.acquired + [p], newEvents := s.newEvents[c.agg := []],
         persists := s.persists[p := Persist(c, Finding, At(s.newEvents, c.agg))])
    case LockFails(p) => To(s, p, Finished)
    case Found(p, row, checkpoint) => To(s, p, Prepared(s, s.persists[p].call, s.persists[p].batch, row, checkpoint))
    case StepFails(p) => To(s, p, Releasing(None))
    case WriteOk(p) =>
      var w := s.persists[p].phase.write;
      if s.mode.AtOnce? then To(Apply(s, p, w), p, Releasing(None)) else To(s, p, Releasing(Some(w)))
    case Release(p) =>
      var pending := s.persists[p].phase.pending;
      To(s, p, if pending.Some? then Committing(pending.value) else Finished)
        .(locks := s.locks - {LockKey(s.persists[p].call)})
    case Commit(p) => To(Apply(s, p, s.persists[p].phase.write), p, Finished)
    case Rollback(p) => To(s, p, Finished)
  }

  ghost predicate ValidRun(s: Repo, run: seq<Label>)
    decreases |run|
  {
    run == [] || (Enabled(s, run[0]) && ValidRun(Step(s, run[0]), run[1..]))
  }

  ghost function After(s: Repo, run: seq<Label>): Repo
    requires ValidRun(s, run)
    decreases |run|
  {
    if run == [] then s else After(Step(s, run[0]), run[1..])
  }

  // ---------------------------------------------------------------- the history a key should have

  /** The batches of the stored persists of `c`'s key, in the order in which they got the lock. */
  ghost function Batches(persists: map<nat, Persist>, acquired: seq<nat>, stored: set<nat>, c: Call): seq<Event> {
    if acquired == [] then []
    else
      var p := acquired[|acquired| - 1];
      Batches(persists, acquired[..|acquired| - 1], stored, c)
      + (if p in stored && p in persists && SameKey(persists[p].call, c) then persists[p].batch else [])
  }

  ghost function History(s: Repo, c: Call): seq<Event> { Batches(s.persists, s.acquired, s.stored, c) }

  /** Batches depend on the call and the batch of what was acquired, and on nothing else. */
  ghost predicate SameBatches(a: map<nat, Persist>, b: map<nat, Persist>, acquired: seq<nat>) {
    forall p :: p in acquired ==> p in a && p in b && a[p].call == b[p].call && a[p].batch == b[p].batch
  }

  lemma {:induction false} BatchesFrame(a: map<nat, Persist>, b: map<nat, Persist>, acquired: seq<nat>,
                                        stored: set<nat>, c: Call)
    requires SameBatches(a, b, acquired)
    ensures Batches(a, acquired, stored, c) == Batches(b, acquired, stored, c)
  {
    if acquired != [] {
      var front := acquired[..|acquired| - 1];
      assert forall p :: p in front ==> p in acquired;
      assert acquired[|acquired| - 1] in acquired;
      BatchesFrame(a, b, front, stored, c);
    }
  }

  ghost predicate Distinct(x: seq<nat>) { forall i, j :: 0 <= i < j < |x| ==> x[i] != x[j] }

  /** Storing the last persist that got the key's lock appends its batch; other keys keep theirs. */
  lemma {:induction false} StoreAppends(persists: map<nat, Persist>, acquired: seq<nat>, stored: set<nat>,
                                        p: nat, i: nat, c: Call)
    requires i < |acquired| && acquired[i] == p && p in persists && p !in stored && Distinct(acquired)
    requires forall j :: i < j < |acquired| && acquired[j] in persists ==>
             !SameKey(persists[acquired[j]].call, persists[p].call)
    ensures Batches(persists, acquired, stored + {p}, c)
         == Batches(persists, acquired, stored, c) + (if SameKey(persists[p].call, c) then persists[p].batch else [])
  {
    var m := |acquired| - 1;
    var front := acquired[..m];
    if i < m {
      assert acquired[m] != p;
      StoreAppends(persists, front, stored, p, i, c);
    } else {
      NotAcquired(persists, front, stored, p, c);
    }
  }

  lemma {:induction false} NotAcquired(persists: map<nat, Persist>, acquired: seq<nat>,
    stored: set<nat>, p: nat, c: Call)
    requires p !in acquired
    ensures Batches(persists, acquired, stored + {p}, c) == Batches(persists, acquired, stored, c)
  {
    if acquired != [] {
      assert acquired[|acquired| - 1] in acquired;
      NotAcquired(persists, acquired[..|acquired| - 1], stored, p, c);
    }
  }

  lemma {:induction false} NothingStored(persists: map<nat, Persist>, acquired: seq<nat>, stored: set<nat>, c: Call)
    requires forall p :: p in stored && p in persists ==> !SameKey(persists[p].call, c)
    ensures Batches(persists, acquired, stored, c) == []
  {
    if acquired != [] { NothingStored(persists, acquired[..|acquired| - 1], stored, c); }
  }

  // ---------------------------------------------------------------- the lock

  predicate Active(x: Phase) { x.Finding? || x.Writing? || x.Releasing? }

  /** The write that is still to become visible. */
  function WriteOf(x: Phase): Option<Write> {
    match x
    case Writing(w) => Some(w)
    case Releasing(w) => w
    case Committing(w) => Some(w)
    case _ => None
  }

  /** It may still write. */
  predicate Pending(x: Phase) { x.Finding? || WriteOf(x).Some? }

  /** The step is over for the caller of the store and its write is not visible. */
  predicate Unseen(x: Phase) { x.Committing? || (x.Releasing? && x.pending.Some?) }

  ghost predicate Holds(s: Repo) {
    && (forall k :: k in s.locks ==> s.locks[k] in s.persists && Active(s.persists[s.locks[k]].phase)
                                     && LockKey(s.persists[s.locks[k]].call) == k)
    && (forall p :: p in s.persists && Active(s.persists[p].phase) ==>
          LockKey(s.persists[p].call) in s.locks && s.locks[LockKey(s.persists[p].call)] == p)
    && (s.mode.AtOnce? ==> forall p :: p in s.persists ==> !Unseen(s.persists[p].phase))
  }

  ghost predicate Ordered(s: Repo) {
    && Distinct(s.acquired)
    && (forall p :: p in s.acquired ==> p in s.persists && !s.persists[p].phase.Waiting?)
    && (forall p :: p in s.persists && Pending(s.persists[p].phase) ==> p in s.acquired && p !in s.stored)
    && (forall p :: p in s.stored ==> p in s.acquired)
    && (forall i, j :: 0 <= i < j < |s.acquired| && Pending(s.persists[s.acquired[i]].phase) ==>
          LockKey(s.persists[s.acquired[i]].call) != LockKey(s.persists[s.acquired[j]].call))
  }

  /** Acquire: no write of the same lock waits for its commit.  Found: the checkpoint leaves the two keys of
      the record alone. */
  ghost predicate Safe(s: Repo, l: Label)
    requires Enabled(s, l)
  {
    match l
    case Acquire(p) =>
      forall q :: q in s.persists && s.persists[q].phase.Committing? ==>
                    LockKey(s.persists[q].call) != LockKey(s.persists[p].call)
    case Found(_, _, checkpoint) => "domainId" !in checkpoint && "history" !in checkpoint
    case _ => true
  }

  /** Only persist `p` moves on. */
  ghost predicate Moves(s: Repo, t: Repo, p: nat) {
    && p in s.persists && t.mode == s.mode && t.persists.Keys == s.persists.Keys
    && (forall q :: q in s.persists && q != p ==> t.persists[q] == s.persists[q])
    && t.persists[p].call == s.persists[p].call
  }

  /** The labels that neither take nor drop a lock. */
  predicate Inner(l: Label) { !l.Raise? && !l.Load? && !l.Begin? && !l.Acquire? && !l.Release? }

  ghost predicate Advances(s: Repo, t: Repo, p: nat) {
    && Moves(s, t, p) && t.locks == s.locks && t.acquired == s.acquired
    && t.persists[p].batch == s.persists[p].batch
    && Active(t.persists[p].phase) == Active(s.persists[p].phase)
    && !t.persists[p].phase.Waiting?
    && (Pending(t.persists[p].phase) ==> Pending(s.persists[p].phase))
    && s.stored <= t.stored <= s.stored + {p}
    && (t.stored != s.stored ==> Pending(s.persists[p].phase) && !Pending(t.persists[p].phase))
  }

  lemma InnerAdvances(s: Repo, l: Label)
    requires Enabled(s, l) && Inner(l)
    ensures Advances(s, Step(s, l), l.p)
    ensures s.mode.AtOnce? && !Unseen(s.persists[l.p].phase) ==> !Unseen(Step(s, l).persists[l.p].phase)
  {
    match l
    case Found(p, row, checkpoint) => ToAdvances(s, s, p,
        Prepared(s, s.persists[p].call, s.persists[p].batch, row, checkpoint));
    case WriteOk(p) =>
      var w := s.persists[p].phase.write;
      if s.mode.AtOnce? { ToAdvances(s, Apply(s, p, w), p, Releasing(None)); } else {
        ToAdvances(s, s, p, Releasing(Some(w)));
      }
    case Commit(p) => ToAdvances(s, Apply(s, p, s.persists[p].phase.write), p, Finished);
    case LockFails(p) => ToAdvances(s, s, p, Finished);
    case StepFails(p) => ToAdvances(s, s, p, Releasing(None));
    case Rollback(p) => ToAdvances(s, s, p, Finished);
  }

  lemma ToAdvances(s: Repo, b: Repo, p: nat, phase: Phase)
    requires p in s.persists && !phase.Waiting? && Active(phase) == Active(s.persists[p].phase)
    requires Pending(phase) ==> Pending(s.persists[p].phase)
    requires b == s || (b == s.(rows := b.rows, nextRow := b.nextRow, stored := s.stored + {p})
                        && Pending(s.persists[p].phase) && !Pending(phase))
    ensures Advances(s, To(b, p, phase), p)
  {
  }

  /** Only an acquired lock adds to the order, and a batch once taken does not change. */
  lemma BatchesStay(s: Repo, l: Label)
    requires Enabled(s, l) && !l.Acquire? && forall p :: p in s.acquired ==> p in s.persists
    ensures Step(s, l).acquired == s.acquired && SameBatches(s.persists, Step(s, l).persists, s.acquired)
  {
    if Inner(l) { InnerAdvances(s, l); }
  }

  lemma HoldsStep(s: Repo, l: Label)
    requires Holds(s) && Enabled(s, l)
    ensures Holds(Step(s, l))
  {
    if Inner(l) {
      InnerAdvances(s, l);
      HoldsOn(s, Step(s, l), l.p);
    } else if l.Acquire? {
      HoldsAcquire(s, l.p);
    } else if l.Release? {
      HoldsRelease(s, l.p);
    }
  }

  lemma HoldsAcquire(s: Repo, p: nat)
    requires Holds(s) && Enabled(s, Acquire(p))
    ensures Holds(Step(s, Acquire(p)))
  {
  }

  lemma HoldsRelease(s: Repo, p: nat)
    requires Holds(s) && Enabled(s, Release(p))
    ensures Holds(Step(s, Release(p)))
  {
  }

  lemma HoldsOn(s: Repo, t: Repo, p: nat)
    requires Holds(s) && Moves(s, t, p) && t.locks == s.locks
    requires Active(t.persists[p].phase) == Active(s.persists[p].phase)
    requires s.mode.AtOnce? ==> !Unseen(t.persists[p].phase)
    ensures Holds(t)
  {
  }

  lemma OrderedAcquire(s: Repo, p: nat)
    requires Holds(s) && Ordered(s) && Enabled(s, Acquire(p)) && Safe(s, Acquire(p))
    ensures Ordered(Step(s, Acquire(p)))
  {
    var t := Step(s, Acquire(p));
    var n := |s.acquired|;
    assert p !in s.acquired;
    forall i, j | 0 <= i < j <= n && Pending(t.persists[t.acquired[i]].phase)
      ensures LockKey(t.persists[t.acquired[i]].call) != LockKey(t.persists[t.acquired[j]].call)
    {
      var q := s.acquired[i];
      assert q in s.acquired && q != p;
      if j == n {
        if Active(s.persists[q].phase) { assert s.locks[LockKey(s.persists[q].call)] == q; }
      } else {
        assert s.acquired[j] in s.acquired;
      }
    }
  }

  lemma OrderedStep(s: Repo, l: Label)
    requires Holds(s) && Ordered(s) && Enabled(s, l) && Safe(s, l)
    ensures Ordered(Step(s, l))
  {
    if Inner(l) {
      OrderedInner(s, l);
    } else if l.Acquire? {
      OrderedAcquire(s, l.p);
    } else if l.Release? {
      OrderedRelease(s, l.p);
    }
  }

  lemma OrderedInner(s: Repo, l: Label)
    requires Ordered(s) && Enabled(s, l) && Inner(l)
    ensures Ordered(Step(s, l))
  {
    InnerAdvances(s, l);
    OrderedMove(s, Step(s, l), l.p);
  }

  lemma OrderedRelease(s: Repo, p: nat)
    requires Ordered(s) && Enabled(s, Release(p))
    ensures Ordered(Step(s, Release(p)))
  {
    OrderedMove(s, Step(s, Release(p)), p);
  }

  lemma OrderedMove(s: Repo, t: Repo, p: nat)
    requires Ordered(s) && Moves(s, t, p) && t.acquired == s.acquired && !t.persists[p].phase.Waiting?
    requires Pending(t.persists[p].phase) ==> Pending(s.persists[p].phase)
    requires s.stored <= t.stored <= s.stored + {p}
    requires t.stored != s.stored ==> Pending(s.persists[p].phase) && !Pending(t.persists[p].phase)
    ensures Ordered(t)
  {
  }

  // ---------------------------------------------------------------- one record, the whole history

  predicate Has(content: Content, history: seq<Event>) { "history" in content && content["history"] == Events(history) }

  ghost predicate Complete(s: Repo, p: nat, w: Write)
    requires p in s.persists
  {
    var c := s.persists[p].call;
    && "domainId" in w.content && w.content["domainId"] == Text(c.id)
    && Has(w.content, History(s, c) + s.persists[p].batch)
    && (match w
        case Create(_) => forall r :: r in s.rows ==> !Matches(s.rows[r], c)
        case Save(r, _) => r in s.rows && Matches(s.rows[r], c))
  }

  ghost predicate Recorded(s: Repo) {
    && (forall r :: r in s.rows ==>
          r < s.nextRow && "domainId" in s.rows[r].content && s.rows[r].content["domainId"].Text?)
    && (forall r, c :: r in s.rows && Matches(s.rows[r], c) ==> Has(s.rows[r].content, History(s, c)))
    && (forall r, q, c :: r in s.rows && q in s.rows && Matches(s.rows[r], c) && Matches(s.rows[q], c) ==> r == q)
    && (forall p :: p in s.stored && p in s.persists ==>
          exists r :: r in s.rows && Matches(s.rows[r], s.persists[p].call))
    && (forall p :: p in s.persists && WriteOf(s.persists[p].phase).Some? ==>
          Complete(s, p, WriteOf(s.persists[p].phase).value))
  }

  ghost predicate Inv(s: Repo) { Holds(s) && Ordered(s) && Recorded(s) }

  /** Nothing that the records depend on changes. */
  lemma RecordedFrame(s: Repo, t: Repo, p: nat)
    requires Recorded(s) && Ordered(s)
    requires t.rows == s.rows && t.nextRow == s.nextRow && t.stored == s.stored
    requires forall q :: q in s.persists ==> q in t.persists && t.persists[q].call == s.persists[q].call
    requires forall q :: q in t.persists && q != p ==> q in s.persists && t.persists[q] == s.persists[q]
    requires forall c: Call :: History(t, c) == History(s, c)
    requires p in t.persists && WriteOf(t.persists[p].phase).Some? ==>
             Complete(t, p, WriteOf(t.persists[p].phase).value)
    ensures Recorded(t)
  {
    forall r, c | r in t.rows && Matches(t.rows[r], c)
      ensures Has(t.rows[r].content, History(t, c))
    {
      assert Matches(s.rows[r], c) && History(t, c) == History(s, c);
    }
    forall q | q in t.stored && q in t.persists
      ensures exists r :: r in t.rows && Matches(t.rows[r], t.persists[q].call)
    {
      assert q in s.acquired;
    }
    forall q | q in t.persists && WriteOf(t.persists[q].phase).Some?
      ensures Complete(t, q, WriteOf(t.persists[q].phase).value)
    {
      if q != p { assert Complete(s, q, WriteOf(s.persists[q].phase).value); }
    }
  }

  lemma HistoriesFrame(s: Repo, t: Repo)
    requires t.acquired == s.acquired && t.stored == s.stored && SameBatches(s.persists, t.persists, s.acquired)
    ensures forall c: Call :: History(t, c) == History(s, c)
  {
    forall c: Call ensures History(t, c) == History(s, c) {
      BatchesFrame(s.persists, t.persists, s.acquired, s.stored, c);
    }
  }

  /** `p` moves on with the write it had, or with none. */
  lemma RecordedMove(s: Repo, t: Repo, p: nat)
    requires Recorded(s) && Ordered(s) && Moves(s, t, p)
    requires t.acquired == s.acquired && t.rows == s.rows && t.nextRow == s.nextRow && t.stored == s.stored
    requires t.persists[p].batch == s.persists[p].batch
    requires WriteOf(t.persists[p].phase) == None || WriteOf(t.persists[p].phase) == WriteOf(s.persists[p].phase)
    ensures Recorded(t)
  {
    HistoriesFrame(s, t);
    if WriteOf(t.persists[p].phase).Some? { assert Complete(s, p, WriteOf(s.persists[p].phase).value); }
    RecordedFrame(s, t, p);
  }

  lemma RecordedFresh(s: Repo, l: Label)
    requires Recorded(s) && Ordered(s) && Enabled(s, l) && (l.Raise? || l.Load? || l.Begin? || l.Acquire?)
    ensures Recorded(Step(s, l))
  {
    match l
    case Begin(p, _) => RecordedBegin(s, Step(s, l), p);
    case Acquire(p) => RecordedAcquire(s, p);
    case Raise(_, _) => RecordedObjects(s, Step(s, l));
    case Load(_, _, _) => RecordedObjects(s, Step(s, l));
  }

  /** Only the objects have changed. */
  lemma RecordedObjects(s: Repo, t: Repo)
    requires Recorded(s) && Ordered(s) && t == s.(newEvents := t.newEvents, raised := t.raised)
    ensures Recorded(t)
  {
    if 0 in s.persists && WriteOf(s.persists[0].phase).Some? {
      assert Complete(s, 0, WriteOf(s.persists[0].phase).value);
    }
    RecordedFrame(s, t, 0);
  }

  lemma RecordedBegin(s: Repo, t: Repo, p: nat)
    requires Recorded(s) && Ordered(s) && p !in s.persists && p in t.persists && t.persists[p].phase.Waiting?
    requires t == s.(persists := s.persists[p := t.persists[p]])
    ensures Recorded(t)
  {
    HistoriesFrame(s, t);
    RecordedFrame(s, t, p);
  }

  lemma RecordedAcquire(s: Repo, p: nat)
    requires Recorded(s) && Ordered(s) && Enabled(s, Acquire(p))
    ensures Recorded(Step(s, Acquire(p)))
  {
    var t := Step(s, Acquire(p));
    assert t.acquired[..|t.acquired| - 1] == s.acquired;
    forall c: Call ensures History(t, c) == History(s, c) {
      BatchesFrame(s.persists, t.persists, s.acquired, s.stored, c);
    }
    RecordedFrame(s, t, p);
  }

  lemma {:induction false} BatchesOfKey(persists: map<nat, Persist>, acquired: seq<nat>,
    stored: set<nat>, c: Call, d: Call)
    requires SameKey(c, d)
    ensures Batches(persists, acquired, stored, c) == Batches(persists, acquired, stored, d)
  {
    if acquired != [] { BatchesOfKey(persists, acquired[..|acquired| - 1], stored, c, d); }
  }

  /** The content put together after `findEntity`: the whole history of the key and the batch. */
  lemma PreparedIsComplete(s: Repo, p: nat, row: Option<nat>, checkpoint: Content)
    requires Recorded(s) && Enabled(s, Found(p, row, checkpoint)) && Safe(s, Found(p, row, checkpoint))
    ensures var next := Prepared(s, s.persists[p].call, s.persists[p].batch, row, checkpoint);
            WriteOf(next).Some? && Complete(s, p, WriteOf(next).value)
  {
    var c := s.persists[p].call;
    match row
    case None => NothingStored(s.persists, s.acquired, s.stored, c);
    case Some(r) => assert Has(s.rows[r].content, History(s, c));
  }

  lemma RecordedFound(s: Repo, p: nat, row: Option<nat>, checkpoint: Content)
    requires Recorded(s) && Ordered(s) && Enabled(s, Found(p, row, checkpoint)) && Safe(s, Found(p, row, checkpoint))
    ensures Recorded(Step(s, Found(p, row, checkpoint)))
  {
    var t := Step(s, Found(p, row, checkpoint));
    PreparedIsComplete(s, p, row, checkpoint);
    HistoriesFrame(s, t);
    RecordedFrame(s, t, p);
  }

  lemma Excludes(s: Repo, p: nat, q: nat)
    requires Ordered(s) && p in s.persists && q in s.persists && p != q
    requires Pending(s.persists[p].phase) && Pending(s.persists[q].phase)
    ensures LockKey(s.persists[p].call) != LockKey(s.persists[q].call)
  {
    var i :| 0 <= i < |s.acquired| && s.acquired[i] == p;
    var j :| 0 <= j < |s.acquired| && s.acquired[j] == q;
    assert i < j || j < i;
  }

  /** What a visible write does to the histories. */
  lemma StoredHistory(s: Repo, t: Repo, p: nat, c: Call)
    requires Ordered(s) && Moves(s, t, p) && Pending(s.persists[p].phase)
    requires t.acquired == s.acquired && t.stored == s.stored + {p} && t.persists[p].batch == s.persists[p].batch
    ensures History(t, c) == History(s, c) + (if SameKey(s.persists[p].call, c) then s.persists[p].batch else [])
  {
    var i :| 0 <= i < |s.acquired| && s.acquired[i] == p;
    StoreAppends(s.persists, s.acquired, s.stored, p, i, c);
    BatchesFrame(s.persists, t.persists, s.acquired, t.stored, c);
  }

  function RowOf(s: Repo, w: Write): nat { if w.Create? then s.nextRow else w.row }

  /** `p`'s write `w` became visible between `s` and `t`. */
  ghost predicate Lands(s: Repo, t: Repo, p: nat, w: Write) {
    && Moves(s, t, p) && WriteOf(s.persists[p].phase) == Some(w) && WriteOf(t.persists[p].phase) == None
    && t.rows == s.rows[RowOf(s, w) := Row(s.persists[p].call.tenant, s.persists[p].call.table, w.content)]
    && t.nextRow == (if w.Create? then s.nextRow + 1 else s.nextRow) && t.stored == s.stored + {p}
    && t.acquired == s.acquired && t.persists[p].batch == s.persists[p].batch
  }

  lemma LandedRow(s: Repo, t: Repo, p: nat, w: Write, d: Call)
    requires Lands(s, t, p, w) && Complete(s, p, w)
    ensures Matches(t.rows[RowOf(s, w)], d) <==> SameKey(s.persists[p].call, d)
  {
  }

  lemma OtherRow(s: Repo, t: Repo, p: nat, w: Write, r: nat, d: Call)
    requires Recorded(s) && Lands(s, t, p, w) && Complete(s, p, w) && r in t.rows
             && r != RowOf(s, w) && Matches(t.rows[r], d)
    ensures r in s.rows && t.rows[r] == s.rows[r] && !SameKey(s.persists[p].call, d)
  {
    assert Matches(s.rows[r], d);
    if SameKey(s.persists[p].call, d) { assert Matches(s.rows[r], s.persists[p].call); }
  }

  lemma LandedHistory(s: Repo, t: Repo, p: nat, w: Write, r: nat, d: Call)
    requires Recorded(s) && Ordered(s) && Lands(s, t, p, w) && Complete(s, p, w) && r in t.rows && Matches(t.rows[r], d)
    ensures Has(t.rows[r].content, History(t, d))
  {
    StoredHistory(s, t, p, d);
    if r == RowOf(s, w) {
      LandedRow(s, t, p, w, d);
      BatchesOfKey(s.persists, s.acquired, s.stored, s.persists[p].call, d);
    } else {
      OtherRow(s, t, p, w, r, d);
    }
  }

  lemma LandedUnique(s: Repo, t: Repo, p: nat, w: Write, r: nat, q: nat, d: Call)
    requires Recorded(s) && Lands(s, t, p, w) && Complete(s, p, w)
    requires r in t.rows && q in t.rows && Matches(t.rows[r], d) && Matches(t.rows[q], d)
    ensures r == q
  {
    LandedRow(s, t, p, w, d);
    if r != RowOf(s, w) { OtherRow(s, t, p, w, r, d); }
    if q != RowOf(s, w) { OtherRow(s, t, p, w, q, d); }
  }

  lemma LandedOthers(s: Repo, t: Repo, p: nat, w: Write, q: nat)
    requires Recorded(s) && Ordered(s) && Lands(s, t, p, w) && Complete(s, p, w)
    requires q in t.persists && WriteOf(t.persists[q].phase).Some?
    ensures Complete(t, q, WriteOf(t.persists[q].phase).value)
  {
    var c := s.persists[q].call;
    assert Complete(s, q, WriteOf(t.persists[q].phase).value);
    Excludes(s, p, q);
    StoredHistory(s, t, p, c);
    StillComplete(s, t, p, w, q);
  }

  /** Another key's write lands: what is put together for this one still fits. */
  lemma StillComplete(s: Repo, t: Repo, p: nat, w: Write, q: nat)
    requires Recorded(s) && Lands(s, t, p, w) && Complete(s, p, w) && q in s.persists && q != p
    requires !SameKey(s.persists[p].call, s.persists[q].call) && WriteOf(s.persists[q].phase).Some?
    requires Complete(s, q, WriteOf(s.persists[q].phase).value)
             && History(t, s.persists[q].call) == History(s, s.persists[q].call)
    ensures Complete(t, q, WriteOf(t.persists[q].phase).value)
  {
    LandedRow(s, t, p, w, s.persists[q].call);
  }

  lemma NotWritten(s: Repo, p: nat, w: Write, r: nat, c: Call)
    requires Recorded(s) && p in s.persists && Complete(s, p, w) && r in s.rows && Matches(s.rows[r], c)
    requires !SameKey(s.persists[p].call, c)
    ensures r != RowOf(s, w)
  {
  }

  lemma LandedStored(s: Repo, t: Repo, p: nat, w: Write, q: nat) returns (r: nat)
    requires Recorded(s) && Lands(s, t, p, w) && Complete(s, p, w) && q in t.stored && q in t.persists
    ensures r in t.rows && Matches(t.rows[r], t.persists[q].call)
  {
    var c := s.persists[q].call;
    LandedRow(s, t, p, w, c);
    if SameKey(s.persists[p].call, c) {
      r := RowOf(s, w);
    } else {
      r :| r in s.rows && Matches(s.rows[r], c);
      NotWritten(s, p, w, r, c);
    }
  }

  /** The write of `p` becomes visible. */
  lemma RecordedApply(s: Repo, t: Repo, p: nat, w: Write)
    requires Recorded(s) && Ordered(s) && Lands(s, t, p, w)
    ensures Recorded(t)
  {
    assert Complete(s, p, w);
    forall r, d | r in t.rows && Matches(t.rows[r], d) ensures Has(t.rows[r].content, History(t, d)) {
      LandedHistory(s, t, p, w, r, d);
    }
    forall r, q, d | r in t.rows && q in t.rows && Matches(t.rows[r], d) && Matches(t.rows[q], d) ensures r == q {
      LandedUnique(s, t, p, w, r, q, d);
    }
    forall q | q in t.stored && q in t.persists
      ensures exists r :: r in t.rows && Matches(t.rows[r], t.persists[q].call)
    {
      var r := LandedStored(s, t, p, w, q);
    }
    forall q | q in t.persists && WriteOf(t.persists[q].phase).Some?
      ensures Complete(t, q, WriteOf(t.persists[q].phase).value)
    {
      LandedOthers(s, t, p, w, q);
    }
  }

  lemma RecordedStep(s: Repo, l: Label)
    requires Recorded(s) && Ordered(s) && Enabled(s, l) && Safe(s, l)
    ensures Recorded(Step(s, l))
  {
    match l
    case Raise(_, _) => RecordedFresh(s, l);
    case Load(_, _, _) => RecordedFresh(s, l);
    case Begin(_, _) => RecordedFresh(s, l);
    case Acquire(_) => RecordedFresh(s, l);
    case Found(p, row, checkpoint) => RecordedFound(s, p, row, checkpoint);
    case WriteOk(p) => RecordedWrite(s, p);
    case Commit(p) => RecordedCommit(s, p);
    case _ => RecordedQuiet(s, l);
  }

  lemma ToLands(s: Repo, p: nat, w: Write, next: Phase)
    requires p in s.persists && WriteOf(s.persists[p].phase) == Some(w) && WriteOf(next) == None
    ensures Lands(s, To(Apply(s, p, w), p, next), p, w)
  {
  }

  lemma RecordedWrite(s: Repo, p: nat)
    requires Recorded(s) && Ordered(s) && Enabled(s, WriteOk(p))
    ensures Recorded(Step(s, WriteOk(p)))
  {
    var w := s.persists[p].phase.write;
    if s.mode.AtOnce? {
      ToLands(s, p, w, Releasing(None));
      RecordedApply(s, Step(s, WriteOk(p)), p, w);
    } else {
      RecordedMove(s, Step(s, WriteOk(p)), p);
    }
  }

  lemma RecordedCommit(s: Repo, p: nat)
    requires Recorded(s) && Ordered(s) && Enabled(s, Commit(p))
    ensures Recorded(Step(s, Commit(p)))
  {
    var w := s.persists[p].phase.write;
    ToLands(s, p, w, Finished);
    RecordedApply(s, Step(s, Commit(p)), p, w);
  }

  lemma RecordedQuiet(s: Repo, l: Label)
    requires Recorded(s) && Ordered(s) && Enabled(s, l) && (l.LockFails? || l.StepFails? || l.Release? || l.Rollback?)
    ensures Recorded(Step(s, l))
  {
    RecordedMove(s, Step(s, l), l.p);
  }

  lemma InvStep(s: Repo, l: Label)
    requires Inv(s) && Enabled(s, l) && Safe(s, l)
    ensures Inv(Step(s, l))
  {
    HoldsStep(s, l);
    OrderedStep(s, l);
    RecordedStep(s, l);
  }

  ghost predicate SafeRun(s: Repo, run: seq<Label>)
    requires ValidRun(s, run)
    decreases |run|
  {
    run == [] || (Safe(s, run[0]) && SafeRun(Step(s, run[0]), run[1..]))
  }

  lemma {:induction false} RunKeepsInv(s: Repo, run: seq<Label>)
    requires Inv(s) && ValidRun(s, run) && SafeRun(s, run)
    ensures Inv(After(s, run))
    decreases |run|
  {
    if run != [] {
      InvStep(s, run[0]);
      RunKeepsInv(Step(s, run[0]), run[1..]);
    }
  }

  // ---------------------------------------------------------------- one record per key, appended to only

  /** However persists interleave, a key has at most one record and its history is the batches of the stored
      persists in the order in which they got the lock. */
  lemma OneRecordPerKey(mode: Visibility, run: seq<Label>, r: nat, q: nat, c: Call)
    requires ValidRun(New(mode), run) && SafeRun(New(mode), run)
    requires var s := After(New(mode), run);
             r in s.rows && q in s.rows && Matches(s.rows[r], c) && Matches(s.rows[q], c)
    ensures var s := After(New(mode), run);
            r == q && Has(s.rows[r].content, History(s, c))
  {
    RunKeepsInv(New(mode), run);
  }

  lemma HistoryStep(s: Repo, l: Label, c: Call)
    requires Inv(s) && Enabled(s, l) && Safe(s, l)
    ensures History(s, c) <= History(Step(s, l), c)
  {
    if l.WriteOk? && s.mode.AtOnce? {
      ToLands(s, l.p, s.persists[l.p].phase.write, Releasing(None));
      StoredHistory(s, Step(s, l), l.p, c);
    } else if l.Commit? {
      ToLands(s, l.p, s.persists[l.p].phase.write, Finished);
      StoredHistory(s, Step(s, l), l.p, c);
    } else {
      SameHistory(s, l, c);
    }
  }

  lemma SameHistory(s: Repo, l: Label, c: Call)
    requires Ordered(s) && Enabled(s, l) && !l.Commit? && !(l.WriteOk? && s.mode.AtOnce?)
    ensures History(Step(s, l), c) == History(s, c)
  {
    var t := Step(s, l);
    if l.Acquire? { assert t.acquired[..|t.acquired| - 1] == s.acquired; } else { BatchesStay(s, l); }
    BatchesFrame(s.persists, t.persists, s.acquired, s.stored, c);
  }

  /** A key's history only ever grows at its end. */
  lemma {:induction false} HistoryGrows(s: Repo, run: seq<Label>, c: Call)
    requires Inv(s) && ValidRun(s, run) && SafeRun(s, run)
    ensures History(s, c) <= History(After(s, run), c)
    decreases |run|
  {
    if run != [] {
      HistoryStep(s, run[0], c);
      InvStep(s, run[0]);
      HistoryGrows(Step(s, run[0]), run[1..], c);
    }
  }

  /** With a store whose writes show at once, checkpoints that leave `history` and `domainId` alone are all a
      run needs. */
  lemma {:induction false} AtOnceIsSafe(s: Repo, run: seq<Label>)
    requires s.mode.AtOnce? && Holds(s) && ValidRun(s, run)
    requires forall l :: l in run && l.Found? ==> "domainId" !in l.checkpoint && "history" !in l.checkpoint
    ensures SafeRun(s, run)
    decreases |run|
  {
    if run != [] {
      assert run[0] in run;
      assert Safe(s, run[0]);
      HoldsStep(s, run[0]);
      AtOnceIsSafe(Step(s, run[0]), run[1..]);
    }
  }

  /** Which checkpoints do no harm: what is put together for the key is the whole history with the batch, under
      the right id, exactly when the checkpoint has neither key of the record or repeats its value. */
  lemma CheckpointIsHarmlessExactlyWhen(s: Repo, p: nat, row: Option<nat>, checkpoint: Content)
    requires Recorded(s) && Enabled(s, Found(p, row, checkpoint))
    ensures var c, batch := s.persists[p].call, s.persists[p].batch;
            var next := WriteOf(Prepared(s, c, batch, row, checkpoint));
            (next.Some? && Complete(s, p, next.value)) <==>
            ("domainId" in checkpoint ==> checkpoint["domainId"] == Text(c.id))
            && ("history" in checkpoint ==> checkpoint["history"] == Events(History(s, c) + batch))
  {
    var c := s.persists[p].call;
    match row
    case None => NothingStored(s.persists, s.acquired, s.stored, c);
    case Some(r) => assert Has(s.rows[r].content, History(s, c));
  }

  lemma Snoc(s: Repo, run: seq<Label>, t: Repo, l: Label) returns (run': seq<Label>, t': Repo)
    requires ValidRun(s, run) && After(s, run) == t && Enabled(t, l)
    ensures run' == run + [l] && t' == Step(t, l) && ValidRun(s, run') && After(s, run') == t'
    decreases |run|
  {
    run', t' := run + [l], Step(t, l);
    if run == [] {
      assert run'[1..] == [];
    } else {
      var rest, _ := Snoc(Step(s, run[0]), run[1..], t, l);
      assert run'[1..] == rest;
    }
  }

  /** The lock ends before the transaction does.  With a store that shows writes at the commit, two persists of
      one key can both find no record, and two records result. */
  lemma LockEndsBeforeCommit() returns (run: seq<Label>)
    ensures ValidRun(New(AtCommit), run)
    ensures NoFailure(run)
    ensures var s := After(New(AtCommit), run);
            var c := Call(0, "t", "account", "1");
            0 in s.rows && 1 in s.rows && Matches(s.rows[0], c) && Matches(s.rows[1], c)
  {
    var s;
    var c, d := Call(0, "t", "account", "1"), Call(1, "t", "account", "1");
    run, s := ToCommitting([], New(AtCommit), 0, c);
    run, s := ToCommitting(run, s, 1, d);
    run, s := Snoc(New(AtCommit), run, s, Commit(0));
    run, s := Snoc(New(AtCommit), run, s, Commit(1));
  }

  ghost predicate NoFailure(run: seq<Label>) {
    forall l :: l in run ==> !l.LockFails? && !l.StepFails? && !l.Rollback? && (l.Found? ==> l.checkpoint == map[])
  }

  function Empty(c: Call): Content { map["domainId" := Text(c.id), "history" := Events([])] }

  /** One persist up to the release of its lock, on a store without rows. */
  lemma ToCommitting(before: seq<Label>, s: Repo, p: nat, c: Call) returns (run: seq<Label>, t: Repo)
    requires ValidRun(New(AtCommit), before) && After(New(AtCommit), before) == s && NoFailure(before)
    requires s.rows == map[] && s.locks == map[] && s.mode.AtCommit? && p !in s.persists && At(s.newEvents, c.agg) == []
    ensures ValidRun(New(AtCommit), run) && After(New(AtCommit), run) == t && NoFailure(run)
    ensures t.rows == map[] && t.nextRow == s.nextRow && t.locks == map[] && t.mode.AtCommit?
    ensures t.persists == s.persists[p := Persist(c, Committing(Create(Empty(c))), [])]
    ensures t.newEvents == s.newEvents[c.agg := []]
  {
    run, t := Snoc(New(AtCommit), before, s, Begin(p, c));
    run, t := Snoc(New(AtCommit), run, t, Acquire(p));
    assert t.persists == s.persists[p := Persist(c, Finding, [])] && t.locks == map[LockKey(c) := p];
    run, t := FoundToCommitting(run, t, p, c);
    assert t.persists == s.persists[p := Persist(c, Committing(Create(Empty(c))), [])];
  }

  lemma FoundToCommitting(before: seq<Label>, s: Repo, p: nat, c: Call) returns (run: seq<Label>, t: Repo)
    requires ValidRun(New(AtCommit), before) && After(New(AtCommit), before) == s && NoFailure(before)
    requires s.rows == map[] && s.locks == map[LockKey(c) := p] && s.mode.AtCommit?
    requires p in s.persists && s.persists[p] == Persist(c, Finding, [])
    ensures ValidRun(New(AtCommit), run) && After(New(AtCommit), run) == t && NoFailure(run)
    ensures t == s.(locks := map[], persists := s.persists[p := Persist(c, Committing(Create(Empty(c))), [])])
  {
    run, t := Snoc(New(AtCommit), before, s, Found(p, None, map[]));
    assert Empty(c) + map[] == Empty(c);
    assert t == To(s, p, Writing(Create(Empty(c))));
    run, t := WrittenToCommitting(run, t, p, c);
    assert t.persists == s.persists[p := Persist(c, Committing(Create(Empty(c))), [])];
  }

  lemma WrittenToCommitting(before: seq<Label>, s: Repo, p: nat, c: Call) returns (run: seq<Label>, t: Repo)
    requires ValidRun(New(AtCommit), before) && After(New(AtCommit), before) == s && NoFailure(before)
    requires s.locks == map[LockKey(c) := p] && s.mode.AtCommit?
    requires p in s.persists && s.persists[p] == Persist(c, Writing(Create(Empty(c))), [])
    ensures ValidRun(New(AtCommit), run) && After(New(AtCommit), run) == t && NoFailure(run)
    ensures t == s.(locks := map[], persists := s.persists[p := Persist(c, Committing(Create(Empty(c))), [])])
  {
    run, t := Snoc(New(AtCommit), before, s, WriteOk(p));
    assert t == To(s, p, Releasing(Some(Create(Empty(c)))));
    run, t := Snoc(New(AtCommit), run, t, Release(p));
    assert t.locks == map[];
  }

  ghost predicate HarmlessCheckpoints(run: seq<Label>) {
    forall l :: l in run && l.Found? ==> "domainId" !in l.checkpoint && "history" !in l.checkpoint
  }

  ghost predicate OneRowPerKey(s: Repo) {
    forall r, q, c :: r in s.rows && q in s.rows && Matches(s.rows[r], c) && Matches(s.rows[q], c) ==> r == q
  }

  /** With harmless checkpoints every run leaves at most one record for each key exactly when the store shows
      writes at once: the lock is given up before the transaction commits. */
  lemma OneRowExactlyWhen(mode: Visibility)
    ensures mode.AtOnce? <==>
            forall run :: ValidRun(New(mode), run) && HarmlessCheckpoints(run) ==> OneRowPerKey(After(New(mode), run))
  {
    if mode.AtOnce? {
      forall run | ValidRun(New(mode), run) && HarmlessCheckpoints(run) ensures OneRowPerKey(After(New(mode), run)) {
        AtOnceIsSafe(New(mode), run);
        RunKeepsInv(New(mode), run);
      }
    } else {
      var run := LockEndsBeforeCommit();
      var s, c := After(New(AtCommit), run), Call(0, "t", "account", "1");
      assert 0 in s.rows && 1 in s.rows && Matches(s.rows[0], c) && Matches(s.rows[1], c);
    }
  }
}
