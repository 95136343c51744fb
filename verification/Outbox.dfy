/**
 The transactional outbox: emits that persist an entry inside a transaction, and flushes that send what they
 read and remove it, each in a transaction of its own.  Entries are named by the order of their emits.
 */
module Outbox {
  /** Opened: the transaction has begun.  Sending: `sendBatch` is awaited.  Removing: it resolved and
      `removeOutboxEntries` is awaited.  Reconnecting: the broker answered "unknown producer" and a new producer
      is being connected.  Awaiting: it waits for the flush it started after that.  Committing: the callback
      returned, having removed `removed` in the transaction.  Ending: committed or rolled back, the `finally`
      has not run. */
  datatype Flush =
    | Opened
    | Sending(batch: seq<nat>)
    | Removing(batch: seq<nat>)
    | Reconnecting
    | Awaiting(inner: nat)
    | Committing(removed: seq<nat>)
    | Ending

  /** emits: entries persisted in open transactions.  outbox: committed rows, oldest first.  committed: every
      entry ever committed, in commit order.  broker: the entries sent, in order, with repetitions. */
  datatype System = System(nextEntry: nat, emits: set<nat>, rolledBack: set<nat>, committed: seq<nat>,
                           outbox: seq<nat>, broker: seq<nat>, isFlushing: bool, flushes: map<nat, Flush>,
                           nextFlush: nat, recordsSent: nat)

  datatype Label =
    | EmitPersist
    | EmitCommit(e: nat)
    | EmitRollback(e: nat)
    | FlushBegin
    | FlushRead(f: nat)
    | ReadFails(f: nat)
    | SendOk(f: nat)
    | SendFails(f: nat, part: seq<nat>)
    | ProducerUnknown(f: nat, part: seq<nat>)
    | Reconnected(f: nat)
    | ReconnectFails(f: nat)
    | InnerEnded(f: nat)
    | RemoveOk(f: nat)
    | RemoveFails(f: nat)
    | CommitOk(f: nat)
    | CommitFails(f: nat)
    | FlushEnd(f: nat)

  const New: System := System(0, {}, {}, [], [], [], false, map[], 0, 0)

  /** A batch that fails may still have reached the broker in part. */
  predicate PartOf(part: seq<nat>, batch: seq<nat>) { forall e :: e in part ==> e in batch }

  function Without(rows: seq<nat>, removed: seq<nat>): (r: seq<nat>)
    ensures forall e :: e in r <==> e in rows && e !in removed
  {
    if rows == [] then []
    else (if rows[0] in removed then [] else [rows[0]]) + Without(rows[1..], removed)
  }

  predicate Enabled(s: System, l: Label) {
    match l
    case EmitPersist => true
    case EmitCommit(e) => e in s.emits
    case EmitRollback(e) => e in s.emits
    case FlushBegin => true
    case FlushRead(f) => f in s.flushes && s.flushes[f].Opened?
    case ReadFails(f) => f in s.flushes && s.flushes[f].Opened?
    case SendOk(f) => f in s.flushes && s.flushes[f].Sending?
    case SendFails(f, part) => f in s.flushes && s.flushes[f].Sending? && PartOf(part, s.flushes[f].batch)
    case ProducerUnknown(f, part) => f in s.flushes && s.flushes[f].Sending? && PartOf(part, s.flushes[f].batch)
    case Reconnected(f) => f in s.flushes && s.flushes[f].Reconnecting?
    case ReconnectFails(f) => f in s.flushes && s.flushes[f].Reconnecting?
    case InnerEnded(f) => f in s.flushes && s.flushes[f].Awaiting? && s.flushes[f].inner !in s.flushes
    case RemoveOk(f) => f in s.flushes && s.flushes[f].Removing?
    case RemoveFails(f) => f in s.flushes && s.flushes[f].Removing?
    case CommitOk(f) => f in s.flushes && s.flushes[f].Committing?
    case CommitFails(f) => f in s.flushes && s.flushes[f].Committing?
    case FlushEnd(f) => f in s.flushes && s.flushes[f].Ending?
  }

  /** `flush()`: a no-op while `isFlushing` is set. */
  function Begin(s: System): System {
    if s.isFlushing then s
    else s.(isFlushing := true, flushes := s.flushes[s.nextFlush := Opened], nextFlush := s.nextFlush + 1)
  }

  function Step(s: System, l: Label): System
    requires Enabled(s, l)
  {
    match l
    case EmitPersist => s.(emits := s.emits + {s.nextEntry}, nextEntry := s.nextEntry + 1)
    case EmitCommit(e) => s.(emits := s.emits - {e}, outbox := s.outbox + [e], committed := s.committed + [e])
    case EmitRollback(e) => s.(emits := s.emits - {e}, rolledBack := s.rolledBack + {e})
    case FlushBegin => Begin(s)
    case FlushRead(f) =>
      if s.outbox == [] then s.(isFlushing := false, flushes := s.flushes[f := Committing([])])
      else s.(flushes := s.flushes[f := Sending(s.outbox)])
    case ReadFails(f) => s.(flushes := s.flushes[f := Ending])
    case SendOk(f) =>
      s.(broker := s.broker + s.flushes[f].batch, recordsSent := s.recordsSent + |s.flushes[f].batch|,
         flushes := s.flushes[f := Removing(s.flushes[f].batch)])
    case SendFails(f, part) => s.(broker := s.broker + part, flushes := s.flushes[f := Ending])
    case ProducerUnknown(f, part) => s.(broker := s.broker + part, flushes := s.flushes[f := Reconnecting])
    case Reconnected(f) =>
      Begin(s.(flushes := s.flushes[f := if s.isFlushing then Committing([]) else Awaiting(s.nextFlush)]))
    case ReconnectFails(f) => s.(flushes := s.flushes[f := Ending])
    case InnerEnded(f) => s.(flushes := s.flushes[f := Committing([])])
    case RemoveOk(f) => s.(isFlushing := false, flushes := s.flushes[f := Committing(s.flushes[f].batch)])
    case RemoveFails(f) => s.(flushes := s.flushes[f := Ending])
    case CommitOk(f) => s.(outbox := Without(s.outbox, s.flushes[f].removed), flushes := s.flushes[f := Ending])
    case CommitFails(f) => s.(flushes := s.flushes[f := Ending])
    case FlushEnd(f) => s.(isFlushing := false, flushes := s.flushes - {f})
  }

  ghost predicate ValidRun(s: System, run: seq<Label>)
    decreases |run|
  {
    run == [] || (Enabled(s, run[0]) && ValidRun(Step(s, run[0]), run[1..]))
  }

  ghost function After(s: System, run: seq<Label>): System
    requires ValidRun(s, run)
    decreases |run|
  {
    if run == [] then s else After(Step(s, run[0]), run[1..])
  }

  // ---------------------------------------------------------------- at least once, no phantom

  /** What a flush holds was committed, and what it has removed was also sent. */
  ghost predicate FlushOk(s: System, x: Flush) {
    match x
    case Sending(batch) => forall e :: e in batch ==> e in s.committed
    case Removing(batch) => forall e :: e in batch ==> e in s.committed && e in s.broker
    case Committing(removed) => forall e :: e in removed ==> e in s.committed && e in s.broker
    case _ => true
  }

  ghost predicate Durable(s: System) {
    && (forall e :: e in s.committed ==> e in s.outbox || e in s.broker)
    && (forall e :: e in s.outbox || e in s.broker ==> e in s.committed)
  }

  ghost predicate Distinct(x: seq<nat>) { forall i, j :: 0 <= i < j < |x| ==> x[i] != x[j] }

  ghost predicate Separate(s: System) {
    && Distinct(s.committed)
    && (forall e :: e in s.committed ==> e < s.nextEntry && e !in s.emits && e !in s.rolledBack)
    && (forall e :: e in s.emits ==> e < s.nextEntry && e !in s.rolledBack)
    && (forall e :: e in s.rolledBack ==> e < s.nextEntry)
  }

  ghost predicate FlushesOk(s: System) {
    forall f :: f in s.flushes ==> f < s.nextFlush && FlushOk(s, s.flushes[f])
  }

  ghost predicate Inv(s: System) { Durable(s) && Separate(s) && FlushesOk(s) }

  lemma KeepsFlushes(s: System, t: System)
    requires FlushesOk(s)
    requires forall e :: e in s.committed ==> e in t.committed
    requires forall e :: e in s.broker ==> e in t.broker
    ensures forall f :: f in s.flushes ==> FlushOk(t, s.flushes[f])
  {
    forall f | f in s.flushes ensures FlushOk(t, s.flushes[f]) { assert FlushOk(s, s.flushes[f]); }
  }

  lemma LogsGrow(s: System, l: Label)
    requires Enabled(s, l)
    ensures forall e :: e in s.committed ==> e in Step(s, l).committed
    ensures forall e :: e in s.broker ==> e in Step(s, l).broker
  {
  }

  /** A flush's own step leaves it in a phase whose claim holds. */
  lemma OwnFlush(s: System, l: Label)
    requires Durable(s) && FlushesOk(s) && Enabled(s, l) && IsFlushStep(l) && !l.FlushEnd?
    ensures l.f in Step(s, l).flushes && FlushOk(Step(s, l), Step(s, l).flushes[l.f])
  {
    assert FlushOk(s, s.flushes[l.f]);
  }

  predicate IsFlushStep(l: Label) { !l.EmitPersist? && !l.EmitCommit? && !l.EmitRollback? && !l.FlushBegin? }

  lemma OtherFlushes(s: System, l: Label, g: nat)
    requires Enabled(s, l) && g in Step(s, l).flushes && !(IsFlushStep(l) && g == l.f)
    ensures (g in s.flushes && Step(s, l).flushes[g] == s.flushes[g])
            || (g == s.nextFlush && Step(s, l).flushes[g] == Opened)
    ensures s.nextFlush <= Step(s, l).nextFlush && (g !in s.flushes ==> g < Step(s, l).nextFlush)
  {
  }

  lemma FlushesStep(s: System, l: Label)
    requires Durable(s) && FlushesOk(s) && Enabled(s, l)
    ensures FlushesOk(Step(s, l))
  {
    var t := Step(s, l);
    LogsGrow(s, l);
    KeepsFlushes(s, t);
    forall g | g in t.flushes ensures g < t.nextFlush && FlushOk(t, t.flushes[g]) {
      if IsFlushStep(l) && g == l.f {
        OwnFlush(s, l);
      } else {
        OtherFlushes(s, l, g);
      }
    }
  }

  lemma SeparateStep(s: System, l: Label)
    requires Separate(s) && Enabled(s, l)
    ensures Separate(Step(s, l))
  {
  }

  lemma DurableStep(s: System, l: Label)
    requires Durable(s) && FlushesOk(s) && Enabled(s, l)
    ensures Durable(Step(s, l))
  {
    match l
    case SendOk(f) => assert FlushOk(s, s.flushes[f]);
    case SendFails(f, _) => assert FlushOk(s, s.flushes[f]);
    case ProducerUnknown(f, _) => assert FlushOk(s, s.flushes[f]);
    case CommitOk(f) => assert FlushOk(s, s.flushes[f]);
    case _ =>
  }

  lemma InvStep(s: System, l: Label)
    requires Inv(s) && Enabled(s, l)
    ensures Inv(Step(s, l))
  {
    DurableStep(s, l);
    SeparateStep(s, l);
    FlushesStep(s, l);
  }

  lemma {:induction false} RunKeepsInv(s: System, run: seq<Label>)
    requires Inv(s) && ValidRun(s, run)
    ensures Inv(After(s, run))
    decreases |run|
  {
    if run != [] {
      InvStep(s, run[0]);
      RunKeepsInv(Step(s, run[0]), run[1..]);
    }
  }

  /** Over every run with failing sends, rollbacks and overlapping flushes: a committed entry is still in the
      outbox or has been sent, nothing that was not committed is ever sent, and a rolled-back emit's entry
      never is. */
  lemma AtLeastOnceNoPhantom(run: seq<Label>)
    requires ValidRun(New, run)
    ensures var s := After(New, run);
            && (forall e :: e in s.committed ==> e in s.outbox || e in s.broker)
            && (forall e :: e in s.broker ==> e in s.committed)
            && (forall e :: e in s.rolledBack || e in s.emits ==> e !in s.broker && e !in s.outbox)
            && (forall e :: EmitCommit(e) in run ==> e in s.outbox || e in s.broker)
            && (forall e :: EmitCommit(e) !in run || EmitRollback(e) in run ==> e !in s.outbox && e !in s.broker)
  {
    RunKeepsInv(New, run);
    forall e { EmitsEnd(New, run, e); }
  }

  lemma {:induction false} EmitsEnd(s: System, run: seq<Label>, e: nat)
    requires ValidRun(s, run)
    ensures e in After(s, run).committed <==> e in s.committed || EmitCommit(e) in run
    ensures e in After(s, run).rolledBack <==> e in s.rolledBack || EmitRollback(e) in run
    decreases |run|
  {
    if run != [] {
      EmitsEnd(Step(s, run[0]), run[1..], e);
      assert run == [run[0]] + run[1..];
      assert EmitCommit(e) in run <==> run[0] == EmitCommit(e) || EmitCommit(e) in run[1..];
      assert EmitRollback(e) in run <==> run[0] == EmitRollback(e) || EmitRollback(e) in run[1..];
    }
  }

  /** `isFlushing` never stays set without an open flush, so once all have ended the next tick begins one. */
  lemma {:induction false} NeverStuck(s: System, run: seq<Label>)
    requires ValidRun(s, run) && (s.isFlushing ==> s.flushes != map[])
    ensures var t := After(s, run);
            && (t.isFlushing ==> t.flushes != map[])
            && (t.flushes == map[] ==> Step(t, FlushBegin).flushes.Keys == {t.nextFlush})
    decreases |run|
  {
    if run != [] {
      FlagStep(s, run[0]);
      NeverStuck(Step(s, run[0]), run[1..]);
    }
  }

  lemma FlagStep(s: System, l: Label)
    requires Enabled(s, l) && (s.isFlushing ==> s.flushes != map[])
    ensures Step(s, l).isFlushing ==> Step(s, l).flushes != map[]
  {
    var t := Step(s, l);
    match l
    case EmitPersist =>
    case EmitCommit(_) =>
    case EmitRollback(_) =>
    case FlushBegin => if !s.isFlushing { assert s.nextFlush in t.flushes; }
    case FlushEnd(_) =>
    case _ => assert l.f in t.flushes;
  }

  /** A flush that has started another one waits for as long as that one is open. */
  lemma {:induction false} WaitsForInner(s: System, run: seq<Label>, f: nat, inner: nat)
    requires ValidRun(s, run) && f in s.flushes && s.flushes[f] == Awaiting(inner) && f < s.nextFlush
    requires forall i :: 0 <= i < |run| ==> run[i] != FlushEnd(inner)
    requires inner in s.flushes
    ensures var t := After(s, run); f in t.flushes && t.flushes[f] == Awaiting(inner)
    decreases |run|
  {
    if run != [] {
      assert forall i :: 0 <= i < |run[1..]| ==> run[1..][i] == run[i + 1];
      WaitsForInner(Step(s, run[0]), run[1..], f, inner);
    }
  }

  /** Only a committing flush takes rows away, and only rows it read and sent. */
  lemma RemovalIsSent(s: System, l: Label, e: nat)
    requires Inv(s) && Enabled(s, l) && e in s.outbox && e !in Step(s, l).outbox
    ensures l.CommitOk? && e in s.flushes[l.f].removed && e in s.broker
  {
    if l.CommitOk? { assert FlushOk(s, s.flushes[l.f]); }
  }

  // ---------------------------------------------------------------- one flush at a time

  /** No flush begins while another one's transaction is open: the timer and the notifications leave a flush
      the time between the reset of `isFlushing` and its commit. */
  ghost predicate OneAtATime(s: System, run: seq<Label>)
    requires ValidRun(s, run)
    decreases |run|
  {
    run == [] || ((run[0].FlushBegin? ==> s.isFlushing || s.flushes == map[]) && OneAtATime(Step(s, run[0]), run[1..]))
  }

  ghost predicate Exclusive(s: System) {
    && (forall f, g :: f in s.flushes && g in s.flushes ==> f == g)
    && (forall f :: f in s.flushes ==> !s.flushes[f].Awaiting?)
    && (forall f :: f in s.flushes ==> s.isFlushing || s.flushes[f].Committing? || s.flushes[f].Ending?)
    && (s.isFlushing ==> s.flushes != map[])
  }

  lemma ExclusiveStep(s: System, l: Label)
    requires Exclusive(s) && Enabled(s, l) && (l.FlushBegin? ==> s.isFlushing || s.flushes == map[])
    ensures Exclusive(Step(s, l))
  {
    var t := Step(s, l);
    match l
    case EmitPersist =>
    case EmitCommit(_) =>
    case EmitRollback(_) =>
    case FlushBegin => if !s.isFlushing { assert s.nextFlush in t.flushes; }
    case InnerEnded(_) =>
    case FlushEnd(f) => assert t.flushes.Keys <= {f};
    case _ => assert l.f in t.flushes && forall g :: g in s.flushes ==> g == l.f;
  }

  /** A flush that starts over after "unknown producer" finds `isFlushing` set by itself and sends nothing: the
      rows wait for the next tick. */
  lemma {:induction false} RetryIsSkipped(s: System, run: seq<Label>)
    requires Exclusive(s) && ValidRun(s, run) && OneAtATime(s, run)
    ensures Exclusive(After(s, run))
    decreases |run|
  {
    if run != [] {
      ExclusiveStep(s, run[0]);
      RetryIsSkipped(Step(s, run[0]), run[1..]);
    }
  }

  // ---------------------------------------------------------------- exactly once

  predicate Fails(l: Label) {
    l.ReadFails? || l.SendFails? || l.ProducerUnknown? || l.ReconnectFails? || l.RemoveFails? || l.CommitFails?
  }

  predicate NoFailure(run: seq<Label>) { forall i :: 0 <= i < |run| ==> !Fails(run[i]) }

  /** The rows that a flush has read and not yet removed for good. */
  function Held(x: Flush): seq<nat> {
    match x
    case Sending(batch) => batch
    case Removing(batch) => batch
    case Committing(removed) => removed
    case _ => []
  }

  /** Flush f reads a row that another open flush holds. */
  predicate SharesRow(s: System, f: nat) {
    exists g :: g in s.flushes && g != f && exists e :: e in Held(s.flushes[g]) && e in s.outbox
  }

  /** No flush of the run reads a row that another open flush holds. */
  ghost predicate NoSharedRead(s: System, run: seq<Label>)
    requires ValidRun(s, run)
    decreases |run|
  {
    run == [] || ((run[0].FlushRead? ==> !SharesRow(s, run[0].f)) && NoSharedRead(Step(s, run[0]), run[1..]))
  }

  /** How far a flush has got with the rows it holds. */
  ghost predicate Fits(s: System, x: Flush) {
    if x.Sending? then x.batch <= s.outbox && s.committed == s.broker + s.outbox else Sent(s, Held(x))
  }

  predicate NoneHeld(flushes: map<nat, Flush>, f: nat) { forall g :: g in flushes && g != f ==> Held(flushes[g]) == [] }

  /** At most one flush holds rows, and it is in its place. */
  ghost predicate Tidy(s: System) {
    && (forall f :: f in s.flushes ==> !s.flushes[f].Reconnecting? && !s.flushes[f].Awaiting?)
    && (forall f :: f in s.flushes && (s.flushes[f].Sending? || s.flushes[f].Removing?) ==> s.flushes[f].batch != [])
    && (forall f :: f in s.flushes && Held(s.flushes[f]) != [] ==> NoneHeld(s.flushes, f) && Fits(s, s.flushes[f]))
    && ((forall f :: f in s.flushes ==> Held(s.flushes[f]) == []) ==> s.committed == s.broker + s.outbox)
  }

  /** batch is both the end of the broker log and the head of the outbox. */
  ghost predicate Sent(s: System, batch: seq<nat>) {
    && |batch| <= |s.broker| && s.broker[|s.broker| - |batch|..] == batch
    && batch <= s.outbox
    && s.committed == s.broker + s.outbox[|batch|..]
  }

  lemma {:induction false} WithoutNone(rows: seq<nat>, batch: seq<nat>)
    requires forall e :: e in rows ==> e !in batch
    ensures Without(rows, batch) == rows
  {
    if rows != [] {
      assert rows[0] in rows;
      assert forall e :: e in rows[1..] ==> e in rows;
      WithoutNone(rows[1..], batch);
    }
  }

  lemma {:induction false} WithoutHead(head: seq<nat>, rest: seq<nat>, batch: seq<nat>)
    requires (forall e :: e in head ==> e in batch) && (forall e :: e in rest ==> e !in batch)
    ensures Without(head + rest, batch) == rest
  {
    if head == [] {
      assert head + rest == rest;
      WithoutNone(rest, batch);
    } else {
      assert head[0] in head;
      assert (head + rest)[1..] == head[1..] + rest;
      assert forall e :: e in head[1..] ==> e in head;
      WithoutHead(head[1..], rest, batch);
    }
  }

  lemma DistinctParts(a: seq<nat>, b: seq<nat>)
    requires Distinct(a + b)
    ensures forall e :: e in b ==> e !in a
  {
    forall i, j | 0 <= i < |a| && 0 <= j < |b| ensures a[i] != b[j] {
      assert (a + b)[i] == a[i] && (a + b)[|a| + j] == b[j];
    }
  }

  lemma RemoveBatch(s: System, batch: seq<nat>)
    requires Distinct(s.committed) && Sent(s, batch)
    ensures Without(s.outbox, batch) == s.outbox[|batch|..]
  {
    var rest := s.outbox[|batch|..];
    assert s.outbox == batch + rest;
    var start := |s.broker| - |batch|;
    assert batch + rest == s.committed[start..];
    assert forall i :: 0 <= i < |batch + rest| ==> (batch + rest)[i] == s.committed[start + i];
    DistinctParts(batch, rest);
    WithoutHead(batch, rest, batch);
  }

  /** Flush f moves to phase x, holding rows that nobody else holds, or none while nobody does. */
  lemma TidyMove(s: System, t: System, f: nat, x: Flush)
    requires Tidy(s) && f in s.flushes && t.flushes == s.flushes[f := x] && NoneHeld(s.flushes, f)
    requires !x.Reconnecting? && !x.Awaiting? && (x.Sending? || x.Removing? ==> x.batch != [])
    requires if Held(x) == [] then t.committed == t.broker + t.outbox else Fits(t, x)
    ensures Tidy(t)
  {
    assert f in t.flushes && t.flushes[f] == x;
  }

  /** A flush that holds nothing moves on while the logs stay: the holder, if any, does not notice. */
  lemma TidyIdle(s: System, t: System, f: nat)
    requires Tidy(s) && (f in s.flushes ==> Held(s.flushes[f]) == [])
    requires t.committed == s.committed && t.outbox == s.outbox && t.broker == s.broker
    requires t.flushes == s.flushes - {f} || (f in t.flushes && t.flushes == s.flushes[f := t.flushes[f]])
    requires f in t.flushes ==> Held(t.flushes[f]) == [] && !t.flushes[f].Reconnecting? && !t.flushes[f].Awaiting?
                                && !t.flushes[f].Sending? && !t.flushes[f].Removing?
    ensures Tidy(t)
  {
    if forall g :: g in t.flushes ==> Held(t.flushes[g]) == [] {
      assert forall g :: g in s.flushes ==> g == f || g in t.flushes;
    }
  }

  lemma TidySend(s: System, f: nat)
    requires Tidy(s) && Enabled(s, SendOk(f))
    ensures Tidy(Step(s, SendOk(f)))
  {
    var batch := s.flushes[f].batch;
    var t := Step(s, SendOk(f));
    assert Held(s.flushes[f]) != [];
    assert t.broker[|t.broker| - |batch|..] == batch;
    assert s.outbox == batch + s.outbox[|batch|..];
    TidyMove(s, t, f, Removing(batch));
  }

  lemma TidyRead(s: System, f: nat)
    requires Tidy(s) && Enabled(s, FlushRead(f)) && !SharesRow(s, f)
    ensures Tidy(Step(s, FlushRead(f)))
  {
    forall g | g in s.flushes ensures Held(s.flushes[g]) == [] {
      if g != f && Held(s.flushes[g]) != [] { HolderShares(s, f, g); }
    }
    TidyMove(s, Step(s, FlushRead(f)), f, if s.outbox == [] then Committing([]) else Sending(s.outbox));
  }

  /** What is held is in the outbox, so every read meanwhile shares it. */
  lemma HolderShares(s: System, f: nat, g: nat)
    requires Tidy(s) && g in s.flushes && g != f && Held(s.flushes[g]) != []
    ensures SharesRow(s, f)
  {
    var held := Held(s.flushes[g]);
    assert held <= s.outbox;
    assert held[0] in Held(s.flushes[g]) && s.outbox[0] in s.outbox && held[0] == s.outbox[0];
  }

  lemma TidyRemove(s: System, f: nat)
    requires Tidy(s) && Enabled(s, RemoveOk(f))
    ensures Tidy(Step(s, RemoveOk(f)))
  {
    var t := Step(s, RemoveOk(f));
    assert Held(s.flushes[f]) != [];
    assert Sent(t, s.flushes[f].batch);
    TidyMove(s, t, f, Committing(s.flushes[f].batch));
  }

  lemma TidyCommit(s: System, f: nat)
    requires Distinct(s.committed) && Tidy(s) && Enabled(s, CommitOk(f))
    ensures Tidy(Step(s, CommitOk(f)))
  {
    var removed := s.flushes[f].removed;
    if removed == [] {
      WithoutNone(s.outbox, []);
      TidyIdle(s, Step(s, CommitOk(f)), f);
    } else {
      TidyCommitHeld(s, f);
    }
  }

  lemma TidyCommitHeld(s: System, f: nat)
    requires Distinct(s.committed) && Tidy(s) && Enabled(s, CommitOk(f)) && s.flushes[f].removed != []
    ensures Tidy(Step(s, CommitOk(f)))
  {
    var removed := s.flushes[f].removed;
    assert Held(s.flushes[f]) == removed && Sent(s, removed) && NoneHeld(s.flushes, f);
    RemoveBatch(s, removed);
    TidyMove(s, Step(s, CommitOk(f)), f, Ending);
  }

  lemma TidyEmit(s: System, e: nat)
    requires Tidy(s) && Enabled(s, EmitCommit(e))
    ensures Tidy(Step(s, EmitCommit(e)))
  {
    var t := Step(s, EmitCommit(e));
    assert s.broker + t.outbox == (s.broker + s.outbox) + [e];
    forall f | f in s.flushes && Held(s.flushes[f]) != []
        ensures Fits(t, s.flushes[f]) { FitsMore(s, t, e, s.flushes[f]); }
  }

  lemma FitsMore(s: System, t: System, e: nat, x: Flush)
    requires Fits(s, x) && t.outbox == s.outbox + [e] && t.committed == s.committed + [e] && t.broker == s.broker
    ensures Fits(t, x)
  {
    assert s.broker + t.outbox == (s.broker + s.outbox) + [e];
    if !x.Sending? {
      var batch := Held(x);
      assert t.outbox[|batch|..] == s.outbox[|batch|..] + [e];
      assert s.broker + (s.outbox[|batch|..] + [e]) == (s.broker + s.outbox[|batch|..]) + [e];
    }
  }

  lemma TidyStep(s: System, l: Label)
    requires Inv(s) && Tidy(s) && Enabled(s, l) && !Fails(l) && (l.FlushRead? ==> !SharesRow(s, l.f))
    ensures Tidy(Step(s, l))
  {
    match l
    case EmitCommit(e) => TidyEmit(s, e);
    case FlushRead(f) => TidyRead(s, f);
    case SendOk(f) => TidySend(s, f);
    case RemoveOk(f) => TidyRemove(s, f);
    case CommitOk(f) => TidyCommit(s, f);
    case FlushEnd(f) => TidyIdle(s, Step(s, l), f);
    case FlushBegin => if !s.isFlushing { TidyIdle(s, Step(s, l), s.nextFlush); }
    case _ =>
  }

  lemma {:induction false} TidyRun(s: System, run: seq<Label>)
    requires Inv(s) && Tidy(s) && ValidRun(s, run) && NoFailure(run) && NoSharedRead(s, run)
    ensures Inv(After(s, run)) && Tidy(After(s, run))
    decreases |run|
  {
    if run != [] {
      InvStep(s, run[0]);
      TidyStep(s, run[0]);
      TidyRun(Step(s, run[0]), run[1..]);
    }
  }

  // ---------------------------------------------------------------- sent twice

  predicate Sends(s: System, f: nat, e: nat) { f in s.flushes && s.flushes[f].Sending? && e in s.flushes[f].batch }

  /** e has been sent twice, or will have been when the flushes that hold it are through. */
  ghost predicate Doubled(s: System, e: nat) {
    || (exists i, j :: 0 <= i < j < |s.broker| && s.broker[i] == s.broker[j] == e)
    || (e in s.broker && exists f :: Sends(s, f, e))
    || (exists f, g :: f != g && Sends(s, f, e) && Sends(s, g, e))
  }

  lemma SharedReadDoubles(s: System, f: nat) returns (e: nat)
    requires Inv(s) && Enabled(s, FlushRead(f)) && SharesRow(s, f)
    ensures Doubled(Step(s, FlushRead(f)), e)
  {
    var g :| g in s.flushes && g != f && exists e :: e in Held(s.flushes[g]) && e in s.outbox;
    e :| e in Held(s.flushes[g]) && e in s.outbox;
    assert FlushOk(s, s.flushes[g]);
    var t := Step(s, FlushRead(f));
    assert Sends(t, f, e) && t.flushes[g] == s.flushes[g];
    if s.flushes[g].Sending? { assert Sends(t, g, e); }
  }

  lemma DoubledStays(s: System, l: Label, e: nat)
    requires Doubled(s, e) && Enabled(s, l) && !Fails(l) && forall f :: f in s.flushes ==> f < s.nextFlush
    ensures Doubled(Step(s, l), e)
  {
    var t := Step(s, l);
    if l.SendOk? {
      if e in s.flushes[l.f].batch {
        SentMore(s, l.f, e);
      } else {
        forall f | Sends(s, f, e) ensures Sends(t, f, e) {}
        BrokerKeeps(s.broker, s.flushes[l.f].batch, e);
      }
    } else {
      assert t.broker == s.broker;
      forall f | Sends(s, f, e) ensures Sends(t, f, e) {}
    }
  }

  lemma BrokerKeeps(broker: seq<nat>, more: seq<nat>, e: nat)
    ensures e in broker ==> e in broker + more
    ensures (exists i, j :: 0 <= i < j < |broker| && broker[i] == broker[j] == e) ==>
              exists i, j :: 0 <= i < j < |broker + more| && (broker + more)[i] == (broker + more)[j] == e
  {
    if i, j :| 0 <= i < j < |broker| && broker[i] == broker[j] == e {
      assert (broker + more)[i] == (broker + more)[j] == e;
    }
  }

  lemma SentMore(s: System, f: nat, e: nat)
    requires Doubled(s, e) && Sends(s, f, e)
    ensures Doubled(Step(s, SendOk(f)), e)
  {
    var t := Step(s, SendOk(f));
    var batch := s.flushes[f].batch;
    var k :| 0 <= k < |batch| && batch[k] == e;
    assert t.broker[|s.broker| + k] == e;
    BrokerKeeps(s.broker, batch, e);
    if e in s.broker {
      var i :| 0 <= i < |s.broker| && s.broker[i] == e;
      assert t.broker[i] == e;
    } else {
      var a, b :| a != b && Sends(s, a, e) && Sends(s, b, e);
      var g := if a == f then b else a;
      assert Sends(t, g, e);
    }
  }

  lemma {:induction false} DoubledRun(s: System, run: seq<Label>, e: nat)
    requires Inv(s) && ValidRun(s, run) && NoFailure(run) && Doubled(s, e)
    ensures Doubled(After(s, run), e)
    decreases |run|
  {
    if run != [] {
      InvStep(s, run[0]);
      DoubledStays(s, run[0], e);
      DoubledRun(Step(s, run[0]), run[1..], e);
    }
  }

  lemma {:induction false} SharedRunDoubles(s: System, run: seq<Label>) returns (e: nat)
    requires Inv(s) && ValidRun(s, run) && NoFailure(run) && !NoSharedRead(s, run)
    ensures Doubled(After(s, run), e)
    decreases |run|
  {
    InvStep(s, run[0]);
    if run[0].FlushRead? && SharesRow(s, run[0].f) {
      e := SharedReadDoubles(s, run[0].f);
      DoubledRun(Step(s, run[0]), run[1..], e);
    } else {
      e := SharedRunDoubles(Step(s, run[0]), run[1..]);
    }
  }

  /** Without failures, and with every flush finished, each entry has been sent at most once - and the broker log
      followed by the outbox is the sequence of commits - exactly when no flush has read a row that another open
      flush was still sending or removing. */
  lemma SentOnceExactlyWhen(run: seq<Label>)
    requires ValidRun(New, run) && NoFailure(run) && After(New, run).flushes == map[]
    ensures Distinct(After(New, run).broker) <==> NoSharedRead(New, run)
    ensures var s := After(New, run); s.committed == s.broker + s.outbox <==> NoSharedRead(New, run)
  {
    RunKeepsInv(New, run);
    var s := After(New, run);
    if NoSharedRead(New, run) {
      TidyRun(New, run);
      PrefixDistinct(s.broker, s.outbox);
    } else {
      var e := SharedRunDoubles(New, run);
      assert forall f :: !Sends(s, f, e);
      if s.committed == s.broker + s.outbox { PrefixDistinct(s.broker, s.outbox); }
    }
  }

  lemma PrefixDistinct(x: seq<nat>, y: seq<nat>)
    requires Distinct(x + y)
    ensures Distinct(x)
  {
    assert forall i :: 0 <= i < |x| ==> x[i] == (x + y)[i];
  }

  /** `isFlushing` is reset before the removal commits, so without any failure two flushes can overlap and
      send an entry twice. */
  lemma OverlapSendsTwice() returns (run: seq<Label>)
    ensures ValidRun(New, run) && After(New, run).broker == [0, 0]
    ensures NoFailure(run)
  {
    var s;
    run, s := SentOnce();
    ghost var first := run;
    run, s := Then(New, run, s, FlushBegin);
    assert s.flushes == map[0 := Committing([0]), 1 := Opened];
    run, s := Then(New, run, s, FlushRead(1));
    assert s.flushes == map[0 := Committing([0]), 1 := Sending([0])];
    run, s := Then(New, run, s, SendOk(1));
    assert s.broker == [0, 0];
    assert run == first + [FlushBegin, FlushRead(1), SendOk(1)];
  }

  lemma SentOnce() returns (run: seq<Label>, s: System)
    ensures ValidRun(New, run) && After(New, run) == s
    ensures s == System(1, {}, {}, [0], [0], [0], false, map[0 := Committing([0])], 1, 1)
    ensures run == [EmitPersist, EmitCommit(0), FlushBegin, FlushRead(0), SendOk(0), RemoveOk(0)]
  {
    run, s := Then(New, [], New, EmitPersist);
    run, s := Then(New, run, s, EmitCommit(0));
    run, s := Then(New, run, s, FlushBegin);
    assert s.flushes[0] == Opened;
    run, s := Then(New, run, s, FlushRead(0));
    assert s.flushes[0] == Sending([0]);
    run, s := Then(New, run, s, SendOk(0));
    assert s.flushes[0] == Removing([0]);
    run, s := Then(New, run, s, RemoveOk(0));
  }

  lemma Then(base: System, run: seq<Label>, s: System, l: Label) returns (run': seq<Label>, s': System)
    requires ValidRun(base, run) && After(base, run) == s && Enabled(s, l)
    ensures run' == run + [l] && s' == Step(s, l) && ValidRun(base, run') && After(base, run') == s'
  {
    run', s' := run + [l], Step(s, l);
    Snoc(base, run, l);
  }

  lemma {:induction false} Snoc(s: System, run: seq<Label>, l: Label)
    requires ValidRun(s, run) && Enabled(After(s, run), l)
    ensures ValidRun(s, run + [l]) && After(s, run + [l]) == Step(After(s, run), l)
    decreases |run|
  {
    if run == [] {
      assert run + [l] == [l] && [l][1..] == [];
    } else {
      assert (run + [l])[1..] == run[1..] + [l];
      Snoc(Step(s, run[0]), run[1..], l);
    }
  }

  // ---------------------------------------------------------------- the objects

  lemma KeepOne(kept: seq<nat>, rows: seq<nat>, i: nat, removed: seq<nat>)
    requires i < |rows|
    ensures kept + Without(rows[i..], removed)
         == (if rows[i] in removed then kept else kept + [rows[i]]) + Without(rows[i + 1..], removed)
  {
    var rest, kept' := Without(rows[i + 1..], removed), kept + [rows[i]];
    assert rows[i..][1..] == rows[i + 1..];
    assert kept + ([rows[i]] + rest) == kept' + rest && [] + rest == rest;
  }

  /** The table behind `EventOutbox`: `persist` and `removeOutboxEntries` write to a transaction's own view. */
  class EventOutbox {
    var rows: seq<nat>
    var nextEntry: nat

    constructor ()
      ensures rows == [] && nextEntry == 0
    {
      rows, nextEntry := [], 0;
    }

    /** `emit`: persists inside a transaction and notifies; the entry shows only if the transaction commits. */
    method Emit(commits: bool) returns (entry: nat)
      modifies this
      ensures entry == old(nextEntry) && nextEntry == old(nextEntry) + 1
      ensures rows == old(rows) + (if commits then [entry] else [])
    {
      entry := nextEntry;
      var view := rows + [entry];
      nextEntry := nextEntry + 1;
      if commits { rows := view; }
    }

    /** Deletes the given rows, one by one. */
    method RemoveOutboxEntries(removed: seq<nat>)
      modifies this`rows
      ensures rows == Without(old(rows), removed)
    {
      ghost var was := rows;
      var kept: seq<nat> := [];
      var i := 0;
      while i < |rows|
        invariant 0 <= i <= |rows| && rows == was
        invariant kept + Without(rows[i..], removed) == Without(was, removed)
      {
        KeepOne(kept, rows, i, removed);
        if rows[i] !in removed { kept := kept + [rows[i]]; }
        i := i + 1;
      }
      rows := kept;
    }
  }

  /** What the collaborators answer during one flush. */
  datatype Outcome = Outcome(readFails: bool, sendFails: bool, unknownProducer: bool, reconnectFails: bool,
                             part: seq<nat>, removeFails: bool, commitFails: bool)

  /** What a flush that begins leaves behind: `s` and `t` are the outbox, the broker log and the count of
      records sent, before and after. */
  ghost predicate Flushed(x: Outcome, s: (seq<nat>, seq<nat>, nat), t: (seq<nat>, seq<nat>, nat)) {
    if x.readFails || s.0 == [] then t == s
    else if x.sendFails then t == (s.0, s.1 + x.part, s.2)
    else t == (if x.removeFails || x.commitFails then s.0 else [], s.1 + s.0, s.2 + |s.0|)
  }

  ghost predicate StepsOf(run: seq<Label>, f: nat) {
    forall l :: l in run ==> l.FlushBegin? || (!l.EmitPersist? && !l.EmitCommit? && !l.EmitRollback? && l.f == f)
  }

  /** With no flush open, a flush that meets the outcome `x` is a run of the machine, and leaves what `Flushed`
      says. */
  lemma FlushAlone(s: System, x: Outcome) returns (run: seq<Label>, t: System)
    requires s.flushes == map[] && !s.isFlushing && (x.sendFails ==> PartOf(x.part, s.outbox))
    ensures ValidRun(s, run) && After(s, run) == t && StepsOf(run, s.nextFlush)
    ensures t.flushes == map[] && !t.isFlushing
    ensures Flushed(x, (s.outbox, s.broker, s.recordsSent), (t.outbox, t.broker, t.recordsSent))
  {
    var f := s.nextFlush;
    run, t := Then(s, [], s, FlushBegin);
    assert t == s.(isFlushing := true, flushes := map[f := Opened], nextFlush := f + 1);
    if x.readFails {
      run, t := Then(s, run, t, ReadFails(f));
    } else {
      run, t := Then(s, run, t, FlushRead(f));
      if s.outbox == [] {
        WithoutNone(s.outbox, []);
        run, t := Then(s, run, t, CommitOk(f));
      } else {
        run, t := SendPart(s, run, t, f, x);
      }
    }
    run, t := Then(s, run, t, FlushEnd(f));
    assert t.flushes == map[];
  }

  lemma SendPart(base: System, before: seq<Label>, s: System, f: nat, x: Outcome) returns (run: seq<Label>, t: System)
    requires ValidRun(base, before) && After(base, before) == s && StepsOf(before, f)
    requires s.flushes == map[f := Sending(s.outbox)] && s.outbox != [] && s.isFlushing && !x.readFails
    requires x.sendFails ==> PartOf(x.part, s.outbox)
    ensures ValidRun(base, run) && After(base, run) == t && StepsOf(run, f)
    ensures t.flushes == map[f := Ending]
    ensures Flushed(x, (s.outbox, s.broker, s.recordsSent), (t.outbox, t.broker, t.recordsSent))
  {
    if !x.sendFails {
      run, t := SentPart(base, before, s, f, x);
    } else if x.unknownProducer {
      run, t := UnknownPart(base, before, s, f, x);
    } else {
      run, t := Then(base, before, s, SendFails(f, x.part));
    }
  }

  lemma UnknownPart(base: System, before: seq<Label>, s: System, f: nat, x: Outcome)
    returns (run: seq<Label>, t: System)
    requires ValidRun(base, before) && After(base, before) == s && StepsOf(before, f)
    requires s.flushes == map[f := Sending(s.outbox)] && s.isFlushing && PartOf(x.part, s.outbox)
    ensures ValidRun(base, run) && After(base, run) == t && StepsOf(run, f)
    ensures t.flushes == map[f := Ending]
    ensures t.outbox == s.outbox && t.broker == s.broker + x.part && t.recordsSent == s.recordsSent
  {
    run, t := Then(base, before, s, ProducerUnknown(f, x.part));
    assert t.flushes == map[f := Reconnecting];
    if x.reconnectFails {
      run, t := Then(base, run, t, ReconnectFails(f));
    } else {
      run, t := RetryPart(base, run, t, f);
    }
  }

  lemma RetryPart(base: System, before: seq<Label>, s: System, f: nat) returns (run: seq<Label>, t: System)
    requires ValidRun(base, before) && After(base, before) == s && StepsOf(before, f)
    requires s.flushes == map[f := Reconnecting] && s.isFlushing
    ensures ValidRun(base, run) && After(base, run) == t && StepsOf(run, f)
    ensures t == s.(flushes := map[f := Ending])
  {
    run, t := Then(base, before, s, Reconnected(f));
    assert t == s.(flushes := map[f := Committing([])]);
    WithoutNone(s.outbox, []);
    run, t := Then(base, run, t, CommitOk(f));
  }

  lemma SentPart(base: System, before: seq<Label>, s: System, f: nat, x: Outcome) returns (run: seq<Label>, t: System)
    requires ValidRun(base, before) && After(base, before) == s && StepsOf(before, f)
    requires s.flushes == map[f := Sending(s.outbox)]
    ensures ValidRun(base, run) && After(base, run) == t && StepsOf(run, f)
    ensures t.flushes == map[f := Ending]
    ensures t.outbox == (if x.removeFails || x.commitFails then s.outbox else [])
    ensures t.broker == s.broker + s.outbox && t.recordsSent == s.recordsSent + |s.outbox|
  {
    run, t := Then(base, before, s, SendOk(f));
    assert t.flushes == map[f := Removing(s.outbox)];
    if x.removeFails {
      run, t := Then(base, run, t, RemoveFails(f));
    } else {
      run, t := Then(base, run, t, RemoveOk(f));
      assert t.flushes == map[f := Committing(s.outbox)];
      run, t := CommitPart(base, run, t, f, x.commitFails);
    }
  }

  lemma CommitPart(base: System, before: seq<Label>, s: System, f: nat, fails: bool)
    returns (run: seq<Label>, t: System)
    requires ValidRun(base, before) && After(base, before) == s && StepsOf(before, f)
    requires s.flushes == map[f := Committing(s.outbox)]
    ensures ValidRun(base, run) && After(base, run) == t && StepsOf(run, f)
    ensures t == s.(flushes := map[f := Ending], outbox := if fails then s.outbox else [])
  {
    assert s.flushes[f := Ending] == map[f := Ending];
    if fails {
      run, t := Then(base, before, s, CommitFails(f));
    } else {
      WithoutHead(s.outbox, [], s.outbox);
      assert s.outbox + [] == s.outbox;
      run, t := Then(base, before, s, CommitOk(f));
    }
  }

  class KafkaOutboxSender {
    const outbox: EventOutbox
    var isFlushing: bool
    var recordsSent: nat
    ghost var broker: seq<nat>

    constructor (o: EventOutbox)
      ensures outbox == o && !isFlushing && recordsSent == 0 && broker == []
    {
      outbox, isFlushing, recordsSent, broker := o, false, 0, [];
    }

    /** A whole `flush()` that nothing interrupts. */
    method Flush(x: Outcome)
      requires x.sendFails ==> PartOf(x.part, outbox.rows)
      modifies this, outbox`rows
      ensures isFlushing == old(isFlushing)
      ensures old(isFlushing) ==>
              outbox.rows == old(outbox.rows) && broker == old(broker) && recordsSent == old(recordsSent)
      ensures !old(isFlushing) ==>
              Flushed(x, old((outbox.rows, broker, recordsSent)), (outbox.rows, broker, recordsSent))
      decreases !isFlushing
    {
      if isFlushing { return; }
      isFlushing := true;
      if !x.readFails {
        var outgoing := outbox.rows;
        if |outgoing| == 0 {
          isFlushing := false;
        } else if x.sendFails {
          broker := broker + x.part;
          if x.unknownProducer && !x.reconnectFails { Flush(x); }
        } else {
          broker := broker + outgoing;
          recordsSent := recordsSent + |outgoing|;
          if !x.removeFails {
            isFlushing := false;
            if !x.commitFails {
              WithoutHead(outgoing, [], outgoing);
              assert outgoing + [] == outgoing;
              outbox.RemoveOutboxEntries(outgoing);
            }
          }
        }
      }
      isFlushing := false;
    }
  }
}
