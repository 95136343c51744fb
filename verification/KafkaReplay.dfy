/**
 The Kafka cold replay: offsets handled per partition, and the test that ends the replay once every partition
 has reached the high watermark taken at the start.
 */
module KafkaReplay {
  type Offsets = map<nat, int>

  /** The topic as the brokers serve it: for each partition the offsets of its messages, in order.  Offsets may
      have gaps, and messages past the watermark may follow. */
  type Topic = map<nat, seq<nat>>

  ghost predicate IsTopic(topic: Topic) {
    forall p, i, j :: p in topic && 0 <= i < j < |topic[p]| ==> topic[p][i] < topic[p][j]
  }

  /** What is read before the consumer runs: the partitions of the metadata and the watermark of each. */
  datatype Snapshot = Snapshot(partitions: set<nat>, highs: map<nat, nat>)

  function Empties(highs: map<nat, nat>): set<nat> { set p | p in highs && highs[p] == 0 }

  function Unread(partitions: set<nat>): Offsets { map p | p in partitions :: -1 }

  /** The test in the `finally` block: no entry in `consumed` compares as not caught up. */
  predicate AllCaughtUp(highs: map<nat, nat>, consumed: Offsets) {
    forall p :: p in highs ==> highs[p] == 0 || (p in consumed && consumed[p] >= highs[p] - 1)
  }

  // ---------------------------------------------------------------- the replay as a machine

  /** Pausing: this partition's message passed the test, and `onDone` follows after a pause. */
  datatype Phase = Idle | Handling | Pausing

  /** next: index of the next delivery.  seen: how many messages have had their handler finish or fail. */
  datatype Part = Part(next: nat, seen: nat, phase: Phase)

  datatype Replay = Replay(snapshot: Snapshot, consumed: Offsets, parts: map<nat, Part>, signals: nat)

  /** Rewind: the consumer is restarted and delivers again from an earlier offset. */
  datatype Label = Deliver(p: nat) | Settle(p: nat) | Done(p: nat) | Rewind(p: nat, to: nat)

  function Start(snapshot: Snapshot, topic: Topic): Replay {
    Replay(snapshot, Unread(snapshot.partitions), map p | p in topic :: Part(0, 0, Idle), 0)
  }

  predicate Enabled(topic: Topic, s: Replay, l: Label) {
    && l.p in topic && l.p in s.parts
    && (match l
        case Deliver(p) => s.parts[p].phase.Idle? && s.parts[p].next < |topic[p]|
        case Settle(p) => s.parts[p].phase.Handling? && s.parts[p].next < |topic[p]|
        case Done(p) => s.parts[p].phase.Pausing?
        case Rewind(p, to) => s.parts[p].phase.Idle? && to <= s.parts[p].next)
  }

  function Settled(topic: Topic, s: Replay, p: nat): Replay
    requires Enabled(topic, s, Settle(p))
  {
    var x := s.parts[p];
    var consumed := s.consumed[p := topic[p][x.next]];
    s.(consumed := consumed,
       parts := s.parts[p := Part(x.next + 1, if x.next < x.seen then x.seen else x.next + 1,
                                  if AllCaughtUp(s.snapshot.highs, consumed) then Pausing else Idle)])
  }

  function Step(topic: Topic, s: Replay, l: Label): Replay
    requires Enabled(topic, s, l)
  {
    match l
    case Deliver(p) => s.(parts := s.parts[p := s.parts[p].(phase := Handling)])
    case Settle(p) => Settled(topic, s, p)
    case Done(p) => s.(parts := s.parts[p := s.parts[p].(phase := Idle)], signals := s.signals + 1)
    case Rewind(p, to) => s.(parts := s.parts[p := s.parts[p].(next := to)])
  }

  ghost predicate ValidRun(topic: Topic, s: Replay, run: seq<Label>)
    decreases |run|
  {
    run == [] || (Enabled(topic, s, run[0]) && ValidRun(topic, Step(topic, s, run[0]), run[1..]))
  }

  ghost function After(topic: Topic, s: Replay, run: seq<Label>): Replay
    requires ValidRun(topic, s, run)
    decreases |run|
  {
    if run == [] then s else After(topic, Step(topic, s, run[0]), run[1..])
  }

  // ---------------------------------------------------------------- complete when it signals

  /** Every message below the watermark of `p` has had its handler finish or fail. */
  ghost predicate Handled(topic: Topic, s: Replay, p: nat) {
    p in topic && p in s.parts && p in s.snapshot.highs
    ==> forall i :: 0 <= i < |topic[p]| && topic[p][i] < s.snapshot.highs[p] ==> i < s.parts[p].seen
  }

  ghost predicate AllHandled(topic: Topic, s: Replay) { forall p :: Handled(topic, s, p) }

  /** The offset noted for a partition is that of a message already handled. */
  ghost predicate PartOk(topic: Topic, s: Replay, p: nat)
    requires p in s.parts && p in topic
  {
    var x := s.parts[p];
    && x.next <= x.seen <= |topic[p]| && (x.phase.Handling? ==> x.next < |topic[p]|)
    && (if x.seen == 0 then p in s.consumed ==> s.consumed[p] == -1
        else p in s.consumed && exists i :: 0 <= i < x.seen && s.consumed[p] == topic[p][i])
  }

  ghost predicate Inv(topic: Topic, s: Replay) {
    && s.parts.Keys == topic.Keys && s.snapshot.highs.Keys <= topic.Keys
    && (forall p :: p in s.parts ==> PartOk(topic, s, p))
    && (s.signals > 0 || (exists p :: p in s.parts && s.parts[p].phase.Pausing?) ==> AllHandled(topic, s))
  }

  /** Passing the test means every message below the watermarks has been handled. */
  lemma CaughtUpIsHandled(topic: Topic, s: Replay)
    requires IsTopic(topic) && s.parts.Keys == topic.Keys && (forall p :: p in s.parts ==> PartOk(topic, s, p))
    requires AllCaughtUp(s.snapshot.highs, s.consumed)
    ensures AllHandled(topic, s)
  {
    forall p | p in topic && p in s.snapshot.highs ensures Handled(topic, s, p) {
      assert PartOk(topic, s, p);
    }
  }

  lemma PartStep(topic: Topic, s: Replay, l: Label, p: nat)
    requires s.parts.Keys == topic.Keys && p in s.parts && PartOk(topic, s, p) && Enabled(topic, s, l)
    ensures PartOk(topic, Step(topic, s, l), p)
  {
    if l == Settle(p) { assert Step(topic, s, l).consumed[p] == topic[p][s.parts[p].next]; }
  }

  lemma InvStep(topic: Topic, s: Replay, l: Label)
    requires IsTopic(topic) && Inv(topic, s) && Enabled(topic, s, l)
    ensures Inv(topic, Step(topic, s, l))
  {
    var t := Step(topic, s, l);
    forall p | p in t.parts ensures PartOk(topic, t, p) { PartStep(topic, s, l, p); }
    forall p | AllHandled(topic, s) ensures Handled(topic, t, p) { assert Handled(topic, s, p); }
    if l.Settle? && AllCaughtUp(t.snapshot.highs, t.consumed) { CaughtUpIsHandled(topic, t); }
  }

  lemma {:induction false} RunKeepsInv(topic: Topic, s: Replay, run: seq<Label>)
    requires IsTopic(topic) && Inv(topic, s) && ValidRun(topic, s, run)
    ensures Inv(topic, After(topic, s, run))
    decreases |run|
  {
    if run != [] {
      InvStep(topic, s, run[0]);
      RunKeepsInv(topic, Step(topic, s, run[0]), run[1..]);
    }
  }

  /** However the partitions interleave, with redeliveries too: when the catch-up branch signals done, every
      message below the watermark of every partition has been handled. */
  lemma DoneIsComplete(topic: Topic, snapshot: Snapshot, run: seq<Label>, p: nat, i: nat)
    requires IsTopic(topic) && snapshot.highs.Keys <= topic.Keys && ValidRun(topic, Start(snapshot, topic), run)
    requires After(topic, Start(snapshot, topic), run).signals > 0
    requires p in snapshot.highs && i < |topic[p]| && topic[p][i] < snapshot.highs[p]
    ensures var s := After(topic, Start(snapshot, topic), run); p in s.parts && i < s.parts[p].seen
  {
    RunKeepsInv(topic, Start(snapshot, topic), run);
    SnapshotStays(topic, Start(snapshot, topic), run);
    assert Handled(topic, After(topic, Start(snapshot, topic), run), p);
  }

  lemma {:induction false} SnapshotStays(topic: Topic, s: Replay, run: seq<Label>)
    requires ValidRun(topic, s, run)
    ensures After(topic, s, run).snapshot == s.snapshot
    decreases |run|
  {
    if run != [] { SnapshotStays(topic, Step(topic, s, run[0]), run[1..]); }
  }

  // ---------------------------------------------------------------- without redelivery

  /** In offset order the noted offset is that of the last message delivered. */
  ghost predicate InOrder(topic: Topic, s: Replay) {
    && s.parts.Keys == topic.Keys
    && forall p :: p in s.parts ==>
         && s.parts[p].next <= |topic[p]|
         && (if s.parts[p].next == 0 then p in s.consumed ==> s.consumed[p] == -1
             else p in s.consumed && s.consumed[p] == topic[p][s.parts[p].next - 1])
  }

  predicate NoRewind(run: seq<Label>) { forall l :: l in run ==> !l.Rewind? }

  lemma InOrderStep(topic: Topic, s: Replay, l: Label)
    requires InOrder(topic, s) && Enabled(topic, s, l) && !l.Rewind?
    ensures InOrder(topic, Step(topic, s, l))
  {
    match l
    case Settle(p) => InOrderSettle(topic, s, p);
    case Deliver(p) => SameNext(topic, s, Step(topic, s, l));
    case Done(p) => SameNext(topic, s, Step(topic, s, l));
  }

  lemma SameNext(topic: Topic, s: Replay, t: Replay)
    requires InOrder(topic, s) && t.consumed == s.consumed && t.parts.Keys == s.parts.Keys
    requires forall p :: p in s.parts ==> t.parts[p].next == s.parts[p].next
    ensures InOrder(topic, t)
  {
  }

  lemma InOrderSettle(topic: Topic, s: Replay, p: nat)
    requires InOrder(topic, s) && Enabled(topic, s, Settle(p))
    ensures InOrder(topic, Settled(topic, s, p))
  {
    var t := Settled(topic, s, p);
    assert t.consumed == s.consumed[p := topic[p][s.parts[p].next]];
    assert t.parts[p].next == s.parts[p].next + 1;
    assert forall q :: q in s.parts && q != p ==> t.parts[q] == s.parts[q];
  }

  lemma CaughtUpStep(topic: Topic, s: Replay, l: Label)
    requires IsTopic(topic) && InOrder(topic, s) && Enabled(topic, s, l) && AllCaughtUp(s.snapshot.highs, s.consumed)
    ensures AllCaughtUp(s.snapshot.highs, Step(topic, s, l).consumed)
  {
    if l.Settle? {
      var t := Step(topic, s, l);
      var n := s.parts[l.p].next;
      assert t.consumed == s.consumed[l.p := topic[l.p][n]];
      if n > 0 { assert topic[l.p][n - 1] < topic[l.p][n]; }
    }
  }

  /** Once true, the test stays true. */
  lemma {:induction false} CaughtUpStays(topic: Topic, s: Replay, run: seq<Label>)
    requires IsTopic(topic) && InOrder(topic, s) && ValidRun(topic, s, run) && NoRewind(run)
    ensures InOrder(topic, After(topic, s, run))
    ensures AllCaughtUp(s.snapshot.highs, s.consumed) ==>
              AllCaughtUp(s.snapshot.highs, After(topic, s, run).consumed)
    decreases |run|
  {
    if run != [] {
      assert run[0] in run;
      assert forall l :: l in run[1..] ==> l in run;
      var t := Step(topic, s, run[0]);
      InOrderStep(topic, s, run[0]);
      if AllCaughtUp(s.snapshot.highs, s.consumed) { CaughtUpStep(topic, s, run[0]); }
      assert t.snapshot == s.snapshot;
      CaughtUpStays(topic, t, run[1..]);
    }
  }

  /** The last offset a partition serves reaches its watermark. */
  predicate Reaches(topic: Topic, high: nat, p: nat) {
    high == 0 || (p in topic && topic[p] != [] && topic[p][|topic[p]| - 1] >= high - 1)
  }

  /** With everything delivered in order, the test passes exactly when every non-empty partition serves an offset
      at or past its watermark less one.  A last offset that compaction or a transaction marker took away leaves
      the replay to its idle timeout. */
  lemma EndsExactlyWhen(topic: Topic, snapshot: Snapshot, run: seq<Label>)
    requires IsTopic(topic) && snapshot.highs.Keys <= topic.Keys
    requires ValidRun(topic, Start(snapshot, topic), run) && NoRewind(run)
    requires var s := After(topic, Start(snapshot, topic), run);
             forall p :: p in topic && p in s.parts ==> s.parts[p].next == |topic[p]|
    ensures var s := After(topic, Start(snapshot, topic), run);
            AllCaughtUp(snapshot.highs, s.consumed) <==>
            forall p :: p in snapshot.highs ==> Reaches(topic, snapshot.highs[p], p)
  {
    CaughtUpStays(topic, Start(snapshot, topic), run);
    SnapshotStays(topic, Start(snapshot, topic), run);
    EndState(topic, After(topic, Start(snapshot, topic), run));
  }

  lemma EndState(topic: Topic, s: Replay)
    requires InOrder(topic, s) && s.snapshot.highs.Keys <= topic.Keys
    requires forall p :: p in topic && p in s.parts ==> s.parts[p].next == |topic[p]|
    ensures AllCaughtUp(s.snapshot.highs, s.consumed) <==>
            forall p :: p in s.snapshot.highs ==> Reaches(topic, s.snapshot.highs[p], p)
  {
    forall p | p in s.snapshot.highs
      ensures Reaches(topic, s.snapshot.highs[p], p) <==>
              s.snapshot.highs[p] == 0 || (p in s.consumed && s.consumed[p] >= s.snapshot.highs[p] - 1)
    {
      assert p in topic && p in s.parts;
    }
  }

  // ---------------------------------------------------------------- what redelivery and late messages do

  lemma Then(topic: Topic, base: Replay, run: seq<Label>, s: Replay, l: Label) returns (run': seq<Label>, s': Replay)
    requires ValidRun(topic, base, run) && After(topic, base, run) == s && Enabled(topic, s, l)
    ensures run' == run + [l] && s' == Step(topic, s, l) && ValidRun(topic, base, run')
            && After(topic, base, run') == s'
    decreases |run|
  {
    run', s' := run + [l], Step(topic, s, l);
    if run == [] {
      assert run'[1..] == [];
    } else {
      var rest, _ := Then(topic, Step(topic, base, run[0]), run[1..], s, l);
      assert run'[1..] == rest;
    }
  }

  /** What one message does to a test that holds, redelivered or not: the test goes on holding exactly when the
      message is not below its own partition's watermark less one. */
  lemma SettleKeepsTestExactlyWhen(topic: Topic, s: Replay, p: nat)
    requires Enabled(topic, s, Settle(p)) && AllCaughtUp(s.snapshot.highs, s.consumed)
    ensures AllCaughtUp(s.snapshot.highs, Step(topic, s, Settle(p)).consumed) <==>
            (p in s.snapshot.highs && s.snapshot.highs[p] > 0 ==> topic[p][s.parts[p].next] >= s.snapshot.highs[p] - 1)
  {
    var t := Step(topic, s, Settle(p));
    assert t.consumed == s.consumed[p := topic[p][s.parts[p].next]];
  }

  /** One partition, two messages, a watermark of one: `onDone` is called for each message. */
  lemma DoneCanRepeat() returns (run: seq<Label>)
    ensures var topic := map[0 := [0, 1]];
            var s := Start(Snapshot({0}, map[0 := 1]), topic);
            ValidRun(topic, s, run) && NoRewind(run) && After(topic, s, run).signals == 2
  {
    var topic: Topic := map[0 := [0, 1]];
    var base := Start(Snapshot({0}, map[0 := 1]), topic);
    var s: Replay;
    run, s := Then(topic, base, [], base, Deliver(0));
    run, s := Then(topic, base, run, s, Settle(0));
    run, s := Then(topic, base, run, s, Done(0));
    run, s := Then(topic, base, run, s, Deliver(0));
    run, s := Then(topic, base, run, s, Settle(0));
    run, s := Then(topic, base, run, s, Done(0));
  }

  /** A redelivered message takes the noted offset back, and the test with it. */
  lemma RedeliveryUndoesTheTest() returns (before: seq<Label>, more: seq<Label>)
    ensures var topic := map[0 := [0, 1]];
            var base := Start(Snapshot({0}, map[0 := 2]), topic);
            && ValidRun(topic, base, before) && ValidRun(topic, base, before + more)
            && AllCaughtUp(base.snapshot.highs, After(topic, base, before).consumed)
            && !AllCaughtUp(base.snapshot.highs, After(topic, base, before + more).consumed)
  {
    var topic: Topic := map[0 := [0, 1]];
    var base := Start(Snapshot({0}, map[0 := 2]), topic);
    var s;
    before, s := BothDelivered(topic, base);
    more := [Done(0), Rewind(0, 0), Deliver(0), Settle(0)];
    var run;
    run, s := Then(topic, base, before, s, Done(0));
    run, s := Then(topic, base, run, s, Rewind(0, 0));
    assert s.parts[0] == Part(0, 2, Idle);
    run, s := Then(topic, base, run, s, Deliver(0));
    run, s := Then(topic, base, run, s, Settle(0));
    assert run == before + more && s.consumed[0] == 0;
  }

  lemma BothDelivered(topic: Topic, base: Replay) returns (run: seq<Label>, s: Replay)
    requires topic == map[0 := [0, 1]] && base == Start(Snapshot({0}, map[0 := 2]), topic)
    ensures ValidRun(topic, base, run) && After(topic, base, run) == s && s.snapshot == base.snapshot
    ensures s.parts == map[0 := Part(2, 2, Pausing)] && s.consumed == map[0 := 1]
  {
    run, s := Then(topic, base, [], base, Deliver(0));
    run, s := Then(topic, base, run, s, Settle(0));
    assert s.consumed == map[0 := 0] && s.parts == map[0 := Part(1, 1, Idle)];
    run, s := Then(topic, base, run, s, Deliver(0));
    run, s := Then(topic, base, run, s, Settle(0));
    assert s.consumed == map[0 := 1];
  }

  // ---------------------------------------------------------------- an empty topic

  /** The shortcut compares two counts.  With as many watermarks as partitions it is taken exactly when there is
      nothing to read. */
  lemma EmptyExitExactlyWhen(snapshot: Snapshot)
    requires |snapshot.highs| == |snapshot.partitions|
    ensures |Empties(snapshot.highs)| == |snapshot.partitions| <==>
            forall p :: p in snapshot.highs ==> snapshot.highs[p] == 0
  {
    var empties := Empties(snapshot.highs);
    assert empties <= snapshot.highs.Keys && |snapshot.highs| == |snapshot.highs.Keys|;
    if |empties| == |snapshot.partitions| {
      SameSize(empties, snapshot.highs.Keys);
    } else {
      assert empties != snapshot.highs.Keys;
      var p :| p in snapshot.highs.Keys && p !in empties;
    }
  }

  /** And the two counts being equal, which the code only warns about, is exactly what the shortcut needs: it is
      right for all watermarks of the partitions `offsets` if and only if there are as many as in the metadata. */
  lemma EmptyExitIsRightExactlyWhen(partitions: set<nat>, offsets: set<nat>)
    ensures |offsets| == |partitions| <==>
            forall highs: map<nat, nat> :: highs.Keys == offsets ==>
              (|Empties(highs)| == |partitions| <==> forall p :: p in highs ==> highs[p] == 0)
  {
    if |offsets| == |partitions| {
      forall highs: map<nat, nat> | highs.Keys == offsets
        ensures |Empties(highs)| == |partitions| <==> forall p :: p in highs ==> highs[p] == 0
      {
        assert |highs| == |highs.Keys|;
        EmptyExitExactlyWhen(Snapshot(partitions, highs));
      }
    } else {
      var highs: map<nat, nat> := map p | p in offsets :: 0;
      assert Empties(highs) == offsets && highs.Keys == offsets;
    }
  }

  lemma {:induction false} SameSize(a: set<nat>, b: set<nat>)
    requires a <= b && |a| == |b|
    ensures a == b
    decreases |a|
  {
    if b != {} {
      assert a != {};
      var x :| x in a;
      SameSize(a - {x}, b - {x});
      assert a == (a - {x}) + {x} && b == (b - {x}) + {x};
    }
  }

  /** A watermark for a partition the metadata lacks can make the counts agree with messages unread. */
  lemma EmptyExitCanMiss() returns (snapshot: Snapshot)
    ensures |Empties(snapshot.highs)| == |snapshot.partitions|
    ensures exists p :: p in snapshot.partitions && p in snapshot.highs && snapshot.highs[p] > 0
  {
    snapshot := Snapshot({0}, map[0 := 5, 1 := 0]);
    assert Empties(snapshot.highs) == {1};
    assert 0 in snapshot.partitions && snapshot.highs[0] == 5;
  }

  // ---------------------------------------------------------------- the object

  /** The variables that `coldStream` closes over. */
  class ColdStream {
    var allPartitions: set<nat>
    var latestOffsets: map<nat, nat>
    var consumedOffsets: Offsets
    var emptyPartitions: set<nat>

    ghost predicate Valid()
      reads this
    {
      emptyPartitions == Empties(latestOffsets)
    }

    /** Reads the metadata and the watermarks, which Kafka lists once for each partition. */
    constructor (partitions: seq<nat>, offsets: seq<(nat, nat)>)
      requires forall i, j :: 0 <= i < j < |offsets| ==> offsets[i].0 != offsets[j].0
      ensures Valid() && allPartitions == (set p | p in partitions) && consumedOffsets == Unread(allPartitions)
      ensures latestOffsets.Keys == set x | x in offsets :: x.0
      ensures forall x :: x in offsets ==> x.0 in latestOffsets && latestOffsets[x.0] == x.1
    {
      var all: set<nat>, consumed: Offsets := {}, map[];
      var i := 0;
      while i < |partitions|
        invariant i <= |partitions| && all == (set p | p in partitions[..i]) && consumed == Unread(all)
      {
        assert partitions[..i + 1] == partitions[..i] + [partitions[i]];
        all, consumed := all + {partitions[i]}, consumed[partitions[i] := -1];
        i := i + 1;
      }
      assert partitions[..|partitions|] == partitions;
      var latest: map<nat, nat>, empties: set<nat> := map[], {};
      i := 0;
      while i < |offsets|
        invariant i <= |offsets| && empties == Empties(latest)
        invariant forall p :: p in latest <==> exists k :: 0 <= k < i && offsets[k].0 == p
        invariant forall k :: 0 <= k < i ==> offsets[k].0 in latest && latest[offsets[k].0] == offsets[k].1
      {
        var (partition, high) := offsets[i];
        latest := latest[partition := high];
        if high == 0 { empties := empties + {partition}; }
        i := i + 1;
      }
      allPartitions, consumedOffsets, latestOffsets, emptyPartitions := all, consumed, latest, empties;
    }

    /** The synchronous part of the `finally` block of `eachMessage`. */
    method MessageSettled(partition: nat, offset: nat) returns (allCaughtUp: bool)
      requires Valid()
      modifies this`consumedOffsets
      ensures Valid() && consumedOffsets == old(consumedOffsets)[partition := offset]
      ensures allCaughtUp <==> AllCaughtUp(latestOffsets, consumedOffsets)
    {
      consumedOffsets := consumedOffsets[partition := offset];
      var left := latestOffsets.Keys;
      allCaughtUp := true;
      while left != {} && allCaughtUp
        invariant left <= latestOffsets.Keys && consumedOffsets == old(consumedOffsets)[partition := offset]
        invariant allCaughtUp ==> forall p :: p in latestOffsets && p !in left ==>
                    latestOffsets[p] == 0 || (p in consumedOffsets && consumedOffsets[p] >= latestOffsets[p] - 1)
        invariant !allCaughtUp ==> !AllCaughtUp(latestOffsets, consumedOffsets)
        decreases left
      {
        var p :| p in left;
        if p !in emptyPartitions && !(p in consumedOffsets && consumedOffsets[p] >= latestOffsets[p] - 1) {
          allCaughtUp := false;
        }
        left := left - {p};
      }
    }
  }
}
