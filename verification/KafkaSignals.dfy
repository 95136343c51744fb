/**
 How often the catch-up branch of the Kafka cold replay calls `onDone`.
 */
module KafkaSignals {
  import opened KafkaReplay

  /** The partitions whose message has passed the test and whose call of `onDone` is still to come. */
  function Waiting(s: Replay): set<nat> { set p | p in s.parts && s.parts[p].phase.Pausing? }

  /** How many messages of the run settle with the test true. */
  ghost function Late(topic: Topic, s: Replay, run: seq<Label>): nat
    requires ValidRun(topic, s, run)
    decreases |run|
  {
    if run == [] then 0
    else
      var t := Step(topic, s, run[0]);
      (if run[0].Settle? && AllCaughtUp(t.snapshot.highs, t.consumed) then 1 else 0) + Late(topic, t, run[1..])
  }

  lemma WaitingStep(topic: Topic, s: Replay, l: Label)
    requires Enabled(topic, s, l)
    ensures var t := Step(topic, s, l);
            Waiting(t) == match l
                          case Settle(p) =>
                            if AllCaughtUp(t.snapshot.highs, t.consumed) then Waiting(s) + {p} else Waiting(s)
                          case Done(p) => Waiting(s) - {p}
                          case _ => Waiting(s)
  {
  }

  /** Calls made and calls to come are as many as the messages that settled with the test true. */
  lemma {:induction false} CallsAreLateMessages(topic: Topic, s: Replay, run: seq<Label>)
    requires ValidRun(topic, s, run)
    ensures var t := After(topic, s, run);
            t.signals + |Waiting(t)| == s.signals + |Waiting(s)| + Late(topic, s, run)
    decreases |run|
  {
    if run != [] {
      WaitingStep(topic, s, run[0]);
      CallsAreLateMessages(topic, Step(topic, s, run[0]), run[1..]);
    }
  }

  // ---------------------------------------------------------------- at most one call

  /** After i of its messages partition p's own part of the test holds. */
  predicate Own(topic: Topic, highs: map<nat, nat>, p: nat, i: nat) {
    p in highs && highs[p] > 0 ==> p in topic && 0 < i <= |topic[p]| && topic[p][i - 1] >= highs[p] - 1
  }

  predicate HasMessages(highs: map<nat, nat>) { exists p :: p in highs && highs[p] > 0 }

  predicate AllReach(topic: Topic, highs: map<nat, nat>) { forall p :: p in highs ==> Reaches(topic, highs[p], p) }

  /** No partition serves a message after its own part of the test has come to hold; where that is so from the
      start, it serves none. */
  ghost predicate NoMore(topic: Topic, highs: map<nat, nat>) {
    forall p, i: nat :: p in topic && i < |topic[p]| ==> !Own(topic, highs, p, i)
  }

  predicate OneMessage(topic: Topic) {
    && (forall p :: p in topic ==> |topic[p]| <= 1)
    && (forall p, q :: p in topic && q in topic && topic[p] != [] && topic[q] != [] ==> p == q)
  }

  /** What the brokers would have to serve for one call at most. */
  ghost predicate OneCall(topic: Topic, highs: map<nat, nat>) {
    || !AllReach(topic, highs)
    || (if HasMessages(highs) then NoMore(topic, highs) else OneMessage(topic))
  }

  ghost predicate AllDelivered(topic: Topic, s: Replay) {
    forall p :: p in s.parts && p in topic ==> s.parts[p].next == |topic[p]|
  }

  function Calls(s: Replay): nat { s.signals + |Waiting(s)| }

  /** In order, partition p's own part of the test depends on how many of its messages were delivered. */
  lemma TestIsOwn(topic: Topic, s: Replay)
    requires InOrder(topic, s) && s.snapshot.highs.Keys <= topic.Keys
    ensures AllCaughtUp(s.snapshot.highs, s.consumed) <==>
            forall p :: p in s.parts ==> Own(topic, s.snapshot.highs, p, s.parts[p].next)
  {
    var highs := s.snapshot.highs;
    forall p | p in s.parts
      ensures Own(topic, highs, p, s.parts[p].next) <==>
              (p in highs ==> highs[p] == 0 || (p in s.consumed && s.consumed[p] >= highs[p] - 1))
    {
    }
  }

  /** A watermark that is never reached never lets the test pass. */
  lemma NeverReached(topic: Topic, s: Replay)
    requires IsTopic(topic) && InOrder(topic, s) && s.snapshot.highs.Keys <= topic.Keys
    requires AllCaughtUp(s.snapshot.highs, s.consumed)
    ensures AllReach(topic, s.snapshot.highs)
  {
    TestIsOwn(topic, s);
    forall p | p in s.snapshot.highs ensures Reaches(topic, s.snapshot.highs[p], p) {
      assert Own(topic, s.snapshot.highs, p, s.parts[p].next);
      var i := s.parts[p].next;
      if s.snapshot.highs[p] > 0 && i < |topic[p]| { assert topic[p][i - 1] < topic[p][|topic[p]| - 1]; }
    }
  }

  lemma TestMeansDelivered(topic: Topic, s: Replay, p: nat)
    requires IsTopic(topic) && InOrder(topic, s) && s.snapshot.highs.Keys <= topic.Keys
             && OneCall(topic, s.snapshot.highs)
    requires AllCaughtUp(s.snapshot.highs, s.consumed) && p in s.parts && s.parts[p].next > 0
    ensures AllDelivered(topic, s)
  {
    NeverReached(topic, s);
    TestIsOwn(topic, s);
    forall q | q in s.parts && q in topic ensures s.parts[q].next == |topic[q]| {
      assert Own(topic, s.snapshot.highs, q, s.parts[q].next);
      assert topic[p] != [] && |topic[p]| >= s.parts[p].next;
    }
  }

  ghost predicate CallInv(topic: Topic, s: Replay) {
    InOrder(topic, s) && Calls(s) <= 1 && (Calls(s) == 1 ==> AllDelivered(topic, s))
  }

  lemma CallStep(topic: Topic, s: Replay, l: Label)
    requires IsTopic(topic) && s.snapshot.highs.Keys <= topic.Keys && OneCall(topic, s.snapshot.highs)
    requires CallInv(topic, s) && Enabled(topic, s, l) && !l.Rewind?
    ensures CallInv(topic, Step(topic, s, l))
  {
    InOrderStep(topic, s, l);
    match l
    case Settle(p) => CallSettle(topic, s, p);
    case Done(p) => CallSame(topic, s, l);
    case Deliver(p) => CallSame(topic, s, l);
  }

  lemma CallSettle(topic: Topic, s: Replay, p: nat)
    requires IsTopic(topic) && s.snapshot.highs.Keys <= topic.Keys && OneCall(topic, s.snapshot.highs)
    requires CallInv(topic, s) && Enabled(topic, s, Settle(p)) && InOrder(topic, Step(topic, s, Settle(p)))
    ensures CallInv(topic, Step(topic, s, Settle(p)))
  {
    var t := Step(topic, s, Settle(p));
    NoCallYet(topic, s, p);
    assert t.signals == 0 && t.snapshot == s.snapshot;
    if AllCaughtUp(t.snapshot.highs, t.consumed) {
      TestMeansDelivered(topic, t, p);
      assert Waiting(t) == {p};
    } else {
      assert Waiting(t) == {};
    }
  }

  /** A message is left, so no call was made. */
  lemma NoCallYet(topic: Topic, s: Replay, p: nat)
    requires CallInv(topic, s) && Enabled(topic, s, Settle(p))
    ensures s.signals == 0 && Waiting(s) == {}
    ensures Waiting(Step(topic, s, Settle(p))) ==
            if AllCaughtUp(s.snapshot.highs, Step(topic, s, Settle(p)).consumed) then {p} else {}
  {
    assert s.parts[p].next < |topic[p]|;
    WaitingStep(topic, s, Settle(p));
  }

  lemma CallSame(topic: Topic, s: Replay, l: Label)
    requires CallInv(topic, s) && Enabled(topic, s, l) && (l.Done? || l.Deliver?) && InOrder(topic, Step(topic, s, l))
    ensures CallInv(topic, Step(topic, s, l))
  {
    var t := Step(topic, s, l);
    WaitingStep(topic, s, l);
    if l.Done? { assert l.p in Waiting(s); }
    assert forall p :: p in s.parts ==> t.parts[p].next == s.parts[p].next;
  }

  lemma {:induction false} CallRun(topic: Topic, s: Replay, run: seq<Label>)
    requires IsTopic(topic) && s.snapshot.highs.Keys <= topic.Keys && OneCall(topic, s.snapshot.highs)
    requires CallInv(topic, s) && ValidRun(topic, s, run) && NoRewind(run)
    ensures CallInv(topic, After(topic, s, run))
    decreases |run|
  {
    if run != [] {
      assert run[0] in run && forall l :: l in run[1..] ==> l in run;
      CallStep(topic, s, run[0]);
      CallRun(topic, Step(topic, s, run[0]), run[1..]);
    }
  }

  // ---------------------------------------------------------------- a run with two calls

  /** run leads in order from base to s, where no handler is at work and no call is to come. */
  ghost predicate Rests(topic: Topic, base: Replay, run: seq<Label>, s: Replay) {
    && ValidRun(topic, base, run) && NoRewind(run) && After(topic, base, run) == s
    && s.parts.Keys == topic.Keys && forall p :: p in s.parts ==> s.parts[p].phase.Idle?
  }

  /** One message of p, to the end of its `finally` block. */
  lemma ConsumeOne(topic: Topic, base: Replay, run: seq<Label>, s: Replay, p: nat)
    returns (run': seq<Label>, s': Replay)
    requires Rests(topic, base, run, s) && p in topic && s.parts[p].next < |topic[p]|
    ensures Rests(topic, base, run', s') && s'.snapshot == s.snapshot
    ensures s'.parts[p].next == s.parts[p].next + 1 && forall q :: q in s.parts && q != p ==> s'.parts[q] == s.parts[q]
    ensures s'.consumed == s.consumed[p := topic[p][s.parts[p].next]]
    ensures s'.signals == s.signals + if AllCaughtUp(s.snapshot.highs, s'.consumed) then 1 else 0
  {
    run', s' := Then(topic, base, run, s, Deliver(p));
    assert s'.parts == s.parts[p := s.parts[p].(phase := Handling)];
    run', s' := Then(topic, base, run', s', Settle(p));
    if s'.parts[p].phase.Pausing? { run', s' := Then(topic, base, run', s', Done(p)); }
  }

  lemma {:induction false} ConsumeTo(topic: Topic, base: Replay, run: seq<Label>, s: Replay, p: nat, n: nat)
    returns (run': seq<Label>, s': Replay)
    requires Rests(topic, base, run, s) && p in topic && s.parts[p].next <= n <= |topic[p]|
    ensures Rests(topic, base, run', s') && s'.snapshot == s.snapshot
    ensures s'.parts[p].next == n && forall q :: q in s.parts && q != p ==> s'.parts[q] == s.parts[q]
    decreases n - s.parts[p].next
  {
    run', s' := run, s;
    if s.parts[p].next < n {
      run', s' := ConsumeOne(topic, base, run, s, p);
      run', s' := ConsumeTo(topic, base, run', s', p, n);
    }
  }

  /** Every partition of ps up to its target. */
  lemma {:induction false} ConsumeAll(topic: Topic, base: Replay, run: seq<Label>, s: Replay,
    ps: set<nat>, target: map<nat, nat>)
    returns (run': seq<Label>, s': Replay)
    requires Rests(topic, base, run, s) && ps <= topic.Keys && ps <= target.Keys
    requires forall p :: p in ps ==> s.parts[p].next <= target[p] <= |topic[p]|
    ensures Rests(topic, base, run', s') && s'.snapshot == s.snapshot
    ensures forall p :: p in s.parts ==> s'.parts[p].next == if p in ps then target[p] else s.parts[p].next
    decreases |ps|
  {
    run', s' := run, s;
    if ps != {} {
      var p :| p in ps;
      run', s' := ConsumeTo(topic, base, run, s, p, target[p]);
      run', s' := ConsumeAll(topic, base, run', s', ps - {p}, target);
    }
  }

  /** Once the test holds after a message, a call was made or is to come. */
  ghost predicate Called(s: Replay) {
    AllCaughtUp(s.snapshot.highs, s.consumed) && (exists p :: p in s.parts && s.parts[p].next > 0) ==> Calls(s) > 0
  }

  lemma {:induction false} CalledRun(topic: Topic, s: Replay, run: seq<Label>)
    requires ValidRun(topic, s, run) && NoRewind(run) && Called(s)
    ensures Called(After(topic, s, run))
    decreases |run|
  {
    if run != [] {
      assert run[0] in run && forall l :: l in run[1..] ==> l in run;
      CalledStep(topic, s, run[0]);
      CalledRun(topic, Step(topic, s, run[0]), run[1..]);
    }
  }

  lemma CalledStep(topic: Topic, s: Replay, l: Label)
    requires Called(s) && Enabled(topic, s, l) && !l.Rewind?
    ensures Called(Step(topic, s, l))
  {
    var t := Step(topic, s, l);
    WaitingStep(topic, s, l);
    match l
    case Settle(p) => if AllCaughtUp(t.snapshot.highs, t.consumed) { assert p in Waiting(t); }
    case Done(_) =>
    case Deliver(_) => assert forall p :: p in t.parts ==> t.parts[p].next == s.parts[p].next;
  }

  /** The messages before the last one: all of the other partitions', and i of p's. */
  function Target(topic: Topic, p: nat, i: nat): map<nat, nat> {
    map q | q in topic :: if q == p then i else |topic[q]|
  }

  /** If some message comes when the test already holds and another was before it, two calls are made. */
  lemma TwoCalls(topic: Topic, snapshot: Snapshot, p: nat, i: nat) returns (run: seq<Label>)
    requires IsTopic(topic) && snapshot.highs.Keys <= topic.Keys && p in topic && i < |topic[p]|
    requires forall q :: q in topic ==> Own(topic, snapshot.highs, q, Target(topic, p, i)[q])
    requires exists q :: q in topic && Target(topic, p, i)[q] > 0
    ensures ValidRun(topic, Start(snapshot, topic), run) && NoRewind(run)
    ensures After(topic, Start(snapshot, topic), run).signals >= 2
  {
    var s: Replay;
    run, s := OneCallMade(topic, snapshot, p, i);
    TestIsOwn(topic, s);
    if i > 0 { assert topic[p][i - 1] < topic[p][i]; }
    ghost var noted := s.consumed[p := topic[p][i]];
    assert AllCaughtUp(snapshot.highs, noted);
    run, s := ConsumeOne(topic, Start(snapshot, topic), run, s, p);
  }

  lemma OneCallMade(topic: Topic, snapshot: Snapshot, p: nat, i: nat) returns (run: seq<Label>, s: Replay)
    requires IsTopic(topic) && snapshot.highs.Keys <= topic.Keys && p in topic && i < |topic[p]|
    requires forall q :: q in topic ==> Own(topic, snapshot.highs, q, Target(topic, p, i)[q])
    requires exists q :: q in topic && Target(topic, p, i)[q] > 0
    ensures Rests(topic, Start(snapshot, topic), run, s) && InOrder(topic, s) && s.snapshot == snapshot
    ensures s.parts[p].next == i && AllCaughtUp(snapshot.highs, s.consumed) && s.signals >= 1
  {
    var base := Start(snapshot, topic);
    run, s := ConsumeAll(topic, base, [], base, topic.Keys, Target(topic, p, i));
    CaughtUpStays(topic, base, run);
    TestIsOwn(topic, s);
    CalledRun(topic, base, run);
    var q :| q in topic && Target(topic, p, i)[q] > 0;
    assert s.parts[q].next > 0;
    assert Waiting(s) == {};
  }

  lemma NotOneCall(topic: Topic, snapshot: Snapshot) returns (run: seq<Label>)
    requires IsTopic(topic) && snapshot.highs.Keys <= topic.Keys && !OneCall(topic, snapshot.highs)
    ensures ValidRun(topic, Start(snapshot, topic), run) && NoRewind(run)
    ensures After(topic, Start(snapshot, topic), run).signals >= 2
  {
    if HasMessages(snapshot.highs) {
      var p, i: nat :| p in topic && i < |topic[p]| && Own(topic, snapshot.highs, p, i);
      var q :| q in snapshot.highs && snapshot.highs[q] > 0;
      assert Reaches(topic, snapshot.highs[q], q);
      assert Target(topic, p, i)[q] > 0;
      run := TwoCalls(topic, snapshot, p, i);
    } else {
      if p :| p in topic && |topic[p]| > 1 {
        assert Target(topic, p, 1)[p] > 0;
        run := TwoCalls(topic, snapshot, p, 1);
      } else {
        var p, q :| p in topic && q in topic && topic[p] != [] && topic[q] != [] && p != q;
        assert Target(topic, p, 0)[q] > 0;
        run := TwoCalls(topic, snapshot, p, 0);
      }
    }
  }

  /** `onDone` is called at most once in every in-order run exactly when some watermark is never reached, or every
      partition's last message is the first that meets its own part of the test - and, where all watermarks are 0,
      there is at most one message. */
  lemma AtMostOneCallExactlyWhen(topic: Topic, snapshot: Snapshot)
    requires IsTopic(topic) && snapshot.highs.Keys <= topic.Keys
    ensures OneCall(topic, snapshot.highs) <==>
            forall run :: ValidRun(topic, Start(snapshot, topic), run) && NoRewind(run) ==>
                            After(topic, Start(snapshot, topic), run).signals <= 1
  {
    var base := Start(snapshot, topic);
    if OneCall(topic, snapshot.highs) {
      forall run | ValidRun(topic, base, run) && NoRewind(run) ensures After(topic, base, run).signals <= 1 {
        assert Waiting(base) == {};
        CallRun(topic, base, run);
      }
    } else {
      var run := NotOneCall(topic, snapshot);
    }
  }
}
