/**
 The batching Kafka producer.  Records are named by the order in which `send` pushed them; what happens to
 the promise of each is followed through ticks, sends, failures and retries.
 */
module ThrottledProducers {
  /** Idle: no flush in progress.  Sending: `sendBatch` is awaited.  Pausing: a retriable error was caught and
      the retry has not begun.  Stuck: reconnecting or creating the topic failed inside the `catch` block, so
      nothing ever resets `isFlushing`. */
  datatype Phase = Idle | Sending(batch: seq<nat>) | Pausing(batch: seq<nat>) | Stuck(batch: seq<nat>)

  datatype Settlement = Resolved(record: nat) | Rejected(record: nat)

  /** pushed: how many records have been pushed.  dropped: records sliced off the queue by retries. */
  datatype Producer = Producer(pushed: nat, queue: seq<nat>, isFlushing: bool, phase: Phase,
                               settled: seq<Settlement>, dropped: seq<nat>, recordsSent: nat)

  datatype Label = Send | FlushTick | SendOk | SendRetriable | RetryBegins | RetryBreaks | SendFails

  const New: Producer := Producer(0, [], false, Idle, [], [], 0)

  /** `maxOutgoingBatchSize || 1000`. */
  function BatchSize(configured: nat): (b: nat)
    ensures b > 0 && (configured > 0 ==> b == configured) && (configured == 0 ==> b == 1000)
  {
    if configured == 0 then 1000 else configured
  }

  function Front(q: seq<nat>, b: nat): seq<nat> { if |q| <= b then q else q[..b] }

  function Rest(q: seq<nat>, b: nat): seq<nat> { if |q| <= b then [] else q[b..] }

  function Resolutions(batch: seq<nat>): seq<Settlement> {
    seq(|batch|, i requires 0 <= i < |batch| => Resolved(batch[i]))
  }

  function Rejections(batch: seq<nat>): seq<Settlement> {
    seq(|batch|, i requires 0 <= i < |batch| => Rejected(batch[i]))
  }

  predicate Enabled(s: Producer, l: Label) {
    match l
    case Send => true
    case FlushTick => true
    case SendOk => s.phase.Sending?
    case SendRetriable => s.phase.Sending?
    case RetryBegins => s.phase.Pausing?
    case RetryBreaks => s.phase.Pausing?
    case SendFails => s.phase.Sending?
  }

  function Step(s: Producer, b: nat, l: Label): Producer
    requires Enabled(s, l)
  {
    match l
    case Send => s.(pushed := s.pushed + 1, queue := s.queue + [s.pushed])
    case FlushTick =>
      if s.isFlushing then s
      else
        var batch := Front(s.queue, b);
        s.(queue := Rest(s.queue, b), isFlushing := batch != [], phase := if batch == [] then Idle else Sending(batch))
    case SendOk =>
      s.(isFlushing := false, phase := Idle, settled := s.settled + Resolutions(s.phase.batch),
         recordsSent := s.recordsSent + |s.phase.batch|)
    case SendRetriable => s.(phase := Pausing(s.phase.batch))
    case RetryBegins =>
      s.(isFlushing := true, phase := Sending(s.phase.batch), dropped := s.dropped + Front(s.queue, b),
          queue := Rest(s.queue, b))
    case RetryBreaks => s.(phase := Stuck(s.phase.batch))
    case SendFails => s.(isFlushing := false, phase := Idle, settled := s.settled + Rejections(s.phase.batch))
  }

  ghost predicate ValidRun(s: Producer, b: nat, run: seq<Label>)
    decreases |run|
  {
    run == [] || (Enabled(s, run[0]) && ValidRun(Step(s, b, run[0]), b, run[1..]))
  }

  ghost function After(s: Producer, b: nat, run: seq<Label>): Producer
    requires ValidRun(s, b, run)
    decreases |run|
  {
    if run == [] then s else After(Step(s, b, run[0]), b, run[1..])
  }

  // ---------------------------------------------------------------- accounting

  function Range(a: nat, b: nat): seq<nat> { if a < b then seq(b - a, i requires 0 <= i => a + i) else [] }

  function InFlight(s: Producer): seq<nat> { if s.phase.Idle? then [] else s.phase.batch }

  function SettledIds(x: seq<Settlement>): seq<nat> { seq(|x|, i requires 0 <= i < |x| => x[i].record) }

  /** Settled so far, then the batch in flight. */
  function Done(s: Producer): seq<nat> { SettledIds(s.settled) + InFlight(s) }

  ghost predicate Ascending(x: seq<nat>) { forall i, j :: 0 <= i < j < |x| ==> x[i] < x[j] }

  ghost predicate FlagOk(s: Producer, b: nat) {
    (s.isFlushing <==> !s.phase.Idle?) && (!s.phase.Idle? ==> 0 < |s.phase.batch| <= b)
  }

  /** The records k, k + 1, ... are queued; each earlier one is done or dropped, not both. */
  ghost predicate Split(done: seq<nat>, dropped: seq<nat>, queue: seq<nat>, k: nat, pushed: nat) {
    && k + |queue| == pushed && queue == Range(k, pushed)
    && Ascending(done) && Ascending(dropped)
    && (forall i: nat :: i < k <==> i in done || i in dropped)
    && (forall i: nat :: !(i in done && i in dropped))
  }

  ghost predicate Inv(s: Producer, b: nat) {
    FlagOk(s, b) && |s.queue| <= s.pushed && Split(Done(s), s.dropped, s.queue, s.pushed - |s.queue|, s.pushed)
  }

  lemma SplitPush(done: seq<nat>, dropped: seq<nat>, queue: seq<nat>, k: nat, pushed: nat)
    requires Split(done, dropped, queue, k, pushed)
    ensures Split(done, dropped, queue + [pushed], k, pushed + 1)
  {}

  lemma AppendAbove(x: seq<nat>, f: seq<nat>, k: nat)
    requires Ascending(x) && (forall i :: 0 <= i < |x| ==> x[i] < k) && f == Range(k, k + |f|)
    ensures Ascending(x + f)
    ensures forall i: nat :: i in x + f <==> i in x || k <= i < k + |f|
  {
    forall i: nat | k <= i < k + |f| ensures i in x + f { assert (x + f)[|x| + (i - k)] == i; }
  }

  lemma FrontIsRange(queue: seq<nat>, b: nat, k: nat, pushed: nat)
    requires b > 0 && k + |queue| == pushed && queue == Range(k, pushed)
    ensures var f := Front(queue, b); f == Range(k, k + |f|) && Rest(queue, b) == Range(k + |f|, pushed)
    ensures |Front(queue, b)| + |Rest(queue, b)| == |queue| && (Front(queue, b) == [] <==> queue == [])
  {}

  /** A batch taken off the queue joins what is done or what is dropped. */
  lemma SplitTake(done: seq<nat>, dropped: seq<nat>, queue: seq<nat>, k: nat, pushed: nat, b: nat)
    requires b > 0 && Split(done, dropped, queue, k, pushed)
    ensures var f := Front(queue, b);
            && Split(done + f, dropped, Rest(queue, b), k + |f|, pushed)
            && Split(done, dropped + f, Rest(queue, b), k + |f|, pushed)
  {
    var f := Front(queue, b);
    FrontIsRange(queue, b, k, pushed);
    assert forall i :: 0 <= i < |done| ==> done[i] in done;
    assert forall i :: 0 <= i < |dropped| ==> dropped[i] in dropped;
    AppendAbove(done, f, k);
    AppendAbove(dropped, f, k);
  }

  lemma SettleIds(x: seq<Settlement>, batch: seq<nat>)
    ensures SettledIds(x + Resolutions(batch)) == SettledIds(x) + batch
    ensures SettledIds(x + Rejections(batch)) == SettledIds(x) + batch
  {}

  lemma FlushKeeps(s: Producer, b: nat)
    requires b > 0 && Inv(s, b) && !s.isFlushing
    ensures Inv(Step(s, b, FlushTick), b)
  {
    var k := s.pushed - |s.queue|;
    SplitTake(Done(s), s.dropped, s.queue, k, s.pushed, b);
    FrontIsRange(s.queue, b, k, s.pushed);
    var s' := Step(s, b, FlushTick);
    assert Done(s') == Done(s) + Front(s.queue, b);
  }

  lemma RetryKeeps(s: Producer, b: nat)
    requires b > 0 && Inv(s, b) && s.phase.Pausing?
    ensures Inv(Step(s, b, RetryBegins), b)
  {
    var k := s.pushed - |s.queue|;
    SplitTake(Done(s), s.dropped, s.queue, k, s.pushed, b);
    FrontIsRange(s.queue, b, k, s.pushed);
  }

  lemma SettleKeeps(s: Producer, b: nat, l: Label)
    requires Inv(s, b) && s.phase.Sending? && (l == SendOk || l == SendFails)
    ensures Inv(Step(s, b, l), b)
  {
    SettleIds(s.settled, s.phase.batch);
    assert Done(Step(s, b, l)) == Done(s);
  }

  lemma InvStep(s: Producer, b: nat, l: Label)
    requires b > 0 && Inv(s, b) && Enabled(s, l)
    ensures Inv(Step(s, b, l), b)
  {
    match l
    case Send => SplitPush(Done(s), s.dropped, s.queue, s.pushed - |s.queue|, s.pushed);
    case FlushTick => if !s.isFlushing { FlushKeeps(s, b); }
    case SendOk => SettleKeeps(s, b, l);
    case SendRetriable =>
    case RetryBegins => RetryKeeps(s, b);
    case RetryBreaks =>
    case SendFails => SettleKeeps(s, b, l);
  }

  lemma {:induction false} RunKeepsInv(s: Producer, b: nat, run: seq<Label>)
    requires b > 0 && Inv(s, b) && ValidRun(s, b, run)
    ensures Inv(After(s, b, run), b)
    decreases |run|
  {
    if run != [] {
      InvStep(s, b, run[0]);
      RunKeepsInv(Step(s, b, run[0]), b, run[1..]);
    }
  }

  /** Every record ever pushed is in exactly one place: settled or in the one batch in flight, dropped by a
      retry, or still queued.  None is settled twice, and settlements happen in push order. */
  lemma Accounting(b: nat, run: seq<Label>)
    requires b > 0 && ValidRun(New, b, run)
    ensures var s := After(New, b, run);
            && (forall i: nat :: i < s.pushed <==> i in Done(s) || i in s.dropped || i in s.queue)
            && (forall i: nat :: !(i in Done(s) && i in s.dropped) && !(i in Done(s) && i in s.queue)
                  && !(i in s.dropped && i in s.queue))
            && Ascending(Done(s)) && Ascending(s.dropped) && Ascending(s.queue)
            && (s.isFlushing <==> InFlight(s) != [])
  {
    RunKeepsInv(New, b, run);
    var s := After(New, b, run);
    var k := s.pushed - |s.queue|;
    forall i: nat ensures i in s.queue <==> k <= i < s.pushed {
      if k <= i < s.pushed { assert s.queue[i - k] == i; }
    }
  }

  // ---------------------------------------------------------------- what each promise is told

  /** At some step l of the run record i was in the batch in flight. */
  ghost predicate InFlightAt(s: Producer, b: nat, run: seq<Label>, l: Label, i: nat)
    requires ValidRun(s, b, run)
    decreases |run|
  {
    run != [] && ((run[0] == l && i in InFlight(s)) || InFlightAt(Step(s, b, run[0]), b, run[1..], l, i))
  }

  lemma SettledNext(s: Producer, b: nat, l: Label, i: nat)
    requires Enabled(s, l)
    ensures var t := Step(s, b, l);
            && (Resolved(i) in t.settled <==> Resolved(i) in s.settled || (l == SendOk && i in InFlight(s)))
            && (Rejected(i) in t.settled <==> Rejected(i) in s.settled || (l == SendFails && i in InFlight(s)))
  {
    if l == SendOk || l == SendFails {
      var batch := s.phase.batch;
      forall k | 0 <= k < |batch| ensures Resolutions(batch)[k] == Resolved(batch[k]) {}
      forall k | 0 <= k < |batch| ensures Rejections(batch)[k] == Rejected(batch[k]) {}
      if i in batch {
        var k :| 0 <= k < |batch| && batch[k] == i;
        assert Resolutions(batch)[k] == Resolved(i) && Rejections(batch)[k] == Rejected(i);
      }
    }
  }

  lemma {:induction false} SettledAlong(s: Producer, b: nat, run: seq<Label>, i: nat)
    requires ValidRun(s, b, run)
    ensures var t := After(s, b, run);
            && (Resolved(i) in t.settled <==> Resolved(i) in s.settled || InFlightAt(s, b, run, SendOk, i))
            && (Rejected(i) in t.settled <==> Rejected(i) in s.settled || InFlightAt(s, b, run, SendFails, i))
    decreases |run|
  {
    if run != [] {
      SettledNext(s, b, run[0], i);
      SettledAlong(Step(s, b, run[0]), b, run[1..], i);
    }
  }

  /** `send` is told that a record was delivered exactly when the broker accepted a batch it was in, and that it
      failed exactly when the broker refused a batch it was in for good; never both. */
  lemma ToldExactlyWhen(b: nat, run: seq<Label>, i: nat)
    requires b > 0 && ValidRun(New, b, run)
    ensures var s := After(New, b, run);
            && (Resolved(i) in s.settled <==> InFlightAt(New, b, run, SendOk, i))
            && (Rejected(i) in s.settled <==> InFlightAt(New, b, run, SendFails, i))
            && !(Resolved(i) in s.settled && Rejected(i) in s.settled)
  {
    SettledAlong(New, b, run, i);
    RunKeepsInv(New, b, run);
    var s := After(New, b, run);
    if Resolved(i) in s.settled && Rejected(i) in s.settled { ToldOnce(s, i); }
  }

  lemma ToldOnce(s: Producer, i: nat)
    requires Ascending(Done(s)) && Resolved(i) in s.settled
    ensures Rejected(i) !in s.settled
  {
    var ids := SettledIds(s.settled);
    var j :| 0 <= j < |s.settled| && s.settled[j] == Resolved(i);
    forall k | 0 <= k < |s.settled| ensures s.settled[k] != Rejected(i) {
      assert Done(s)[j] == ids[j] == i && Done(s)[k] == ids[k];
    }
  }

  function CountResolved(x: seq<Settlement>): nat {
    if x == [] then 0 else CountResolved(x[..|x| - 1]) + if x[|x| - 1].Resolved? then 1 else 0
  }

  lemma {:induction false} CountMore(x: seq<Settlement>, y: seq<Settlement>, n: nat)
    requires (n == |y| && forall k :: 0 <= k < |y| ==> y[k].Resolved?)
             || (n == 0 && forall k :: 0 <= k < |y| ==> y[k].Rejected?)
    ensures CountResolved(x + y) == CountResolved(x) + n
    decreases |y|
  {
    if y == [] {
      assert x + y == x;
    } else {
      var m := |y| - 1;
      assert (x + y)[..|x + y| - 1] == x + y[..m];
      CountMore(x, y[..m], if n == 0 then 0 else n - 1);
    }
  }

  /** `recordsSent` counts the records whose promise resolved. */
  lemma {:induction false} SentAreResolved(s: Producer, b: nat, run: seq<Label>)
    requires ValidRun(s, b, run) && s.recordsSent == CountResolved(s.settled)
    ensures After(s, b, run).recordsSent == CountResolved(After(s, b, run).settled)
    decreases |run|
  {
    if run != [] {
      if run[0] == SendOk {
        CountMore(s.settled, Resolutions(s.phase.batch), |s.phase.batch|);
      } else if run[0] == SendFails {
        CountMore(s.settled, Rejections(s.phase.batch), 0);
      }
      SentAreResolved(Step(s, b, run[0]), b, run[1..]);
    }
  }

  function Min(a: nat, b: nat): nat { if a < b then a else b }

  /** A flush takes as much of the queue as a batch may hold, oldest first; a retry drops as much. */
  lemma FlushTakesTheFront(s: Producer, b: nat)
    requires b > 0
    ensures !s.isFlushing && s.queue != [] ==>
              var t := Step(s, b, FlushTick);
              |InFlight(t)| == Min(b, |s.queue|) && InFlight(t) + t.queue == s.queue && t.dropped == s.dropped
    ensures s.phase.Pausing? ==>
              var t := Step(s, b, RetryBegins);
              && InFlight(t) == s.phase.batch
              && exists lost :: t.dropped == s.dropped + lost && lost + t.queue == s.queue
                                && |lost| == Min(b, |s.queue|)
  {
    assert Front(s.queue, b) + Rest(s.queue, b) == s.queue;
    if s.phase.Pausing? {
      var t := Step(s, b, RetryBegins);
      var lost := Front(s.queue, b);
      assert t.dropped == s.dropped + lost && lost + t.queue == s.queue;
    }
  }

  // ---------------------------------------------------------------- what retries lose

  /** Each retry of the run began with nothing queued behind the failed batch. */
  ghost predicate RetriesMeetEmptyQueue(s: Producer, b: nat, run: seq<Label>)
    requires ValidRun(s, b, run)
    decreases |run|
  {
    run == [] ||
    ((run[0] == RetryBegins ==> s.queue == []) && RetriesMeetEmptyQueue(Step(s, b, run[0]), b, run[1..]))
  }

  lemma {:induction false} DroppedGrows(s: Producer, b: nat, run: seq<Label>)
    requires b > 0 && ValidRun(s, b, run)
    ensures s.dropped <= After(s, b, run).dropped
    decreases |run|
  {
    if run != [] {
      assert s.dropped <= Step(s, b, run[0]).dropped;
      DroppedGrows(Step(s, b, run[0]), b, run[1..]);
    }
  }

  /** No record is lost exactly when every retry began with an empty queue. */
  lemma {:induction false} NothingDroppedExactlyWhen(s: Producer, b: nat, run: seq<Label>)
    requires b > 0 && ValidRun(s, b, run)
    ensures After(s, b, run).dropped == s.dropped <==> RetriesMeetEmptyQueue(s, b, run)
    decreases |run|
  {
    if run != [] {
      var s1 := Step(s, b, run[0]);
      NothingDroppedExactlyWhen(s1, b, run[1..]);
      DroppedGrows(s1, b, run[1..]);
      assert s.dropped <= s1.dropped;
      if run[0] == RetryBegins && s.queue != [] { assert |s1.dropped| > |s.dropped|; }
    }
  }

  /** A dropped record's promise never settles, whatever happens afterwards. */
  lemma DroppedNeverSettles(s: Producer, b: nat, run: seq<Label>, i: nat)
    requires b > 0 && Inv(s, b) && ValidRun(s, b, run) && i in s.dropped
    ensures i !in Done(After(s, b, run))
  {
    RunKeepsInv(s, b, run);
    DroppedGrows(s, b, run);
    var m :| 0 <= m < |s.dropped| && s.dropped[m] == i;
    assert After(s, b, run).dropped[m] == i;
  }

  lemma {:induction false} AscendingIsRange(x: seq<nat>, n: nat, i: nat)
    requires Ascending(x) && (forall j: nat :: j < n <==> j in x) && i < n
    ensures |x| > i && x[i] == i
  {
    if i > 0 { AscendingIsRange(x, n, i - 1); }
    assert i in x;
    var m :| 0 <= m < |x| && x[m] == i;
    if m < i { AscendingIsRange(x, n, m); }
  }

  lemma {:induction false} AscendingAtLeast(x: seq<nat>, i: nat)
    requires i < |x| && Ascending(x)
    ensures x[i] >= i
  {
    if i > 0 { AscendingAtLeast(x, i - 1); }
  }

  lemma RangeSplit(a: nat, m: nat, c: nat)
    requires a <= m <= c
    ensures Range(a, c) == Range(a, m) + Range(m, c)
  {}

  lemma MembersAreRange(x: seq<nat>, k: nat)
    requires Ascending(x) && (forall j: nat :: j < k <==> j in x)
    ensures x == Range(0, k)
  {
    forall i | 0 <= i < k ensures |x| > i && x[i] == i { AscendingIsRange(x, k, i); }
    if k > 0 { AscendingIsRange(x, k, k - 1); }
    if |x| > 0 {
      AscendingAtLeast(x, |x| - 1);
      assert x[|x| - 1] in x;
    }
  }

  /** With nothing dropped, settled, in-flight and queued records are the push order. */
  lemma PushOrder(s: Producer, b: nat)
    requires Inv(s, b) && s.dropped == []
    ensures Done(s) + s.queue == Range(0, s.pushed)
  {
    var k := s.pushed - |s.queue|;
    MembersAreRange(Done(s), k);
    RangeSplit(0, k, s.pushed);
  }

  /** A producer that meets no retriable error settles records in push order and loses none. */
  lemma NoRetryNoLoss(b: nat, run: seq<Label>)
    requires b > 0 && ValidRun(New, b, run) && SendRetriable !in run
    ensures var s := After(New, b, run);
            s.dropped == [] && Done(s) + s.queue == Range(0, s.pushed)
  {
    RunKeepsInv(New, b, run);
    NeverPausing(New, b, run);
    NothingDroppedExactlyWhen(New, b, run);
    PushOrder(After(New, b, run), b);
  }

  lemma {:induction false} NeverPausing(s: Producer, b: nat, run: seq<Label>)
    requires ValidRun(s, b, run) && SendRetriable !in run && !s.phase.Pausing?
    ensures RetriesMeetEmptyQueue(s, b, run)
    decreases |run|
  {
    if run != [] {
      assert run[0] in run;
      NeverPausing(Step(s, b, run[0]), b, run[1..]);
    }
  }

  /** One retry with a record waiting behind the batch, and the record is gone. */
  lemma RetryCanDrop()
    ensures var run := [Send, FlushTick, Send, SendRetriable, RetryBegins, SendOk];
            ValidRun(New, 1, run) && After(New, 1, run) == Producer(2, [], false, Idle, [Resolved(0)], [1], 1)
  {
    var run := [Send, FlushTick, Send, SendRetriable, RetryBegins, SendOk];
    var s1 := Step(New, 1, Send);
    assert s1 == Producer(1, [0], false, Idle, [], [], 0);
    var s2 := Step(s1, 1, FlushTick);
    assert s2 == Producer(1, [], true, Sending([0]), [], [], 0);
    var s3 := Step(s2, 1, Send);
    assert s3 == Producer(2, [1], true, Sending([0]), [], [], 0);
    var s4 := Step(s3, 1, SendRetriable);
    var s5 := Step(s4, 1, RetryBegins);
    assert s5 == Producer(2, [], true, Sending([0]), [], [1], 0);
    var s6 := Step(s5, 1, SendOk);
    assert run[1..] == [FlushTick, Send, SendRetriable, RetryBegins, SendOk];
    assert run[1..][1..] == [Send, SendRetriable, RetryBegins, SendOk];
    assert run[1..][1..][1..] == [SendRetriable, RetryBegins, SendOk];
    assert run[1..][1..][1..][1..] == [RetryBegins, SendOk];
    assert run[1..][1..][1..][1..][1..] == [SendOk];
    assert run[1..][1..][1..][1..][1..][1..] == [];
  }

  // ---------------------------------------------------------------- the object

  class ThrottledProducer {
    const batchSize: nat
    var recordQueue: seq<nat>
    var isFlushing: bool
    var recordsSent: nat
    var phase: Phase
    var pushed: nat
    ghost var settled: seq<Settlement>
    ghost var dropped: seq<nat>

    ghost function State(): Producer
      reads this
    {
      Producer(pushed, recordQueue, isFlushing, phase, settled, dropped, recordsSent)
    }

    ghost predicate Valid()
      reads this
    {
      batchSize > 0 && Inv(State(), batchSize)
    }

    constructor (maxOutgoingBatchSize: nat)
      ensures Valid() && State() == New && batchSize == BatchSize(maxOutgoingBatchSize)
    {
      batchSize := BatchSize(maxOutgoingBatchSize);
      recordQueue, isFlushing, recordsSent, phase, pushed := [], false, 0, Idle, 0;
      settled, dropped := [], [];
    }

    /** The synchronous part of `send`: the promise executor. */
    method Push() returns (record: nat)
      requires Valid()
      modifies this
      ensures Valid() && State() == Step(old(State()), batchSize, Send) && record == old(pushed)
    {
      ghost var s := State();
      record := pushed;
      recordQueue := recordQueue + [record];
      pushed := pushed + 1;
      InvStep(s, batchSize, Send);
    }

    /** `flush()` as the interval calls it, up to `sendBatch`. */
    method FlushFromTimer()
      requires Valid()
      modifies this
      ensures Valid() && State() == Step(old(State()), batchSize, FlushTick)
    {
      ghost var s := State();
      if isFlushing { return; }
      isFlushing := true;
      var outgoing := Front(recordQueue, batchSize);
      recordQueue := Rest(recordQueue, batchSize);
      if |outgoing| == 0 {
        isFlushing := false;
        phase := Idle;
      } else {
        phase := Sending(outgoing);
      }
      InvStep(s, batchSize, FlushTick);
    }

    /** `flush(outgoing, n + 1)` after the pause: the queue is sliced here too. */
    method FlushAgain()
      requires Valid() && phase.Pausing?
      modifies this
      ensures Valid() && State() == Step(old(State()), batchSize, RetryBegins)
    {
      ghost var s := State();
      isFlushing := true;
      dropped := dropped + Front(recordQueue, batchSize);
      recordQueue := Rest(recordQueue, batchSize);
      phase := Sending(phase.batch);
      InvStep(s, batchSize, RetryBegins);
    }

    /** `sendBatch` resolved. */
    method BatchSent()
      requires Valid() && phase.Sending?
      modifies this
      ensures Valid() && State() == Step(old(State()), batchSize, SendOk)
    {
      ghost var s := State();
      recordsSent := recordsSent + |phase.batch|;
      settled := settled + Resolutions(phase.batch);
      isFlushing, phase := false, Idle;
      InvStep(s, batchSize, SendOk);
    }

    /** `sendBatch` rejected: with code 59 or 3 it is tried again, otherwise the batch is rejected. */
    method BatchFailed(retriable: bool)
      requires Valid() && phase.Sending?
      modifies this
      ensures Valid() && State() == Step(old(State()), batchSize, if retriable then SendRetriable else SendFails)
    {
      ghost var s := State();
      if retriable {
        phase := Pausing(phase.batch);
      } else {
        settled := settled + Rejections(phase.batch);
        isFlushing, phase := false, Idle;
      }
      InvStep(s, batchSize, if retriable then SendRetriable else SendFails);
    }
  }
}
