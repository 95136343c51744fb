/**
 The in-process event log: a stream of items, and subscriptions that follow it by the id of the last item.
 */
module StreamSubscriptions {
  import opened Wrappers

  datatype Item = Item(id: string, event: string)

  /** An undefined or empty cursor is falsy. */
  predicate Falsy(cursor: Option<string>) { cursor.None? || cursor.value == "" }

  /** Position of the first item with this id. */
  function Find(items: seq<Item>, id: string): (r: Option<nat>)
    ensures r.Some? ==>
              r.value < |items| && items[r.value].id == id && forall i :: 0 <= i < r.value ==> items[i].id != id
    ensures r.None? ==> forall i :: 0 <= i < |items| ==> items[i].id != id
  {
    if items == [] then None
    else if items[0].id == id then Some(0)
    else
      var r := Find(items[1..], id);
      assert forall i :: 1 <= i < |items| ==> items[i] == items[1..][i - 1];
      if r.Some? then Some(r.value + 1) else None
  }

  /** What `getNextAfter` returns, as a position. */
  function NextAfter(items: seq<Item>, cursor: Option<string>): (r: Option<nat>)
    ensures r.Some? ==> r.value < |items|
  {
    if Falsy(cursor) && |items| > 0 then Some(0)
    else if cursor.None? then None
    else
      match Find(items, cursor.value)
      case None => None
      case Some(i) => if i + 1 < |items| then Some(i + 1) else None
  }

  ghost predicate GoodIds(items: seq<Item>) {
    && (forall i :: 0 <= i < |items| ==> items[i].id != "")
    && (forall i, j :: 0 <= i < j < |items| ==> items[i].id != items[j].id)
  }

  // ---------------------------------------------------------------- one subscription

  /** running: the `while` loops of `process()` that wait for a handler; loops are numbered as they begin.
      delivered: the positions handed to the handler so far.  pending: something was emitted since the last
      tick.  stalled: a handler has thrown and no loop has begun since.  met: a tick has come while a loop was
      running, and one still is. */
  datatype Sub = Sub(items: seq<Item>, cursor: Option<string>, processing: bool, running: set<nat>, nextLoop: nat,
                     delivered: seq<nat>, ticked: bool, pending: bool, stalled: bool, met: bool)

  datatype Label = Push(item: Item) | Tick | Resolve(loop: nat) | Throw(loop: nat)

  /** Loop l takes the next item, or ends; only the end touches `processing`. */
  function TakeNext(s: Sub, l: nat): Sub {
    match NextAfter(s.items, s.cursor)
    case None => EndLoop(s, l)
    case Some(i) => s.(cursor := Some(s.items[i].id), delivered := s.delivered + [i])
  }

  /** The `finally` block, when loop l is the one that leaves. */
  function EndLoop(s: Sub, l: nat): Sub {
    s.(processing := false, running := s.running - {l}, met := s.met && s.running != {l})
  }

  /** The early `return` stands inside the `try`, so a tick on a busy subscription resets `processing` too; the
      next tick then begins another loop. */
  function TickSub(s: Sub): Sub {
    var t := s.(ticked := true, pending := false, met := s.running != {});
    if s.processing then t.(processing := false)
    else TakeNext(t.(processing := true, running := s.running + {s.nextLoop},
        nextLoop := s.nextLoop + 1, stalled := false),
                  s.nextLoop)
  }

  predicate Enabled(s: Sub, l: Label) {
    match l
    case Push(_) => true
    case Tick => true
    case Resolve(k) => k in s.running
    case Throw(k) => k in s.running
  }

  function Step(s: Sub, l: Label): Sub
    requires Enabled(s, l)
  {
    match l
    case Push(item) => s.(items := s.items + [item], pending := true)
    case Tick => TickSub(s)
    case Resolve(k) => TakeNext(s, k)
    case Throw(k) => EndLoop(s, k).(stalled := true)
  }

  function NewSub(items: seq<Item>): Sub { Sub(items, None, false, {}, 0, [], false, |items| > 0, false, false) }

  /** The first |d| positions, each once and in order. */
  ghost predicate InOrder(d: seq<nat>) { forall k :: 0 <= k < |d| ==> d[k] == k }

  /** The cursor is the id of the last item delivered. */
  ghost predicate Follows(s: Sub) {
    && GoodIds(s.items)
    && InOrder(s.delivered) && |s.delivered| <= |s.items|
    && s.cursor == (if s.delivered == [] then None else Some(s.items[|s.delivered| - 1].id))
  }

  ghost predicate AtMostOne(x: set<nat>) { forall a, b :: a in x && b in x ==> a == b }

  /** `processing` implies that a loop is running; the converse holds until a tick has met it. */
  ghost predicate Inv(s: Sub) {
    && Follows(s)
    && (forall k :: k in s.running ==> k < s.nextLoop)
    && (s.processing ==> s.running != {})
    && (s.met ==> s.running != {})
    && (!s.met && s.running != {} ==> s.processing && AtMostOne(s.running))
    && (s.ticked && s.running == {} && !s.pending && !s.stalled ==> |s.delivered| == |s.items|)
  }

  lemma NextIsNext(items: seq<Item>, n: nat)
    requires GoodIds(items) && n <= |items|
    ensures NextAfter(items, if n == 0 then None else Some(items[n - 1].id)) == if n < |items| then Some(n) else None
  {}

  lemma InvStep(s: Sub, l: Label)
    requires Inv(s) && Enabled(s, l)
    requires l.Push? ==> l.item.id != "" && forall i :: 0 <= i < |s.items| ==> s.items[i].id != l.item.id
    ensures Inv(Step(s, l))
  {
    match l
    case Push(item) => PushFollows(s, item);
    case Tick => if !s.processing { BeginKeeps(s); }
    case Resolve(k) => TakeNextFollows(s, k);
    case Throw(_) =>
  }

  lemma BeginKeeps(s: Sub)
    requires Inv(s) && !s.processing
    ensures Inv(TickSub(s))
  {
    TakeNextFollows(Begun(s), s.nextLoop);
    assert TickSub(s) == TakeNext(Begun(s), s.nextLoop);
  }

  /** The state of a tick that begins a loop, before the first item is taken. */
  function Begun(s: Sub): Sub {
    s.(ticked := true, pending := false, met := s.running != {}, processing := true,
       running := s.running + {s.nextLoop}, nextLoop := s.nextLoop + 1, stalled := false)
  }

  lemma TakeNextFollows(s: Sub, l: nat)
    requires Follows(s)
    ensures var t := TakeNext(s, l);
            && Follows(t) && t.items == s.items
            && (if |s.delivered| < |s.items|
                then t == s.(cursor := t.cursor, delivered := s.delivered + [|s.delivered|])
                else t == EndLoop(s, l))
  {
    NextIsNext(s.items, |s.delivered|);
    var n := |s.delivered|;
    if n < |s.items| {
      FollowsNext(s);
      assert TakeNext(s, l) == s.(cursor := Some(s.items[n].id), delivered := s.delivered + [n]);
    }
  }

  lemma FollowsNext(s: Sub)
    requires Follows(s) && |s.delivered| < |s.items|
    ensures Follows(s.(cursor := Some(s.items[|s.delivered|].id), delivered := s.delivered + [|s.delivered|]))
  {
  }

  lemma PushFollows(s: Sub, item: Item)
    requires Follows(s) && item.id != "" && forall i :: 0 <= i < |s.items| ==> s.items[i].id != item.id
    ensures Follows(s.(items := s.items + [item], pending := true))
  {
    var items := s.items + [item];
    forall i, j | 0 <= i < j < |items| ensures items[i].id != items[j].id {
      if j < |s.items| { assert items[i] == s.items[i] && items[j] == s.items[j]; }
    }
  }

  ghost predicate ValidRun(s: Sub, run: seq<Label>)
    decreases |run|
  {
    run == [] || (Enabled(s, run[0]) && ValidRun(Step(s, run[0]), run[1..]))
  }

  ghost function After(s: Sub, run: seq<Label>): Sub
    requires ValidRun(s, run)
    decreases |run|
  {
    if run == [] then s else After(Step(s, run[0]), run[1..])
  }

  lemma {:induction false} ItemsGrow(s: Sub, run: seq<Label>)
    requires ValidRun(s, run)
    ensures |s.items| <= |After(s, run).items| && s.items == After(s, run).items[..|s.items|]
    decreases |run|
  {
    if run != [] { ItemsGrow(Step(s, run[0]), run[1..]); }
  }

  lemma StepKeepsInv(s: Sub, run: seq<Label>)
    requires Inv(s) && ValidRun(s, run) && run != [] && GoodIds(After(s, run).items)
    ensures Inv(Step(s, run[0]))
  {
    ItemsGrow(Step(s, run[0]), run[1..]);
    if run[0].Push? { PushedIsNew(s.items, run[0].item, After(s, run).items); }
    InvStep(s, run[0]);
  }

  /** With unique, non-empty ids every run delivers a prefix of the stream in emit order, each item at most
      once, even when handlers throw and when loops overlap; and no tick is lost: a subscription with no loop
      running that has been ticked since the last emit and the last throw has delivered everything. */
  lemma {:induction false} RefinesLog(s: Sub, run: seq<Label>)
    requires Inv(s) && ValidRun(s, run) && GoodIds(After(s, run).items)
    ensures var t := After(s, run);
            && Inv(t) && InOrder(t.delivered) && |t.delivered| <= |t.items|
            && s.delivered <= t.delivered
            && (t.ticked && t.running == {} && !t.pending && !t.stalled ==> |t.delivered| == |t.items|)
    decreases |run|
  {
    if run != [] {
      var s1 := Step(s, run[0]);
      StepKeepsInv(s, run);
      DeliveredGrows(s, run[0]);
      RefinesLog(s1, run[1..]);
    }
  }

  lemma PushedIsNew(items: seq<Item>, item: Item, later: seq<Item>)
    requires items + [item] <= later && GoodIds(later)
    ensures item.id != "" && forall i :: 0 <= i < |items| ==> items[i].id != item.id
  {
    assert later[|items|] == (items + [item])[|items|] == item;
    forall i | 0 <= i < |items| ensures items[i].id != item.id { assert later[i] == (items + [item])[i] == items[i]; }
  }

  lemma DeliveredGrows(s: Sub, l: Label)
    requires Enabled(s, l)
    ensures s.delivered <= Step(s, l).delivered
  {
  }

  /** Whenever an awaited handler settles, items left after the cursor and loops running get fewer by one, so
      with no more emits and ticks every loop comes to its end. */
  lemma LoopsTerminate(s: Sub, l: Label)
    requires Inv(s) && Enabled(s, l) && (l.Resolve? || l.Throw?)
    ensures var t := Step(s, l);
            t.items == s.items && |t.items| - |t.delivered| + |t.running| == |s.items| - |s.delivered| + |s.running| - 1
  {
    if l.Resolve? { TakeNextFollows(s, l.loop); }
  }

  // ---------------------------------------------------------------- when handlers overlap

  /** In no state of the run are two loops running, so no two handlers are awaited at once. */
  ghost predicate OneHandler(s: Sub, run: seq<Label>)
    requires ValidRun(s, run)
    decreases |run|
  {
    AtMostOne(s.running) && (run != [] ==> OneHandler(Step(s, run[0]), run[1..]))
  }

  /** After the first tick that meets a running loop no other tick comes until it has ended, unless nothing is
      left to deliver. */
  ghost predicate MetOnce(s: Sub, run: seq<Label>)
    requires ValidRun(s, run)
    decreases |run|
  {
    run != [] ==>
      (run[0].Tick? && s.met ==> |s.delivered| == |s.items|) && MetOnce(Step(s, run[0]), run[1..])
  }

  /** Handlers of one subscription never overlap exactly when no loop is met by two ticks with an item left. */
  lemma {:induction false} OneHandlerExactlyWhen(s: Sub, run: seq<Label>)
    requires Inv(s) && ValidRun(s, run) && GoodIds(After(s, run).items)
    requires AtMostOne(s.running) && (s.met ==> !s.processing)
    ensures OneHandler(s, run) <==> MetOnce(s, run)
    decreases |run|
  {
    if run != [] {
      var t := Step(s, run[0]);
      StepKeepsInv(s, run);
      if run[0].Tick? && s.met && |s.delivered| < |s.items| {
        SecondLoop(s);
      } else {
        StillOne(s, run[0]);
        OneHandlerExactlyWhen(t, run[1..]);
      }
    }
  }

  lemma SecondLoop(s: Sub)
    requires Inv(s) && s.met && !s.processing && |s.delivered| < |s.items|
    ensures !AtMostOne(Step(s, Tick).running)
  {
    TakeNextFollows(Begun(s), s.nextLoop);
    var k :| k in s.running;
    assert k in Step(s, Tick).running && s.nextLoop in Step(s, Tick).running;
  }

  lemma StillOne(s: Sub, l: Label)
    requires Inv(s) && Enabled(s, l) && AtMostOne(s.running) && (s.met ==> !s.processing)
    requires l.Tick? && s.met ==> |s.delivered| == |s.items|
    ensures AtMostOne(Step(s, l).running) && (Step(s, l).met ==> !Step(s, l).processing)
  {
    match l
    case Push(_) =>
    case Tick => if !s.processing { TakeNextFollows(Begun(s), s.nextLoop); }
    case Resolve(k) => TakeNextFollows(s, k);
    case Throw(_) =>
  }

  /** Three emits, each with its tick, while the first handler is at work: the second tick resets the flag and
      the third begins a second loop. */
  lemma HandlersCanOverlap(a: Item, b: Item, c: Item)
    requires GoodIds([a, b, c])
    ensures var run := [Push(a), Tick, Push(b), Tick, Push(c), Tick];
            ValidRun(NewSub([]), run) && After(NewSub([]), run).running == {0, 1}
                && After(NewSub([]), run).delivered == [0, 1]
  {
    var run := [Push(a), Tick, Push(b), Tick, Push(c), Tick];
    var s1 := Step(NewSub([]), Push(a));
    var s2 := Step(s1, Tick);
    assert s2 == Sub([a], Some(a.id), true, {0}, 1, [0], true, false, false, false);
    var s3 := Step(s2, Push(b));
    var s4 := Step(s3, Tick);
    assert s4 == Sub([a, b], Some(a.id), false, {0}, 1, [0], true, false, false, true);
    var s5 := Step(s4, Push(c));
    assert s5 == Sub([a, b, c], Some(a.id), false, {0}, 1, [0], true, true, false, true);
    TwoOverlap(a, b, c, s5);
    Enters(s5, Tick, []);
    Enters(s4, Push(c), [Tick]);
    Enters(s3, Tick, [Push(c), Tick]);
    Enters(s2, Push(b), [Tick, Push(c), Tick]);
    Enters(s1, Tick, [Push(b), Tick, Push(c), Tick]);
    Enters(NewSub([]), Push(a), [Tick, Push(b), Tick, Push(c), Tick]);
    assert run == [Push(a)] + [Tick, Push(b), Tick, Push(c), Tick];
  }

  lemma TwoOverlap(a: Item, b: Item, c: Item, s: Sub)
    requires GoodIds([a, b, c]) && s == Sub([a, b, c], Some(a.id), false, {0}, 1, [0], true, true, false, true)
    ensures Step(s, Tick).running == {0, 1} && Step(s, Tick).delivered == [0, 1]
  {
    assert s.items[0] == a;
    NextIsNext(s.items, 1);
  }

  lemma Enters(s: Sub, l: Label, rest: seq<Label>)
    requires Enabled(s, l) && ValidRun(Step(s, l), rest)
    ensures ValidRun(s, [l] + rest) && After(s, [l] + rest) == After(Step(s, l), rest)
  {
    assert ([l] + rest)[1..] == rest;
  }

  // ---------------------------------------------------------------- exactly which ids work

  /** What a subscription ticked once has delivered after the n-th handler call of its loop returned. */
  function Drain(items: seq<Item>, n: nat): Sub {
    if n == 0 then Step(NewSub(items), Tick)
    else
      var s := Drain(items, n - 1);
      if 0 in s.running then Step(s, Resolve(0)) else s
  }

  lemma {:induction false} DrainGood(items: seq<Item>, n: nat)
    requires GoodIds(items)
    ensures Inv(Drain(items, n)) && Drain(items, n).items == items
  {
    if n == 0 {
      InvStep(NewSub(items), Tick);
      TakeNextFollows(Begun(NewSub(items)), 0);
    } else {
      DrainGood(items, n - 1);
      var s := Drain(items, n - 1);
      if 0 in s.running {
        InvStep(s, Resolve(0));
        TakeNextFollows(s, 0);
      }
    }
  }

  /** In order, each once, so far. */
  ghost predicate Tidy(items: seq<Item>, n: nat) {
    InOrder(Drain(items, n).delivered) && |Drain(items, n).delivered| <= |items|
  }

  lemma {:induction false} DrainInOrder(items: seq<Item>, n: nat)
    requires n < |items| && forall m: nat :: m <= n ==> Tidy(items, m)
    ensures var s := Drain(items, n);
            s.items == items && 0 in s.running && |s.delivered| == n + 1 && s.cursor == Some(items[n].id)
  {
    if n > 0 { DrainInOrder(items, n - 1); }
    DrainNext(items, n);
  }

  lemma DrainNext(items: seq<Item>, n: nat)
    requires n < |items| && Tidy(items, n)
    requires n > 0 ==> var s := Drain(items, n - 1);
               s.items == items && 0 in s.running && |s.delivered| == n && s.cursor == Some(items[n - 1].id)
    ensures var s := Drain(items, n);
            s.items == items && 0 in s.running && |s.delivered| == n + 1 && s.cursor == Some(items[n].id)
  {
    var before := if n == 0 then Begun(NewSub(items)) else Drain(items, n - 1);
    var s := TakeNext(before, 0);
    assert Drain(items, n) == s;
    NextOfLast(items, n, before.cursor);
    assert s.delivered[n] == n;
  }

  /** The search for the next item answers, wherever in the stream it lands. */
  lemma NextOfLast(items: seq<Item>, n: nat, cursor: Option<string>)
    requires n < |items| && cursor == if n == 0 then None else Some(items[n - 1].id)
    ensures NextAfter(items, cursor).Some?
  {
  }

  /** A repeated or empty id sends the loop back to a position it has been at. */
  lemma BadIdsRepeat(items: seq<Item>) returns (n: nat)
    requires !GoodIds(items)
    ensures !Tidy(items, n)
  {
    var j: nat :| j < |items| && (items[j].id == "" || exists i :: 0 <= i < j && items[i].id == items[j].id);
    if m: nat :| m <= j && !Tidy(items, m) {
      n := m;
    } else {
      DrainInOrder(items, j);
      var next := NextAfter(items, Some(items[j].id));
      assert next.Some? && next.value <= j;
      n := j + 1;
      assert Drain(items, n).delivered == Drain(items, j).delivered + [next.value];
      assert Drain(items, n).delivered[n] == next.value;
    }
  }

  /** Draining any stream yields it in order, each item once, exactly when its ids are unique and non-empty. */
  lemma DrainsExactlyWhen(items: seq<Item>)
    ensures GoodIds(items) <==> forall n: nat :: Tidy(items, n)
  {
    if GoodIds(items) {
      forall n: nat ensures Tidy(items, n) { DrainGood(items, n); }
    } else {
      var n := BadIdsRepeat(items);
    }
  }

  // ---------------------------------------------------------------- the objects

  class Stream {
    var items: seq<Item>

    constructor ()
      ensures items == []
    {
      items := [];
    }

    method GetNextAfter(cursor: Option<string>) returns (next: Option<nat>)
      ensures next == NextAfter(items, cursor)
    {
      if Falsy(cursor) && |items| > 0 {
        return Some(0);
      }
      var i := 0;
      while i < |items|
        invariant 0 <= i <= |items|
        invariant cursor.Some? ==> forall j :: 0 <= j < i ==> items[j].id != cursor.value
      {
        if cursor == Some(items[i].id) {
          return if i + 1 < |items| then Some(i + 1) else None;
        }
        i := i + 1;
      }
      next := None;
    }
  }

  /** running, nextLoop and the ghost fields stand for the suspended calls of `process()` and the log of what
      was delivered. */
  class StreamSubscription {
    const stream: Stream
    var cursor: Option<string>
    var processing: bool
    ghost var running: set<nat>
    ghost var nextLoop: nat
    ghost var delivered: seq<nat>
    ghost var ticked: bool
    ghost var pending: bool
    ghost var stalled: bool
    ghost var met: bool

    ghost function State(): Sub
      reads this, stream
    {
      Sub(stream.items, cursor, processing, running, nextLoop, delivered, ticked, pending, stalled, met)
    }

    constructor (stream: Stream)
      ensures this.stream == stream && State() == NewSub(stream.items)
    {
      this.stream := stream;
      cursor, processing, running, nextLoop, delivered := None, false, {}, 0, [];
      ticked, pending, stalled, met := false, |stream.items| > 0, false, false;
    }

    /** The `finally` block. */
    method Leave(ghost loop: nat)
      modifies this`processing, this`running, this`met
      ensures State() == EndLoop(old(State()), loop)
    {
      met := met && running != {loop};
      running := running - {loop};
      processing := false;
    }

    /** From the head of the loop to the next handler call, or out. */
    method Continue(ghost loop: nat)
      modifies this
      ensures State() == TakeNext(old(State()), loop)
    {
      var next := stream.GetNextAfter(cursor);
      if next.Some? {
        cursor := Some(stream.items[next.value].id);
        delivered := delivered + [next.value];
      } else {
        Leave(loop);
      }
    }

    /** `process()` up to its first await, or to its end. */
    method Process()
      modifies this
      ensures State() == Step(old(State()), Tick)
    {
      ticked, pending, met := true, false, running != {};
      if processing {
        processing := false;
        return;
      }
      processing := true;
      ghost var loop := nextLoop;
      running, nextLoop, stalled := running + {loop}, nextLoop + 1, false;
      Continue(loop);
    }

    /** The handler awaited by a loop has resolved. */
    method HandlerResolved(ghost loop: nat)
      requires loop in running
      modifies this
      ensures State() == Step(old(State()), Resolve(loop))
    {
      Continue(loop);
    }

    /** The handler awaited by a loop has thrown: only the `finally` runs. */
    method HandlerThrew(ghost loop: nat)
      requires loop in running
      modifies this
      ensures State() == Step(old(State()), Throw(loop))
    {
      Leave(loop);
      stalled := true;
    }
  }

  /** One subscription's tick, with what the loop over all of them needs to know. */
  twostate predicate Ticked(sub: StreamSubscription)
    reads sub, sub.stream
  {
    sub.State() == TickSub(old(sub.State()))
  }

  /** `tickSubs` at the end of an emit: every subscription runs up to its first await. */
  method TickSubs(subs: seq<StreamSubscription>)
    requires forall i, j :: 0 <= i < j < |subs| ==> subs[i] != subs[j]
    modifies subs
    ensures forall i :: 0 <= i < |subs| ==> Ticked(subs[i])
  {
    var i := 0;
    while i < |subs|
      invariant 0 <= i <= |subs|
      invariant forall j :: 0 <= j < i ==> Ticked(subs[j])
      invariant forall j :: i <= j < |subs| ==> unchanged(subs[j])
    {
      var sub := subs[i];
      label Before:
      sub.Process();
      assert old@Before(sub.State()) == old(sub.State());
      assert Ticked(sub);
      forall j | 0 <= j < i ensures Ticked(subs[j]) { assert subs[j] != sub && unchanged@Before(subs[j]); }
      i := i + 1;
    }
  }
}
