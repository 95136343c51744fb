/**
 How a saga's subscriptions hand events to instances: the hot and the cold lane, and the dispatch of one event.
 */
module SagaDispatch {
  import opened Wrappers

  // ---------------------------------------------------------------- lanes

  /** What the hot predicate did with an event. */
  datatype Verdict = Hot | Cold | Raised

  /** A predicate that throws counts as cold. */
  predicate IsHot(v: Verdict) { v.Hot? }

  /** The positions a lane dispatches, given what the predicate said to that lane. */
  function LaneOf(verdicts: seq<Verdict>, hot: bool): seq<nat> {
    if verdicts == [] then []
    else
      var n := |verdicts| - 1;
      LaneOf(verdicts[..n], hot) + (if IsHot(verdicts[n]) == hot then [n] else [])
  }

  /** A lane dispatches exactly its own positions, in the order of the log; the cold lane's are those where the
      predicate said no or threw. */
  lemma {:induction false} LaneKeepsOrder(verdicts: seq<Verdict>, hot: bool)
    ensures var r := LaneOf(verdicts, hot);
            && (forall i: nat :: i in r <==> i < |verdicts| && (verdicts[i] == Hot <==> hot))
            && (forall j, k :: 0 <= j < k < |r| ==> r[j] < r[k])
  {
    if verdicts != [] {
      var front := verdicts[..|verdicts| - 1];
      LaneKeepsOrder(front, hot);
      var r := LaneOf(front, hot);
      forall k | 0 <= k < |r| ensures r[k] < |front| { assert r[k] in r; }
    }
  }

  /** One lane's subscription working through the log: the cold lane returns early on hot events, the hot
      lane on all others. */
  method RunLane(verdicts: seq<Verdict>, hot: bool) returns (dispatched: seq<nat>)
    ensures dispatched == LaneOf(verdicts, hot)
  {
    dispatched := [];
    var i := 0;
    while i < |verdicts|
      invariant 0 <= i <= |verdicts|
      invariant dispatched == LaneOf(verdicts[..i], hot)
    {
      assert verdicts[..i + 1][..i] == verdicts[..i];
      if IsHot(verdicts[i]) == hot {
        dispatched := dispatched + [i];
      }
      i := i + 1;
    }
    assert verdicts[..|verdicts|] == verdicts;
  }

  /** How often event i is dispatched when the cold lane got `cold` and the hot lane got `hot`. */
  function Dispatches(cold: seq<Verdict>, hot: seq<Verdict>, i: nat): nat {
    multiset(LaneOf(cold, false) + LaneOf(hot, true))[i]
  }

  lemma {:induction false} CountAscending(r: seq<nat>, i: nat)
    requires forall j, k :: 0 <= j < k < |r| ==> r[j] < r[k]
    ensures multiset(r)[i] == if i in r then 1 else 0
  {
    if r != [] {
      var m := |r| - 1;
      assert r == r[..m] + [r[m]];
      CountAscending(r[..m], i);
    }
  }

  lemma LaneCounts(cold: seq<Verdict>, hot: seq<Verdict>, i: nat)
    requires |cold| == |hot| && i < |cold|
    ensures Dispatches(cold, hot, i) == (if IsHot(cold[i]) then 0 else 1) + (if IsHot(hot[i]) then 1 else 0)
  {
    LaneKeepsOrder(cold, false);
    LaneKeepsOrder(hot, true);
    CountAscending(LaneOf(cold, false), i);
    CountAscending(LaneOf(hot, true), i);
  }

  /** The predicate is asked once per lane.  Every event is dispatched exactly once, by one lane or the other,
      exactly when the two answers agree on being hot; a deterministic predicate is the case in point.  Within
      each lane the log's order is kept (`LaneKeepsOrder`). */
  lemma LanesPartition(cold: seq<Verdict>, hot: seq<Verdict>)
    requires |cold| == |hot|
    ensures (forall i: nat :: i < |cold| ==> Dispatches(cold, hot, i) == 1) <==>
            (forall i: nat :: i < |cold| ==> (cold[i] == Hot <==> hot[i] == Hot))
  {
    forall i: nat | i < |cold| ensures Dispatches(cold, hot, i) == 1 <==> IsHot(cold[i]) == IsHot(hot[i]) {
      LaneCounts(cold, hot, i);
    }
  }

  // ---------------------------------------------------------------- one event

  /** A stored instance, `ended` or not. */
  datatype Instance = Instance(id: string, saga: string, data: map<string, string>, ended: bool)

  /** What `matchInstance` returned for the event. */
  datatype Matcher = Matcher(property: string, value: string)

  /** `matchInstance` may throw. */
  datatype Match = Matched(matcher: Matcher) | MatchThrows(error: string)

  /** The start handler's `matches` function. */
  datatype StartTest = NoTest | Accepts | Declines | Fails(error: string)

  /** How the promise of one task settles. */
  datatype Settling = Fulfilled | Failed(error: string)

  datatype Action = TaskFor(id: string) | StartNew | OnError(error: string)

  /** The query tests the saga's name and the property, not `ended`. */
  predicate Matches(x: Instance, saga: string, m: Matcher) {
    x.saga == saga && m.property in x.data && x.data[m.property] == m.value
  }

  function Matching(table: seq<Instance>, saga: string, m: Matcher): (r: seq<string>)
    ensures forall id :: id in r <==> exists i :: 0 <= i < |table| && Matches(table[i], saga, m) && table[i].id == id
  {
    if table == [] then []
    else
      var n := |table| - 1;
      assert table == table[..n] + [table[n]];
      Matching(table[..n], saga, m) + (if Matches(table[n], saga, m) then [table[n].id] else [])
  }

  /** The instances found are, in table order, those of this saga whose property has the value. */
  lemma {:induction false} MatchingInOrder(table: seq<Instance>, saga: string, m: Matcher) returns (at: seq<nat>)
    ensures |at| == |Matching(table, saga, m)|
    ensures forall i :: 0 <= i < |at| ==> at[i] < |table| && Matching(table, saga, m)[i] == table[at[i]].id
    ensures forall i, j :: 0 <= i < j < |at| ==> at[i] < at[j]
    ensures forall k: nat :: k in at <==>
              && k < |table| && table[k].saga == saga
              && m.property in table[k].data && table[k].data[m.property] == m.value
  {
    at := [];
    if table != [] {
      var n := |table| - 1;
      at := MatchingInOrder(table[..n], saga, m);
      if Matches(table[n], saga, m) { at := at + [n]; }
    }
  }

  predicate SameButEnded(x: Instance, y: Instance) { x.(ended := y.ended) == y }

  /** Whether instances are ended makes no difference to which are found. */
  lemma {:induction false} MatchingIgnoresEnded(a: seq<Instance>, b: seq<Instance>, saga: string, m: Matcher)
    requires |a| == |b| && forall i :: 0 <= i < |a| ==> SameButEnded(a[i], b[i])
    ensures Matching(a, saga, m) == Matching(b, saga, m)
  {
    if a != [] {
      var n := |a| - 1;
      assert SameButEnded(a[n], b[n]);
      MatchingIgnoresEnded(a[..n], b[..n], saga, m);
    }
  }

  /** k tasks are run one after the other; the k-th of them is the first to fail, or they are all. */
  ghost predicate StopsAt(ids: seq<string>, settles: string -> Settling, k: nat) {
    && k <= |ids|
    && (forall i :: 0 <= i < k - 1 ==> settles(ids[i]).Fulfilled?)
    && (k < |ids| ==> k > 0 && settles(ids[k - 1]).Failed?)
  }

  function TaskActions(ids: seq<string>): seq<Action> { seq(|ids|, i requires 0 <= i < |ids| => TaskFor(ids[i])) }

  /** The loop of `checkSagaEventHandlers`: each matching instance's task is awaited before the next. */
  method RunMatching(ids: seq<string>, settles: string -> Settling)
    returns (actions: seq<Action>, error: Option<string>)
    ensures exists k: nat :: StopsAt(ids, settles, k) && actions == TaskActions(ids[..k])
                             && error == (if k > 0 && settles(ids[k - 1]).Failed? then Some(settles(ids[k - 1]).error)
                                 else None)
  {
    actions, error := [], None;
    var i := 0;
    while i < |ids|
      invariant 0 <= i <= |ids| && actions == TaskActions(ids[..i]) && error.None?
      invariant forall j :: 0 <= j < i ==> settles(ids[j]).Fulfilled?
    {
      actions := actions + [TaskFor(ids[i])];
      assert actions == TaskActions(ids[..i + 1]);
      var s := settles(ids[i]);
      if s.Failed? {
        error := Some(s.error);
        assert StopsAt(ids, settles, i + 1);
        return;
      }
      i := i + 1;
    }
    assert StopsAt(ids, settles, |ids|);
  }

  /** A start that fails, or whose test fails, goes to the error handler too. */
  function StartActions(test: StartTest, start: Settling): seq<Action> {
    match test
    case Declines => []
    case Fails(e) => [OnError(e)]
    case _ => [StartNew] + (if start.Failed? then [OnError(start.error)] else [])
  }

  /** A failing task ends the loop and goes to the saga's error handler. */
  function ErrorTail(ids: seq<string>, settles: string -> Settling, k: nat): seq<Action>
    requires k <= |ids|
  {
    if k > 0 && settles(ids[k - 1]).Failed? then [OnError(settles(ids[k - 1]).error)] else []
  }

  ghost predicate IsTaskRun(ids: seq<string>, settles: string -> Settling, actions: seq<Action>) {
    exists k: nat ::
      && StopsAt(ids, settles, k)
      && actions == TaskActions(ids[..k]) + ErrorTail(ids, settles, k)
  }

  /** The actions of a dispatch that found `found`, or whose matcher threw. */
  ghost predicate DispatchOf(handles: bool, starts: bool, answer: Match, found: seq<string>, test: StartTest,
                             start: Settling, settles: string -> Settling, actions: seq<Action>) {
    if handles && answer.MatchThrows? then actions == [OnError(answer.error)]
    else if handles && found != [] then IsTaskRun(found, settles, actions)
    else actions == if starts then StartActions(test, start) else []
  }

  /** `dispatchSagaEvent` for an event whose type has an `on` handler (`handles`), a `startOn` handler
      (`starts`), both or neither. */
  method DispatchSagaEvent(handles: bool, starts: bool, table: seq<Instance>, saga: string, answer: Match,
                           test: StartTest, start: Settling, settles: string -> Settling)
    returns (actions: seq<Action>)
    ensures DispatchOf(handles, starts, answer, if answer.Matched? then Matching(table, saga, answer.matcher) else [],
                       test, start, settles, actions)
  {
    actions := [];
    if handles {
      if answer.MatchThrows? { return [OnError(answer.error)]; }
      var found := Matching(table, saga, answer.matcher);
      if |found| > 0 {
        actions := RunTasks(found, settles);
      } else if starts {
        actions := StartActions(test, start);
      }
    } else if starts {
      actions := StartActions(test, start);
    }
  }

  /** The tasks of the instances found, inside the `try` of the dispatch. */
  method RunTasks(found: seq<string>, settles: string -> Settling) returns (actions: seq<Action>)
    ensures IsTaskRun(found, settles, actions)
  {
    var error: Option<string>;
    actions, error := RunMatching(found, settles);
    ghost var k: nat :| StopsAt(found, settles, k) && actions == TaskActions(found[..k])
                        && error == (if k > 0 && settles(found[k - 1]).Failed?
                                     then Some(settles(found[k - 1]).error) else None);
    if error.Some? { actions := actions + [OnError(error.value)]; }
    assert actions == TaskActions(found[..k]) + ErrorTail(found, settles, k);
  }

  /** A dispatch never both runs a task and starts an instance, starts at most one, and that exactly if there is a
      start handler whose test lets the event pass and no instance to handle it.  With distinct ids and no failing
      task it runs exactly one task for each matching instance - preserved ended ones included.  The error handler
      is called at most once, and exactly if the matcher, the start or a task failed. */
  lemma DispatchOnce(handles: bool, starts: bool, answer: Match, found: seq<string>, test: StartTest,
                     start: Settling, settles: string -> Settling, actions: seq<Action>)
    requires DispatchOf(handles, starts, answer, found, test, start, settles, actions)
    requires forall i, j :: 0 <= i < j < |found| ==> found[i] != found[j]
    ensures multiset(actions)[StartNew] <= 1
    ensures StartNew in actions <==>
              starts && (test == NoTest || test == Accepts) && (handles ==> answer.Matched? && found == [])
    ensures StartNew in actions ==> forall id :: TaskFor(id) !in actions
    ensures forall id :: multiset(actions)[TaskFor(id)] <= (if handles && id in found then 1 else 0)
    ensures handles && answer.Matched? && (forall id :: id in found ==> settles(id).Fulfilled?) ==>
              forall id :: id in found ==> multiset(actions)[TaskFor(id)] == 1
    ensures forall i :: 0 <= i < |actions| - 1 ==> !actions[i].OnError?
    ensures (exists i :: 0 <= i < |actions| && actions[i].OnError?) <==>
            if handles && answer.MatchThrows? then true
            else if handles && found != [] then exists id :: id in found && settles(id).Failed?
            else starts && (test.Fails? || (!test.Declines? && start.Failed?))
  {
    if handles && answer.Matched? && found != [] {
      var k: nat :| StopsAt(found, settles, k) && actions == TaskActions(found[..k]) + ErrorTail(found, settles, k);
      TaskRunOnce(found, settles, actions, k);
      ErrorComesLast(found, settles, actions, k);
    } else {
      OtherActions(handles, starts, answer, found, test, start, settles, actions);
    }
  }

  /** What the error handler is given: the error of whatever failed. */
  lemma ErrorsArePassedOn(handles: bool, starts: bool, answer: Match, found: seq<string>, test: StartTest,
                          start: Settling, settles: string -> Settling, actions: seq<Action>, e: string)
    requires DispatchOf(handles, starts, answer, found, test, start, settles, actions) && OnError(e) in actions
    ensures if handles && answer.MatchThrows? then answer == MatchThrows(e)
            else if handles && found != [] then exists id :: id in found && settles(id) == Failed(e)
            else starts && (test == StartTest.Fails(e) || start == Failed(e))
  {
    if handles && answer.Matched? && found != [] {
      var k: nat :| StopsAt(found, settles, k) && actions == TaskActions(found[..k]) + ErrorTail(found, settles, k);
      assert OnError(e) !in TaskActions(found[..k]);
      assert OnError(e) in ErrorTail(found, settles, k);
      assert found[k - 1] in found && settles(found[k - 1]) == Failed(e);
    }
  }

  lemma OtherActions(handles: bool, starts: bool, answer: Match, found: seq<string>, test: StartTest,
                     start: Settling, settles: string -> Settling, actions: seq<Action>)
    requires DispatchOf(handles, starts, answer, found, test, start, settles, actions)
    requires !(handles && answer.Matched? && found != [])
    ensures |actions| <= 2 && multiset(actions)[StartNew] <= 1
    ensures StartNew in actions <==>
              starts && (test == NoTest || test == Accepts) && !(handles && answer.MatchThrows?)
    ensures forall id :: TaskFor(id) !in actions && multiset(actions)[TaskFor(id)] == 0
    ensures forall i :: 0 <= i < |actions| - 1 ==> !actions[i].OnError?
    ensures (exists i :: 0 <= i < |actions| && actions[i].OnError?) <==>
            if handles && answer.MatchThrows? then true
                else starts && (test.Fails? || (!test.Declines? && start.Failed?))
  {
    var expected := if handles && answer.MatchThrows? then [OnError(answer.error)]
                    else if starts then StartActions(test, start) else [];
    assert actions == expected;
    forall id ensures TaskFor(id) !in actions && multiset(actions)[TaskFor(id)] == 0 {}
    if starts && !(handles && answer.MatchThrows?) && (test == NoTest || test == Accepts) {
      assert actions[0] == StartNew;
    }
    if |actions| > 0 { assert actions[0].OnError? || actions[0].StartNew?; }
    if |actions| > 1 { assert actions[1].OnError?; }
  }

  lemma ErrorComesLast(found: seq<string>, settles: string -> Settling, actions: seq<Action>, k: nat)
    requires StopsAt(found, settles, k) && actions == TaskActions(found[..k]) + ErrorTail(found, settles, k)
             && found != []
    ensures forall i :: 0 <= i < |actions| - 1 ==> !actions[i].OnError?
    ensures (exists i :: 0 <= i < |actions| && actions[i].OnError?) <==> exists id :: id in found && settles(id).Failed?
  {
    if k > 0 && settles(found[k - 1]).Failed? {
      assert found[k - 1] in found && actions[k].OnError?;
    } else {
      assert k == |found| && forall i :: 0 <= i < |found| ==> settles(found[i]).Fulfilled?;
    }
  }

  lemma TaskRunOnce(found: seq<string>, settles: string -> Settling, actions: seq<Action>, k: nat)
    requires StopsAt(found, settles, k) && actions == TaskActions(found[..k]) + ErrorTail(found, settles, k)
    requires forall i, j :: 0 <= i < j < |found| ==> found[i] != found[j]
    ensures multiset(actions)[StartNew] == 0 && StartNew !in actions
    ensures forall id :: multiset(actions)[TaskFor(id)] <= (if id in found then 1 else 0)
    ensures (forall id :: id in found ==> settles(id).Fulfilled?) ==>
              forall id :: id in found ==> multiset(actions)[TaskFor(id)] == 1
  {
    TaskRunCounts(found[..k], ErrorTail(found, settles, k), "");
    forall id ensures multiset(actions)[TaskFor(id)] == if id in found[..k] then 1 else 0 {
      TaskRunCounts(found[..k], ErrorTail(found, settles, k), id);
    }
    if forall id :: id in found ==> settles(id).Fulfilled? {
      assert forall i :: 0 <= i < |found| ==> settles(found[i]).Fulfilled?;
      RunsAll(found, settles, k);
      assert found[..k] == found;
    }
  }

  lemma TaskRunCounts(ids: seq<string>, tail: seq<Action>, id: string)
    requires forall i, j :: 0 <= i < j < |ids| ==> ids[i] != ids[j]
    requires forall i :: 0 <= i < |tail| ==> tail[i].OnError?
    ensures multiset(TaskActions(ids) + tail)[TaskFor(id)] == if id in ids then 1 else 0
    ensures multiset(TaskActions(ids) + tail)[StartNew] == 0
  {
    CountTask(ids, id);
    NoStart(ids);
    assert TaskFor(id) !in tail && StartNew !in tail;
    assert multiset(TaskActions(ids) + tail) == multiset(TaskActions(ids)) + multiset(tail);
  }

  lemma RunsAll(ids: seq<string>, settles: string -> Settling, k: nat)
    requires StopsAt(ids, settles, k) && forall i :: 0 <= i < |ids| ==> settles(ids[i]).Fulfilled?
    ensures k == |ids|
  {}

  lemma {:induction false} CountTask(ids: seq<string>, id: string)
    requires forall i, j :: 0 <= i < j < |ids| ==> ids[i] != ids[j]
    ensures multiset(TaskActions(ids))[TaskFor(id)] == if id in ids then 1 else 0
  {
    if ids != [] {
      var m := |ids| - 1;
      assert ids == ids[..m] + [ids[m]];
      assert TaskActions(ids) == TaskActions(ids[..m]) + [TaskFor(ids[m])];
      CountTask(ids[..m], id);
    }
  }

  lemma {:induction false} NoStart(ids: seq<string>)
    ensures StartNew !in TaskActions(ids) && multiset(TaskActions(ids))[StartNew] == 0
  {
    assert StartNew !in TaskActions(ids);
  }
}
