/**
 The cold replay of a Redis stream: batches read with XRANGE from a cursor that moves past each entry.
 */
module RedisReplay {
  import opened Wrappers
  import opened Decimals

  // ---------------------------------------------------------------- stream ids

  datatype Id = Id(ms: nat, sq: nat)

  predicate Less(a: Id, b: Id) { a.ms < b.ms || (a.ms == b.ms && a.sq < b.sq) }

  function Text(id: Id): string { Decimal(id.ms) + "-" + Decimal(id.sq) }

  function Increment(id: Id): Id { Id(id.ms, id.sq + 1) }

  /** `parseInt(s, 10)` for a string of digits. */
  function ParseDigits(s: string): nat {
    if s == "" then 0
    else
      var c := s[|s| - 1];
      ParseDigits(s[..|s| - 1]) * 10 + (if '0' <= c <= '9' then (c as int - '0' as int) else 0)
  }

  function DashAt(s: string): (i: nat)
    ensures i <= |s|
    ensures forall k :: 0 <= k < i ==> s[k] != '-'
    ensures i < |s| ==> s[i] == '-'
  {
    if s == "" || s[0] == '-' then 0 else 1 + DashAt(s[1..])
  }

  /** `incrementStreamId`: split at the dash, add one to the sequence part. */
  function IncrementStreamId(s: string): string {
    var i := DashAt(s);
    s[..i] + "-" + Decimal(ParseDigits(if i < |s| then s[i + 1..] else "") + 1)
  }

  lemma {:induction false} ParseDecimal(n: nat)
    ensures ParseDigits(Decimal(n)) == n
  {
    if n >= 10 {
      var s := Decimal(n);
      assert s[..|s| - 1] == Decimal(n / 10);
      ParseDecimal(n / 10);
    } else {
      assert Decimal(n)[..0] == "";
    }
  }

  lemma {:induction false} DecimalHasNoDash(n: nat)
    ensures '-' !in Decimal(n)
  {
    if n >= 10 { DecimalHasNoDash(n / 10); }
  }

  lemma IncrementIsNext(id: Id)
    ensures IncrementStreamId(Text(id)) == Text(Increment(id))
  {
    var a, b := Decimal(id.ms), Decimal(id.sq);
    var s := Text(id);
    DecimalHasNoDash(id.ms);
    var i := DashAt(s);
    assert s[|a|] == '-';
    assert forall k :: 0 <= k < |a| ==> s[k] == a[k] && a[k] in a;
    assert i == |a|;
    assert s[..i] == a && s[i + 1..] == b;
    ParseDecimal(id.sq);
  }

  /** No id lies strictly between an id and the cursor that is set after it. */
  lemma NothingBetween(a: Id, x: Id)
    ensures Less(a, Increment(a)) && !(Less(a, x) && Less(x, Increment(a)))
    ensures Less(a, x) <==> !Less(x, Increment(a))
  {}

  predicate SameWidth(a: Id, b: Id) {
    |Decimal(a.ms)| == |Decimal(b.ms)| && |Decimal(a.sq)| == |Decimal(b.sq)|
  }

  /** The stop test compares texts.  For ids of equal widths that is the order of ids. */
  lemma TextOrder(a: Id, b: Id)
    requires SameWidth(a, b)
    ensures StrLess(Text(a), Text(b)) <==> Less(a, b)
  {
    var p, q := Decimal(a.ms), Decimal(b.ms);
    var x, y := "-" + Decimal(a.sq), "-" + Decimal(b.sq);
    assert Text(a) == p + x && Text(b) == q + y;
    SameWidthOrder(a.ms, b.ms);
    if a.ms == b.ms {
      LessAfterPrefix(p, x, y);
      LessAfterPrefix("-", Decimal(a.sq), Decimal(b.sq));
      SameWidthOrder(a.sq, b.sq);
    } else {
      if p == q { DecimalInjective(a.ms, b.ms); }
      LessBeforeSuffix(p, q, x, y);
    }
  }

  // ---------------------------------------------------------------- the server

  /** A stream of entries in id order without repetitions. */
  ghost predicate Ascending(stream: seq<Id>) {
    forall i, j :: 0 <= i < j < |stream| ==> Less(stream[i], stream[j])
  }

  function From(stream: seq<Id>, cursor: Id): seq<Id> {
    if stream == [] then []
    else (if Less(stream[0], cursor) then [] else [stream[0]]) + From(stream[1..], cursor)
  }

  /** XRANGE stream cursor + COUNT count. */
  function XRange(stream: seq<Id>, cursor: Id, count: nat): seq<Id> {
    var r := From(stream, cursor);
    if |r| <= count then r else r[..count]
  }

  /** The cursor stands right behind the first n entries. */
  ghost predicate Behind(stream: seq<Id>, cursor: Id, n: nat) {
    && n <= |stream|
    && (forall i :: 0 <= i < n ==> Less(stream[i], cursor))
    && (forall i :: n <= i < |stream| ==> !Less(stream[i], cursor))
  }

  lemma {:induction false} FromBehind(stream: seq<Id>, cursor: Id, n: nat)
    requires Behind(stream, cursor, n)
    ensures From(stream, cursor) == stream[n..]
    decreases |stream|
  {
    if stream != [] {
      if n == 0 {
        FromBehind(stream[1..], cursor, 0);
        assert stream == [stream[0]] + stream[1..];
      } else {
        FromBehind(stream[1..], cursor, n - 1);
        assert stream[1..][n - 1..] == stream[n..];
      }
    }
  }

  lemma CursorAfter(stream: seq<Id>, n: nat)
    requires Ascending(stream) && n < |stream|
    ensures Behind(stream, Increment(stream[n]), n + 1)
  {
    forall i | n + 1 <= i < |stream| ensures !Less(stream[i], Increment(stream[n])) {
      NothingBetween(stream[n], stream[i]);
    }
  }

  // ---------------------------------------------------------------- the loop

  /** How the replay ended. */
  datatype Exit = EmptyStream | NoEntries | ShortBatch | StopTest | Closed

  /** The test `lastId && cursor >= lastId`, on strings. */
  predicate Stops(cursor: Id, lastId: Option<Id>) {
    lastId.Some? && !StrLess(Text(cursor), Text(lastId.value))
  }

  /** The cursor left behind by the first n entries passes the test. */
  ghost predicate PassesAt(stream: seq<Id>, stops: Id -> bool, n: nat) {
    0 < n <= |stream| && stops(Increment(stream[n - 1]))
  }

  /** How many entries k full batches hold. */
  ghost function Boundary(k: nat, batch: nat): nat {
    if k == 0 then 0 else Boundary(k - 1, batch) + batch
  }

  /** No full batch ending before n leaves a cursor that passes the test. */
  ghost predicate NoStopBefore(stream: seq<Id>, stops: Id -> bool, batch: nat, n: nat) {
    forall k: nat :: Boundary(k, batch) < n ==> !PassesAt(stream, stops, Boundary(k, batch))
  }

  ghost predicate NoEarlyStop(stream: seq<Id>, stops: Id -> bool, batch: nat) {
    NoStopBefore(stream, stops, batch, |stream|)
  }

  lemma {:induction false} BoundaryGrows(j: nat, k: nat, batch: nat)
    requires j <= k
    ensures Boundary(j, batch) <= Boundary(k, batch)
  {
    if j < k { BoundaryGrows(j, k - 1, batch); }
  }

  lemma BoundariesSeen(stream: seq<Id>, stops: Id -> bool, batch: nat, rounds: nat, n: nat)
    requires forall k: nat :: k <= rounds ==> !PassesAt(stream, stops, Boundary(k, batch))
    requires n <= Boundary(rounds + 1, batch)
    ensures NoStopBefore(stream, stops, batch, n)
  {
    forall k: nat | Boundary(k, batch) < n ensures !PassesAt(stream, stops, Boundary(k, batch)) {
      if k > rounds { BoundaryGrows(rounds + 1, k, batch); }
    }
  }

  /** The entries visited so far are a prefix, and what is left is at or above the cursor. */
  ghost predicate At(stream: seq<Id>, visited: seq<Id>, cursor: Id) {
    && |visited| <= |stream| && visited == stream[..|visited|] && Behind(stream, cursor, |visited|)
    && (visited != [] ==> cursor == Increment(visited[|visited| - 1]))
  }

  /** What each way of ending means for the entries that were visited. */
  ghost predicate Ended(stream: seq<Id>, stops: Id -> bool, batch: nat, visited: seq<Id>, exit: Exit) {
    match exit
    case EmptyStream => stream == []
    case NoEntries => batch > 0 ==> visited == stream && NoStopBefore(stream, stops, batch, |stream| + 1)
    case ShortBatch => visited == stream && NoStopBefore(stream, stops, batch, |stream| + 1)
    case StopTest =>
      && PassesAt(stream, stops, |visited|) && NoStopBefore(stream, stops, batch, |visited|)
      && (exists k: nat :: |visited| == Boundary(k, batch))
    case Closed => true
  }

  /** So a replay that is not closed visits everything exactly when no full batch stops it early. */
  lemma CompleteExactlyWhen(stream: seq<Id>, stops: Id -> bool, batch: nat, visited: seq<Id>, exit: Exit)
    requires Ended(stream, stops, batch, visited, exit) && exit != Closed && batch > 0
    requires |visited| <= |stream| && visited == stream[..|visited|]
    ensures visited == stream <==> NoEarlyStop(stream, stops, batch)
  {
    if exit == StopTest {
      var k: nat :| |visited| == Boundary(k, batch);
    } else if exit == EmptyStream {
      assert NoEarlyStop(stream, stops, batch);
    }
  }

  // ---------------------------------------------------------------- how long a replay takes

  /** How many awaits are left after n entries: one for each read, and one for each entry. */
  ghost function Awaits(stream: seq<Id>, stops: Id -> bool, batch: nat, n: nat): nat
    decreases |stream| - n
  {
    if batch == 0 || n >= |stream| then 1
    else if n + batch > |stream| then 1 + |stream| - n
    else if stops(Increment(stream[n + batch - 1])) then 1 + batch
    else 1 + batch + Awaits(stream, stops, batch, n + batch)
  }

  /** How many entries t awaits have reached: a read, then one entry after the other until the next read. */
  function EntriesBy(t: nat, batch: nat): nat {
    if t == 0 then 0 else if t <= batch + 1 then t - 1 else batch + EntriesBy(t - (batch + 1), batch)
  }

  lemma {:induction false} EntriesAfter(rounds: nat, x: nat, batch: nat)
    ensures EntriesBy(Boundary(rounds, batch + 1) + x, batch) == Boundary(rounds, batch) + EntriesBy(x, batch)
  {
    if rounds > 0 { EntriesAfter(rounds - 1, x, batch); }
  }

  lemma {:induction false} AwaitsBound(stream: seq<Id>, stops: Id -> bool, batch: nat, n: nat)
    requires n <= |stream|
    ensures Awaits(stream, stops, batch, n) <= 2 * (|stream| - n) + 1
    decreases |stream| - n
  {
    if batch > 0 && n + batch <= |stream| { AwaitsBound(stream, stops, batch, n + batch); }
  }

  /** The replay that nobody closes reads k full batches and, unless the last of them stops it, once more. */
  lemma AwaitsAreReadsAndEntries(stream: seq<Id>, stops: Id -> bool, batch: nat, visited: seq<Id>, exit: Exit)
    requires batch > 0 && stream != [] && exit != Closed && Ended(stream, stops, batch, visited, exit)
    requires |visited| <= |stream|
    ensures exists k: nat ::
              && Boundary(k, batch) <= |visited| < Boundary(k + 1, batch)
              && Awaits(stream, stops, batch, 0) == |visited| + k + if exit == StopTest then 0 else 1
  {
    if exit == StopTest {
      var k: nat :| |visited| == Boundary(k, batch);
      assert Boundary(k, batch) == Boundary(k - 1, batch) + batch
          && Boundary(k + 1, batch) == Boundary(k, batch) + batch;
      AwaitsOver(stream, stops, batch, k - 1);
    } else {
      var k := FullBatches(|stream|, batch);
      AwaitsOver(stream, stops, batch, k);
    }
  }

  lemma {:induction false} AwaitsOver(stream: seq<Id>, stops: Id -> bool, batch: nat, k: nat)
    requires batch > 0 && Boundary(k, batch) <= |stream| && NoStopBefore(stream, stops, batch, Boundary(k, batch) + 1)
    ensures Awaits(stream, stops, batch, 0) == Boundary(k, batch) + k + Awaits(stream, stops, batch, Boundary(k, batch))
  {
    if k > 0 {
      AwaitsOver(stream, stops, batch, k - 1);
      assert !PassesAt(stream, stops, Boundary(k, batch));
    }
  }

  lemma {:induction false} FullBatches(n: nat, batch: nat) returns (k: nat)
    requires batch > 0
    ensures Boundary(k, batch) <= n < Boundary(k + 1, batch)
  {
    if n < batch {
      k := 0;
      assert Boundary(1, batch) == batch;
    } else {
      k := FullBatches(n - batch, batch);
      k := k + 1;
    }
  }

  /** The replay of a stream that does not change.  `close()` is called during the closeAt-th await.
      visited: the entries handed to the handler (or dropped as undecodable), failed handlers included. */
  method ColdReplay(stream: seq<Id>, lastId: Option<Id>, batch: nat, closeAt: nat)
    returns (visited: seq<Id>, exit: Exit, onDone: bool)
    requires Ascending(stream)
    ensures |visited| <= |stream| && visited == stream[..|visited|]
    ensures onDone == (exit != Closed)
    ensures Ended(stream, StopTestFor(lastId), batch, visited, exit)
    ensures exit == Closed <==> stream != [] && closeAt <= Awaits(stream, StopTestFor(lastId), batch, 0)
    ensures exit == Closed ==> |visited| == EntriesBy(closeAt, batch)
    ensures closeAt > 2 * |stream| + 1 ==> onDone
  {
    AwaitsBound(stream, StopTestFor(lastId), batch, 0);
    visited, exit, onDone := ReplayUntil(stream, StopTestFor(lastId), batch, closeAt);
  }

  function StopTestFor(lastId: Option<Id>): Id -> bool { (cursor: Id) => Stops(cursor, lastId) }

  /** The replay task, for any stop test. */
  method ReplayUntil(stream: seq<Id>, stops: Id -> bool, batch: nat, closeAt: nat)
    returns (visited: seq<Id>, exit: Exit, onDone: bool)
    requires Ascending(stream)
    ensures |visited| <= |stream| && visited == stream[..|visited|]
    ensures onDone == (exit != Closed)
    ensures Ended(stream, stops, batch, visited, exit)
    ensures exit == Closed <==> stream != [] && closeAt <= Awaits(stream, stops, batch, 0)
    ensures exit == Closed ==> |visited| == EntriesBy(closeAt, batch)
  {
    visited, exit := [], Closed;
    if |stream| == 0 {
      return [], EmptyStream, true;
    }
    var time: nat := 0;
    var cursor := Id(0, 0);
    ghost var rounds: nat := 0;
    var more := true;
    while time < closeAt && more
      invariant At(stream, visited, cursor) && time <= closeAt
      invariant more ==> exit == Closed && Seen(stream, stops, batch, rounds, |visited|)
      invariant more ==> OnTime(stream, stops, batch, rounds, |visited|, time)
      invariant !more ==> Over(stream, stops, batch, closeAt, visited, exit, time)
      decreases more, |stream| - |visited|, closeAt - time
    {
      visited, cursor, time, more, exit := Round(stream, stops, batch, closeAt, visited, cursor, time, rounds);
      rounds := rounds + 1;
    }
    if more { EntriesAfter(rounds, 0, batch); }
    onDone := time < closeAt;
  }

  /** k full batches have been visited and none of them ended the replay. */
  ghost predicate Seen(stream: seq<Id>, stops: Id -> bool, batch: nat, k: nat, n: nat) {
    n == Boundary(k, batch) && forall j: nat :: j <= k ==> !PassesAt(stream, stops, Boundary(j, batch))
  }

  /** rounds full batches have taken this long, and the rest is still to come. */
  ghost predicate OnTime(stream: seq<Id>, stops: Id -> bool, batch: nat, rounds: nat, n: nat, time: nat) {
    && time == Boundary(rounds, batch + 1)
    && Awaits(stream, stops, batch, 0) == time + Awaits(stream, stops, batch, n)
  }

  /** The loop is over, because the replay has ended or because it was closed. */
  ghost predicate Over(stream: seq<Id>, stops: Id -> bool, batch: nat, closeAt: nat, visited: seq<Id>, exit: Exit,
                       time: nat) {
    && Ended(stream, stops, batch, visited, exit)
    && (exit == Closed <==> time >= closeAt)
    && (exit == Closed <==> closeAt <= Awaits(stream, stops, batch, 0))
    && (exit == Closed ==> |visited| == EntriesBy(closeAt, batch))
  }

  /** The round has visited what it could before it was closed, or all there is until the next read. */
  lemma OverHere(stream: seq<Id>, stops: Id -> bool, batch: nat, closeAt: nat, rounds: nat, n: nat,
                 visited: seq<Id>, exit: Exit, time: nat)
    requires n == Boundary(rounds, batch) <= |visited| <= |stream| && |visited| <= n + batch
    requires OnTime(stream, stops, batch, rounds, n, Boundary(rounds, batch + 1))
    requires time == Boundary(rounds, batch + 1) + 1 + |visited| - n && time <= closeAt
    requires exit == Closed <==> time >= closeAt
    requires exit != Closed ==> Ended(stream, stops, batch, visited, exit)
    requires 1 + |visited| - n <= Awaits(stream, stops, batch, n)
    requires exit == Closed || 1 + |visited| - n == Awaits(stream, stops, batch, n)
    ensures Over(stream, stops, batch, closeAt, visited, exit, time)
  {
    EntriesAfter(rounds, 1 + |visited| - n, batch);
  }

  /** A batch that is not full was the last one. */
  lemma ShortEnds(stream: seq<Id>, stops: Id -> bool, batch: nat, rounds: nat, visited: seq<Id>)
    requires Seen(stream, stops, batch, rounds, Boundary(rounds, batch)) && visited == stream
    requires |stream| < Boundary(rounds, batch) + batch
    ensures Ended(stream, stops, batch, visited, ShortBatch)
  {
    BoundariesSeen(stream, stops, batch, rounds, |stream| + 1);
  }

  lemma StopEnds(stream: seq<Id>, stops: Id -> bool, batch: nat, rounds: nat, visited: seq<Id>)
    requires Seen(stream, stops, batch, rounds, Boundary(rounds, batch))
    requires |visited| == Boundary(rounds + 1, batch) && PassesAt(stream, stops, |visited|)
    ensures Ended(stream, stops, batch, visited, StopTest)
  {
    BoundariesSeen(stream, stops, batch, rounds, |visited|);
  }

  lemma SeenMore(stream: seq<Id>, stops: Id -> bool, batch: nat, rounds: nat)
    requires Seen(stream, stops, batch, rounds, Boundary(rounds, batch))
    requires !PassesAt(stream, stops, Boundary(rounds + 1, batch))
    ensures Seen(stream, stops, batch, rounds + 1, Boundary(rounds + 1, batch))
  {
  }

  /** The body of the `while` loop; `more` is false when it breaks. */
  method Round(stream: seq<Id>, stops: Id -> bool, batch: nat, closeAt: nat, visited0: seq<Id>, cursor0: Id,
               time0: nat, ghost rounds: nat)
    returns (visited: seq<Id>, cursor: Id, time: nat, more: bool, exit: Exit)
    requires Ascending(stream) && At(stream, visited0, cursor0) && Seen(stream, stops, batch, rounds, |visited0|)
    requires time0 < closeAt && OnTime(stream, stops, batch, rounds, |visited0|, time0)
    ensures At(stream, visited, cursor) && time <= closeAt
    ensures more ==> exit == Closed && Seen(stream, stops, batch, rounds + 1, |visited|) && |visited| > |visited0|
    ensures more ==> OnTime(stream, stops, batch, rounds + 1, |visited|, time)
    ensures !more ==> Over(stream, stops, batch, closeAt, visited, exit, time)
  {
    visited, cursor, time, more, exit := visited0, cursor0, time0, false, Closed;
    ghost var n := |visited0|;
    var entries := Fetch(stream, visited, cursor, batch);
    time := time + 1;
    if |entries| == 0 {
      if batch > 0 { ShortEnds(stream, stops, batch, rounds, visited); }
      exit := if time < closeAt then NoEntries else Closed;
      OverHere(stream, stops, batch, closeAt, rounds, n, visited, exit, time);
      return;
    }
    var closed: bool;
    visited, cursor, time, closed := VisitBatch(stream, entries, visited, cursor, time, closeAt);
    if closed {
      OverHere(stream, stops, batch, closeAt, rounds, n, visited, exit, time);
      return;
    }
    if |entries| < batch {
      ShortEnds(stream, stops, batch, rounds, visited);
      exit := if time < closeAt then ShortBatch else Closed;
      OverHere(stream, stops, batch, closeAt, rounds, n, visited, exit, time);
      return;
    }
    assert |visited| == Boundary(rounds + 1, batch);
    if stops(cursor) {
      StopEnds(stream, stops, batch, rounds, visited);
      exit := if time < closeAt then StopTest else Closed;
      OverHere(stream, stops, batch, closeAt, rounds, n, visited, exit, time);
      return;
    }
    SeenMore(stream, stops, batch, rounds);
    more := true;
  }

  /** One XRANGE call: the next entries that have not been visited. */
  method Fetch(stream: seq<Id>, ghost visited: seq<Id>, cursor: Id, batch: nat) returns (entries: seq<Id>)
    requires At(stream, visited, cursor)
    ensures entries == XRange(stream, cursor, batch)
    ensures |entries| <= batch && |visited| + |entries| <= |stream|
    ensures entries == stream[|visited|..|visited| + |entries|]
    ensures |entries| < batch ==> |visited| + |entries| == |stream|
  {
    FromBehind(stream, cursor, |visited|);
    entries := XRange(stream, cursor, batch);
  }

  /** The `for` loop over one batch. */
  method VisitBatch(ghost stream: seq<Id>, entries: seq<Id>, visited0: seq<Id>, cursor0: Id, time0: nat, closeAt: nat)
    returns (visited: seq<Id>, cursor: Id, time: nat, closed: bool)
    requires Ascending(stream) && |visited0| + |entries| <= |stream|
    requires At(stream, visited0, cursor0)
    requires entries == stream[|visited0|..|visited0| + |entries|]
    ensures |visited0| <= |visited| <= |visited0| + |entries| <= |stream|
    ensures At(stream, visited, cursor)
    ensures time == time0 + |visited| - |visited0| && (time0 <= closeAt ==> time <= closeAt)
    ensures closed ==> time >= closeAt && |visited| < |visited0| + |entries|
    ensures !closed ==> |visited| == |visited0| + |entries|
  {
    visited, cursor, time, closed := visited0, cursor0, time0, false;
    var i := 0;
    while i < |entries|
      invariant 0 <= i <= |entries| && |visited| == |visited0| + i && time == time0 + i && !closed
      invariant At(stream, visited, cursor) && (time0 <= closeAt ==> time <= closeAt)
    {
      if time >= closeAt {
        closed := true;
        return;
      }
      CursorAfter(stream, |visited|);
      assert entries[i] == stream[|visited|];
      visited := visited + [entries[i]];
      cursor := Increment(entries[i]);
      time := time + 1;
      i := i + 1;
    }
  }

  // ---------------------------------------------------------------- the early stop

  /** A replay that is not closed ends at the first full batch before the end whose cursor passes the test. */
  lemma EndsAtFirstStop(stream: seq<Id>, stops: Id -> bool, batch: nat, k: nat, visited: seq<Id>, exit: Exit)
    requires Boundary(k, batch) < |stream| && PassesAt(stream, stops, Boundary(k, batch))
    requires NoStopBefore(stream, stops, batch, Boundary(k, batch)) && batch > 0
    requires Ended(stream, stops, batch, visited, exit) && exit != Closed
    requires |visited| <= |stream| && visited == stream[..|visited|]
    ensures exit == StopTest && visited == stream[..Boundary(k, batch)]
  {
    if exit == StopTest {
      var j: nat :| |visited| == Boundary(j, batch);
    }
  }

  /** When ids and cursors are as wide as the last generated id, only the very last entry can be missed, and
      it is missed exactly if nothing was generated after it and it is the immediate successor of the entry
      before a full batch's end.  (The server's last generated id is never below the last entry, and above it
      when later entries have been deleted.) */
  lemma EarlyStopMissesOnlyLast(stream: seq<Id>, lastId: Id, n: nat)
    requires Ascending(stream) && 0 < n < |stream| && !Less(lastId, stream[|stream| - 1])
    requires SameWidth(Increment(stream[n - 1]), lastId)
    ensures Stops(Increment(stream[n - 1]), Some(lastId)) <==>
            n == |stream| - 1 && stream[n] == Increment(stream[n - 1]) && stream[n] == lastId
  {
    var c, last := Increment(stream[n - 1]), stream[|stream| - 1];
    TextOrder(c, lastId);
    assert Less(stream[n - 1], stream[n]);
    NothingBetween(stream[n - 1], stream[n]);
    if n < |stream| - 1 { assert Less(stream[n], last); }
  }

  /** In batches of one a cursor that passes right after the first entry ends every replay there. */
  lemma FirstBatchStops(stream: seq<Id>, stops: Id -> bool, visited: seq<Id>, exit: Exit)
    requires |stream| > 1 && stops(Increment(stream[0]))
    requires Ended(stream, stops, 1, visited, exit) && exit != Closed
    requires |visited| <= |stream| && visited == stream[..|visited|]
    ensures visited == [stream[0]]
  {
    assert Boundary(0, 1) == 0 && Boundary(1, 1) == 1;
    forall k: nat | Boundary(k, 1) < 1 ensures !PassesAt(stream, stops, Boundary(k, 1)) {}
    EndsAtFirstStop(stream, stops, 1, 1, visited, exit);
  }

  /** Every replay of "5-0", "5-1" in batches of one that is not closed leaves the second entry unread. */
  lemma AdjacentIdsStopEarly(visited: seq<Id>, exit: Exit)
    requires var s := [Id(5, 0), Id(5, 1)];
             && |visited| <= |s| && visited == s[..|visited|]
             && Ended(s, StopTestFor(Some(s[1])), 1, visited, exit) && exit != Closed
    ensures visited == [Id(5, 0)]
  {
    var s := [Id(5, 0), Id(5, 1)];
    assert Increment(s[0]) == s[1];
    LessTotal(Text(s[1]), Text(s[1]));
    FirstBatchStops(s, StopTestFor(Some(s[1])), visited, exit);
  }

  /** Ids that grow in width compare the wrong way round: here every such replay leaves two entries unread. */
  lemma WiderIdsStopEarly(visited: seq<Id>, exit: Exit)
    requires var s := [Id(9, 0), Id(10, 0), Id(11, 0)];
             && |visited| <= |s| && visited == s[..|visited|]
             && Ended(s, StopTestFor(Some(s[2])), 1, visited, exit) && exit != Closed
    ensures visited == [Id(9, 0)]
  {
    var s := [Id(9, 0), Id(10, 0), Id(11, 0)];
    assert Decimal(1) == "1";
    assert Decimal(11) == Decimal(1) + "1";
    assert Text(Increment(s[0]))[0] == '9' && Text(s[2])[0] == '1';
    FirstBatchStops(s, StopTestFor(Some(s[2])), visited, exit);
  }
}
