/**
 The single-node job runner: stored schedules, the handles that are armed for them, and the maps from a
 concatenated key to a handle through which alone a handle can be found again.
 */
module LocalRunner {
  datatype Key = Key(component: string, name: string, id: string)

  /** The map key.  Different keys can concatenate to the same string. */
  function Concat(k: Key): string { k.component + k.name + k.id }

  datatype Entry = Entry(key: Key, config: string, data: string)

  // ---------------------------------------------------------------- the effect on keys

  /** Arming k first disarms whatever is filed under the same string. */
  function Armed(armed: set<Key>, k: Key): set<Key> { Unfiled(armed, k) + {k} }

  function Unfiled(armed: set<Key>, k: Key): set<Key> { set x | x in armed && Concat(x) != Concat(k) }

  /** armed: keys with a pending timeout or a running cron.  stored: keys with a record. */
  datatype View = View(armed: set<Key>, stored: set<Key>)

  /** order: the stored keys as a restart reads them back from the table. */
  datatype Call = Add(key: Key) | Remove(key: Key) | Fire(key: Key) | Restart(order: seq<Key>)

  function AfterAdd(v: View, k: Key): View { View(Armed(v.armed, k), v.stored + {k}) }

  function AfterRemove(v: View, k: Key): View {
    if k in v.stored then View(Unfiled(v.armed, k), v.stored - {k}) else v
  }

  function AfterFire(v: View, k: Key): View { View(v.armed - {k}, v.stored - {k}) }

  ghost predicate Injective(ks: set<Key>) { forall a, b :: a in ks && b in ks && Concat(a) == Concat(b) ==> a == b }

  /** Whatever the keys, nothing is armed without a record, and one string never has two armed keys. */
  ghost predicate Backed(v: View) { v.armed <= v.stored && Injective(v.armed) }

  lemma AddIsBacked(v: View, k: Key)
    requires Backed(v)
    ensures Backed(AfterAdd(v, k)) && k in AfterAdd(v, k).armed
  {}

  /** So the record-driven removal always leaves the key it was asked for unarmed and unstored. */
  lemma RemoveLeavesNothing(v: View, k: Key)
    requires Backed(v)
    ensures Backed(AfterRemove(v, k)) && k !in AfterRemove(v, k).armed && k !in AfterRemove(v, k).stored
  {}

  /** Adding keeps every stored key armed exactly when no other stored key concatenates to the same string. */
  lemma AddKeepsOthersExactlyWhen(v: View, k: Key)
    requires v.armed == v.stored
    ensures AfterAdd(v, k).armed == AfterAdd(v, k).stored <==>
            forall x :: x in v.stored && Concat(x) == Concat(k) ==> x == k
  {
    var w := AfterAdd(v, k);
    if forall x :: x in v.stored && Concat(x) == Concat(k) ==> x == k {
      assert w.armed == w.stored;
    } else {
      var x :| x in v.stored && Concat(x) == Concat(k) && x != k;
      assert x in w.stored && x !in w.armed;
    }
  }

  /** And so does removing. */
  lemma RemoveKeepsOthersExactlyWhen(v: View, k: Key)
    requires v.armed == v.stored && k in v.stored
    ensures AfterRemove(v, k).armed == AfterRemove(v, k).stored <==>
            forall x :: x in v.stored && Concat(x) == Concat(k) ==> x == k
  {
    var w := AfterRemove(v, k);
    if forall x :: x in v.stored && Concat(x) == Concat(k) ==> x == k {
      assert w.armed == w.stored;
    } else {
      var x :| x in v.stored && Concat(x) == Concat(k) && x != k;
      assert x in w.stored && x !in w.armed;
    }
  }

  /** Schedules that differ in one part only never share a handle: not two instances' timers of one name, and not
      two timers of one instance. */
  lemma OnePartTellsApart(a: Key, b: Key)
    requires a.component == b.component || a.id == b.id
    requires a.name == b.name || (a.component == b.component && a.id == b.id)
    ensures Concat(a) == Concat(b) <==> a == b
  {
    Cancels(a.component + a.name, a.id, b.id, "");
    Cancels(a.component, a.name, b.name, a.id);
    Cancels("", a.component, b.component, a.name + a.id);
    assert Concat(a) == "" + a.component + (a.name + a.id) && Concat(b) == "" + b.component + (b.name + b.id);
    assert Concat(a) == a.component + a.name + a.id + "" && Concat(b) == b.component + b.name + b.id + "";
  }

  lemma Cancels(x: string, y: string, z: string, w: string)
    ensures x + y + w == x + z + w <==> y == z
  {
    if x + y + w == x + z + w {
      assert |y| == |z|;
      assert (x + y + w)[|x|..|x| + |y|] == y && (x + z + w)[|x|..|x| + |z|] == z;
    }
  }

  /** So the timers of one name, whatever the instances, are armed and removed independently. */
  lemma OneTimerIsInjective(ks: set<Key>, component: string, name: string)
    requires forall k :: k in ks ==> k.component == component && k.name == name
    ensures Injective(ks)
  {
    forall a, b | a in ks && b in ks && Concat(a) == Concat(b) ensures a == b { OnePartTellsApart(a, b); }
  }

  /** Two schedules that no call mentions together can still share a handle. */
  lemma CollidingKeysDisarm()
    ensures var a, b := Key("ab", "c", "1"), Key("a", "bc", "1");
            a != b && AfterAdd(AfterAdd(View({}, {}), a), b) == View({b}, {a, b})
  {
    var a, b := Key("ab", "c", "1"), Key("a", "bc", "1");
    assert Concat(a) == "abc1" == Concat(b);
    assert Unfiled({}, a) == {};
    assert Unfiled({a}, b) == {};
  }

  // ---------------------------------------------------------------- runs of calls over good keys

  /** What the calls mean to a user who knows nothing of map keys. */
  function Simple(held: set<Key>, c: Call): set<Key> {
    match c
    case Add(k) => held + {k}
    case Remove(k) => held - {k}
    case Fire(k) => held - {k}
    case Restart(_) => held
  }

  function Real(v: View, c: Call): View {
    match c
    case Add(k) => AfterAdd(v, k)
    case Remove(k) => AfterRemove(v, k)
    case Fire(k) => AfterFire(v, k)
    case Restart(order) => v.(armed := ArmAll({}, order))
  }

  /** Arming one after the other. */
  function ArmAll(armed: set<Key>, keys: seq<Key>): set<Key> {
    if keys == [] then armed else Armed(ArmAll(armed, keys[..|keys| - 1]), keys[|keys| - 1])
  }

  ghost predicate KeyIn(c: Call, ks: set<Key>) { c.Restart? || c.key in ks }

  function RunSimple(held: set<Key>, calls: seq<Call>): set<Key> {
    if calls == [] then held else Simple(RunSimple(held, calls[..|calls| - 1]), calls[|calls| - 1])
  }

  function RunReal(v: View, calls: seq<Call>): View {
    if calls == [] then v else Real(RunReal(v, calls[..|calls| - 1]), calls[|calls| - 1])
  }

  /** A restart reads the keys that are stored then, in any order and with repetitions. */
  ghost predicate ReadsTable(v: View, c: Call) { c.Restart? ==> (set k | k in c.order) == v.stored }

  ghost predicate ReadTheTable(v: View, calls: seq<Call>) {
    calls == [] ||
    var n := |calls| - 1;
    ReadTheTable(v, calls[..n]) && ReadsTable(RunReal(v, calls[..n]), calls[n])
  }

  lemma {:induction false} ArmAllIsBacked(keys: seq<Key>)
    ensures Injective(ArmAll({}, keys)) && ArmAll({}, keys) <= set k | k in keys
  {
    if keys != [] {
      var m := |keys| - 1;
      assert keys == keys[..m] + [keys[m]];
      ArmAllIsBacked(keys[..m]);
      AddIsBacked(View(ArmAll({}, keys[..m]), set k | k in keys[..m]), keys[m]);
    }
  }

  /** Over all sequential calls and all keys, colliding or not, nothing is armed without a record and one
      string has at most one armed key; a key just added is armed, and one just removed is gone. */
  lemma {:induction false} AlwaysBacked(calls: seq<Call>)
    requires ReadTheTable(View({}, {}), calls)
    ensures var v := RunReal(View({}, {}), calls);
            && Backed(v)
            && (calls != [] && calls[|calls| - 1].Add? ==> calls[|calls| - 1].key in v.armed)
            && (calls != [] && calls[|calls| - 1].Remove? ==>
                  calls[|calls| - 1].key !in v.armed && calls[|calls| - 1].key !in v.stored)
  {
    if calls != [] {
      var before := calls[..|calls| - 1];
      AlwaysBacked(before);
      var v := RunReal(View({}, {}), before);
      match calls[|calls| - 1]
      case Add(k) => AddIsBacked(v, k);
      case Remove(k) => RemoveLeavesNothing(v, k);
      case Fire(_) =>
      case Restart(order) => ArmAllIsBacked(order);
    }
  }

  /** For sequential calls over keys that concatenate injectively, armed and stored are at all times the plain
      set of schedules added and not yet removed or fired, crashes and restarts included. */
  lemma {:induction false} SequentialCalls(calls: seq<Call>, ks: set<Key>)
    requires Injective(ks) && forall i :: 0 <= i < |calls| ==> KeyIn(calls[i], ks)
    requires ReadTheTable(View({}, {}), calls)
    ensures var held := RunSimple({}, calls); held <= ks && RunReal(View({}, {}), calls) == View(held, held)
  {
    if calls != [] {
      var before := calls[..|calls| - 1];
      SequentialCalls(before, ks);
      var held := RunSimple({}, before);
      var c := calls[|calls| - 1];
      assert KeyIn(c, ks);
      match c
      case Add(k) => assert Armed(held, k) == held + {k};
      case Remove(k) => if k in held { assert Unfiled(held, k) == held - {k}; }
      case Fire(_) =>
      case Restart(order) => ArmAllInjective(order);
    }
  }

  /** Re-arming the stored keys, in any order and with repetitions, arms them all when they are injective. */
  lemma {:induction false} ArmAllInjective(keys: seq<Key>)
    requires Injective(set k | k in keys)
    ensures ArmAll({}, keys) == set k | k in keys
  {
    if keys != [] {
      var m := |keys| - 1;
      assert keys == keys[..m] + [keys[m]];
      assert (set k | k in keys[..m]) <= (set k | k in keys);
      ArmAllInjective(keys[..m]);
      var before := set k | k in keys[..m];
      assert Armed(before, keys[m]) == set k | k in keys;
    }
  }

  // ---------------------------------------------------------------- the runner itself

  function Keys(m: map<nat, Entry>): set<Key> { set h | h in m :: m[h].key }

  lemma KeysUpdate(m: map<nat, Entry>, h: nat, e: Entry)
    requires h !in m
    ensures Keys(m[h := e]) == Keys(m) + {e.key}
  {
    var m' := m[h := e];
    forall k | k in Keys(m) ensures k in Keys(m') {
      var i :| i in m && m[i].key == k;
      assert i in m' && m'[i].key == k;
    }
    assert h in m' && m'[h].key == e.key;
  }

  /** One of the runner's two halves: armed handles, the key map, and the table of records. */
  class Half {
    var handles: map<string, nat>
    var armed: map<nat, Entry>
    var table: map<nat, Entry>
    var nextHandle: nat
    var nextRecord: nat

    ghost predicate Valid()
      reads this
    {
      && (forall h :: h in armed ==>
            && h < nextHandle
            && Concat(armed[h].key) in handles && handles[Concat(armed[h].key)] == h
            && armed[h] in table.Values)
      && (forall x :: x in handles ==> handles[x] < nextHandle)
      && (forall x, y :: x in handles && y in handles && handles[x] == handles[y] ==> x == y)
      && (forall r :: r in table ==> r < nextRecord)
    }

    ghost function ViewOf(): View
      reads this
    {
      View(Keys(armed), Keys(table))
    }

    constructor ()
      ensures Valid() && ViewOf() == View({}, {})
    {
      handles, armed, table, nextHandle, nextRecord := map[], map[], map[], 0, 0;
    }

    /** Valid handles are what `Backed` says of keys: every armed handle has a record, and no key has two. */
    lemma ValidIsBacked()
      requires Valid()
      ensures Backed(ViewOf())
      ensures forall h, h' :: h in armed && h' in armed && armed[h].key == armed[h'].key ==> h == h'
    {
      forall k | k in Keys(armed) ensures k in Keys(table) {
        var h :| h in armed && armed[h].key == k;
        var r :| r in table && table[r] == armed[h];
        assert table[r].key == k;
      }
      forall a, b | a in Keys(armed) && b in Keys(armed) && Concat(a) == Concat(b) ensures a == b {
        var h :| h in armed && armed[h].key == a;
        var h' :| h' in armed && armed[h'].key == b;
      }
    }

    /** `clearTimeout` or `destroy` of the handle filed for k; a stale handle is not armed any more. */
    method ClearFiled(k: Key)
      requires Valid()
      modifies this`armed
      ensures Valid() && Keys(armed) == Unfiled(old(Keys(armed)), k)
      ensures armed == FiledElsewhere(old(armed), k)
    {
      if Concat(k) in handles {
        armed := armed - {handles[Concat(k)]};
      }
      assert armed == FiledElsewhere(old(armed), k);
      KeysElsewhere(old(armed), k);
    }

    /** The new handle is armed and filed, over whatever was filed before. */
    method Arm(e: Entry)
      requires Valid() && e in table.Values
      requires forall h :: h in armed ==> Concat(armed[h].key) != Concat(e.key)
      modifies this`armed, this`handles, this`nextHandle
      ensures Valid() && Keys(armed) == old(Keys(armed)) + {e.key}
      ensures exists h :: h in armed && armed[h] == e
    {
      KeysUpdate(armed, nextHandle, e);
      armed := armed[nextHandle := e];
      handles := handles[Concat(e.key) := nextHandle];
      nextHandle := nextHandle + 1;
      assert armed[nextHandle - 1] == e;
    }

    method CreateRecord(e: Entry)
      requires Valid()
      modifies this`table, this`nextRecord
      ensures Valid() && e in table.Values && Keys(table) == old(Keys(table)) + {e.key}
      ensures old(table.Values) <= table.Values
    {
      ghost var t0 := table;
      KeysUpdate(table, nextRecord, e);
      table := table[nextRecord := e];
      nextRecord := nextRecord + 1;
      assert table[nextRecord - 1] == e;
      forall x | x in t0.Values ensures x in table.Values {
        var r :| r in t0 && t0[r] == x;
        assert table[r] == x;
      }
    }

    /** `manageSimpleTimerSchedule`: always a new record, even next to one for the same key. */
    method ManageSimpleTimerSchedule(e: Entry, createRecord: bool)
      requires Valid() && (!createRecord ==> e in table.Values)
      modifies this
      ensures Valid() && exists h :: h in armed && armed[h] == e
      ensures createRecord ==> ViewOf() == AfterAdd(old(ViewOf()), e.key)
      ensures !createRecord ==>
              ViewOf() == View(Armed(old(Keys(armed)), e.key), old(Keys(table))) && table == old(table)
    {
      ClearFiled(e.key);
      if createRecord {
        CreateRecord(e);
      }
      Arm(e);
    }

    /** `manageCronTimerSchedule`: an existing record of the key is rewritten, otherwise one is created. */
    method ManageCronTimerSchedule(e: Entry, createRecord: bool)
      requires Valid() && (!createRecord ==> e in table.Values)
      modifies this
      ensures Valid() && exists h :: h in armed && armed[h] == e
      ensures createRecord ==> ViewOf() == AfterAdd(old(ViewOf()), e.key)
      ensures !createRecord ==>
              ViewOf() == View(Armed(old(Keys(armed)), e.key), old(Keys(table))) && table == old(table)
    {
      ClearFiled(e.key);
      if createRecord {
        if r :| r in table && table[r].key == e.key {
          Rewrite(r, e);
        } else {
          CreateRecord(e);
        }
      }
      Arm(e);
    }

    /** `saveEntity` over the first record of the key, which nothing is armed for at this point. */
    method Rewrite(r: nat, e: Entry)
      requires Valid() && r in table && table[r].key == e.key
      requires forall h :: h in armed ==> armed[h].key != e.key
      modifies this`table
      ensures Valid() && e in table.Values && Keys(table) == old(Keys(table)) && table.Keys == old(table.Keys)
    {
      ghost var t0 := table;
      table := table[r := e];
      assert table[r] == e;
      forall h | h in armed ensures armed[h] in table.Values {
        var q :| q in t0 && t0[q] == armed[h];
        assert table[q] == armed[h];
      }
      forall k | k in Keys(t0) ensures k in Keys(table) {
        var q :| q in t0 && t0[q].key == k;
        assert table[q].key == k;
      }
      forall k | k in Keys(table) ensures k in Keys(t0) {
        var q :| q in table && table[q].key == k;
        assert t0[q].key == k;
      }
    }

    /** One half of `removeSchedule`: driven by the records of the key. */
    method RemoveSchedule(k: Key)
      requires Valid()
      modifies this
      ensures Valid() && ViewOf() == AfterRemove(old(ViewOf()), k)
      ensures k !in Keys(armed) && k !in Keys(table)
      ensures forall r :: r in table <==> r in old(table) && old(table)[r].key != k
    {
      ghost var t0, a0 := table, armed;
      ValidIsBacked();
      var found := set r | r in table && table[r].key == k;
      assert forall r :: r in table && table[r].key == k ==> r in found;
      if found == {} {
        assert k !in Keys(table);
        return;
      }
      var r0 :| r0 in found;
      assert t0[r0].key == k;
      RemoveFound(k, found);
      KeysWithout(t0, k);
    }

    /** The loop over the records that were found. */
    method RemoveFound(k: Key, found: set<nat>)
      requires Valid() && found != {} && found == set r | r in table && table[r].key == k
      modifies this
      ensures Valid() && table == map r | r in old(table) && old(table)[r].key != k :: old(table)[r]
      ensures Keys(armed) == Unfiled(old(Keys(armed)), k)
    {
      ghost var t0, a0 := table, armed;
      var todo := found;
      while todo != {}
        invariant todo <= found && Valid()
        invariant table == t0 - (found - todo)
        invariant todo == found ==> armed == a0
        invariant todo != found ==> armed == FiledElsewhere(a0, k)
        decreases todo
      {
        var r :| r in todo;
        RemoveOne(k, r);
        todo := todo - {r};
      }
      KeysElsewhere(a0, k);
    }

    /** One record of k: its handle, if it still has one, and the record. */
    method RemoveOne(k: Key, r: nat)
      requires Valid() && r in table && table[r].key == k
      modifies this
      ensures Valid() && table == old(table) - {r} && armed == FiledElsewhere(old(armed), k)
    {
      ghost var t0, a0 := table, armed;
      var name := Concat(k);
      if name in handles {
        armed := armed - {handles[name]};
        handles := handles - {name};
      }
      table := table - {r};
      assert armed == FiledElsewhere(a0, k);
      forall h | h in armed ensures armed[h] in table.Values {
        var q :| q in t0 && t0[q] == a0[h];
        assert q != r && table[q] == armed[h];
      }
    }

    /** The timeout's own callback: it is no longer pending, its records go, its stale map entry stays. */
    method FireTimeout(h: nat) returns (emitted: Entry)
      requires Valid() && h in armed
      modifies this`armed, this`table
      ensures emitted == old(armed)[h]
      ensures Valid() && ViewOf() == AfterFire(old(ViewOf()), emitted.key)
    {
      ghost var a0, t0 := armed, table;
      ValidIsBacked();
      emitted := armed[h];
      armed := armed - {h};
      DropRecords(emitted.key);
      KeysMinus(a0, h);
    }

    method DropRecords(k: Key)
      requires Valid() && forall h :: h in armed ==> armed[h].key != k
      modifies this`table
      ensures Valid() && Keys(table) == old(Keys(table)) - {k}
    {
      ghost var t0 := table;
      table := map r | r in table && table[r].key != k :: table[r];
      KeysWithout(t0, k);
      forall i | i in armed ensures armed[i] in table.Values {
        var q :| q in t0 && t0[q] == armed[i];
        assert table[q] == armed[i];
      }
    }

    /** The process dies: the records are all that is left. */
    method Crash()
      requires Valid()
      modifies this`armed, this`handles
      ensures Valid() && armed == map[] && ViewOf() == View({}, old(ViewOf()).stored) && table == old(table)
    {
      armed, handles := map[], map[];
    }

    /** One half of `startup`: every record is armed again, in some order. */
    method Startup()
      requires Valid() && armed == map[]
      modifies this
      ensures Valid() && table == old(table)
      ensures exists order :: ReadsTable(ViewOf(), Restart(order)) && Keys(armed) == ArmAll({}, order)
      ensures Injective(Keys(table)) ==> ViewOf() == View(Keys(table), Keys(table))
    {
      var todo := table.Keys;
      ghost var done: seq<Key> := [];
      while todo != {}
        invariant Valid() && todo <= table.Keys && table == old(table)
        invariant Keys(armed) == ArmAll({}, done)
        invariant forall k :: k in done <==> exists r :: r in table && r !in todo && table[r].key == k
        decreases todo
      {
        var r :| r in todo;
        ghost var done' := done + [table[r].key];
        assert done'[..|done|] == done;
        assert table[r] in table.Values;
        ManageSimpleTimerSchedule(table[r], false);
        todo := todo - {r};
        forall k ensures k in done' <==> exists q :: q in table && q !in todo && table[q].key == k {
          if k in done { var q :| q in table && q !in todo + {r} && table[q].key == k; }
          if k == table[r].key { assert r !in todo; }
        }
        done := done';
      }
      assert (set k | k in done) == Keys(table);
      assert ReadsTable(ViewOf(), Restart(done));
      if Injective(Keys(table)) {
        ArmAllInjective(done);
      }
    }
  }

  /** The runner: timeouts and crons are kept apart, so one key may have a schedule of each kind. */
  class LocalScheduleJobRunner {
    const timers: Half
    const crons: Half

    ghost predicate Valid()
      reads this, timers, crons
    {
      timers != crons && timers.Valid() && crons.Valid()
    }

    /** What a saga sees: the keys something is armed for. */
    ghost function Held(): set<Key>
      reads timers, crons
    {
      Keys(timers.armed) + Keys(crons.armed)
    }

    constructor ()
      ensures Valid() && Held() == {} && fresh(timers) && fresh(crons)
    {
      timers := new Half();
      crons := new Half();
    }

    method AddScheduledTask(e: Entry, isCron: bool)
      requires Valid()
      modifies timers, crons
      ensures Valid() && e.key in Held()
      ensures timers.ViewOf() == if isCron then old(timers.ViewOf()) else AfterAdd(old(timers.ViewOf()), e.key)
      ensures crons.ViewOf() == if isCron then AfterAdd(old(crons.ViewOf()), e.key) else old(crons.ViewOf())
    {
      if isCron {
        crons.ManageCronTimerSchedule(e, true);
      } else {
        timers.ManageSimpleTimerSchedule(e, true);
      }
    }

    method RemoveSchedule(k: Key)
      requires Valid()
      modifies timers, crons
      ensures Valid() && k !in Held()
      ensures timers.ViewOf() == AfterRemove(old(timers.ViewOf()), k)
              && crons.ViewOf() == AfterRemove(old(crons.ViewOf()), k)
    {
      timers.RemoveSchedule(k);
      crons.RemoveSchedule(k);
    }

    /** A crash followed by `startup` arms exactly the stored keys, when their strings are distinct. */
    method CrashAndStartup()
      requires Valid()
      modifies timers, crons
      ensures Valid() && timers.table == old(timers.table) && crons.table == old(crons.table)
      ensures Injective(Keys(timers.table)) ==> Keys(timers.armed) == Keys(timers.table)
      ensures Injective(Keys(crons.table)) ==> Keys(crons.armed) == Keys(crons.table)
    {
      timers.Crash();
      crons.Crash();
      timers.Startup();
      crons.Startup();
    }
  }

  /** The handles that are filed under another string than k's. */
  function FiledElsewhere(a: map<nat, Entry>, k: Key): map<nat, Entry> {
    map h | h in a && Concat(a[h].key) != Concat(k) :: a[h]
  }

  lemma KeysElsewhere(a: map<nat, Entry>, k: Key)
    ensures Keys(FiledElsewhere(a, k)) == Unfiled(Keys(a), k)
  {
    var a' := FiledElsewhere(a, k);
    forall x | x in Keys(a) && Concat(x) != Concat(k) ensures x in Keys(a') {
      var h :| h in a && a[h].key == x;
      assert a'[h].key == x;
    }
  }

  lemma KeysMinus(a: map<nat, Entry>, h: nat)
    requires h in a && forall i :: i in a && a[i].key == a[h].key ==> i == h
    ensures Keys(a - {h}) == Keys(a) - {a[h].key}
  {
    var a' := a - {h};
    forall x | x in Keys(a) && x != a[h].key ensures x in Keys(a') {
      var i :| i in a && a[i].key == x;
      assert a'[i].key == x;
    }
    forall x | x in Keys(a') ensures x in Keys(a) {
      var i :| i in a' && a'[i].key == x;
      assert a[i].key == x;
    }
  }

  lemma KeysWithout(t: map<nat, Entry>, k: Key)
    ensures Keys(map r | r in t && t[r].key != k :: t[r]) == Keys(t) - {k}
  {
    var t' := map r | r in t && t[r].key != k :: t[r];
    forall x | x in Keys(t) && x != k ensures x in Keys(t') {
      var r :| r in t && t[r].key == x;
      assert t'[r].key == x;
    }
  }
}
