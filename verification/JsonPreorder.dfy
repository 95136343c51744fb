/**
 Exactly which patterns partial comparison is transitive for.
 */
module JsonPreorder {
  import opened Wrappers
  import opened JsonQuery
  import D = Decimals

  ghost predicate TransitiveFor(p: Json) {
    forall q, d :: PartialCompareObject(p, q) && PartialCompareObject(q, d) ==> PartialCompareObject(p, d)
  }

  ghost predicate ValueTransitiveFor(p: Json) {
    forall q, d :: CompareValue(p, q) && CompareValue(q, d) ==> CompareValue(p, d)
  }

  /** Arrays under a key hold primitives only, or one item: with more, a second item can make up for the first. */
  ghost predicate Plain(x: Json)
    decreases x, 0
  {
    match x
    case Obj(fields) => forall key :: key in fields ==> PlainValue(fields[key])
    case Arr(items) => forall i :: 0 <= i < |items| ==> PlainValue(items[i])
    case _ => true
  }

  ghost predicate PlainValue(x: Json)
    decreases x, 0
  {
    match x
    case Obj(fields) => forall key :: key in fields ==> PlainValue(fields[key])
    case Arr(items) => (forall i :: 0 <= i < |items| ==> IsPrimitive(items[i])) || (|items| == 1 && Plain(items[0]))
    case _ => true
  }

  // ---------------------------------------------------------------- an array with given properties

  /** An index above all index keys. */
  lemma Bound(keys: set<string>) returns (n: nat)
    ensures forall key :: key in keys && IsIndex(key) ==> IsIndexBelow(key, n)
  {
    n := 0;
    var left := keys;
    while left != {}
      invariant left <= keys && forall key :: key in keys - left && IsIndex(key) ==> IsIndexBelow(key, n)
      decreases left
    {
      var key :| key in left;
      var more := n;
      if IsIndex(key) {
        var i: nat :| D.Decimal(i) == key;
        if i >= n { more := i + 1; }
      }
      forall k | k in keys - (left - {key}) && IsIndex(k) ensures IsIndexBelow(k, more) {
        if k != key { Wider(k, n, more); }
      }
      n := more;
      left := left - {key};
    }
  }

  lemma Wider(key: string, n: nat, more: nat)
    requires n <= more && IsIndexBelow(key, n)
    ensures IsIndexBelow(key, more)
  {
    var i :| 0 <= i < n && D.Decimal(i) == key;
  }

  function Fill(fields: map<string, Json>, n: nat): (items: seq<Json>)
    ensures |items| == n
  {
    seq(n, i requires 0 <= i < n => if D.Decimal(i) in fields then fields[D.Decimal(i)] else Num(0))
  }

  lemma LengthOf(items: seq<Json>)
    ensures Lookup(Arr(items), "length") == Some(Num(|items|))
  {
    LengthIsNoIndex(|items|);
  }

  /** The filled array has all the properties asked for. */
  lemma FillMatches(fields: map<string, Json>, n: nat)
    requires ArrayShaped(fields) && ("length" in fields ==> fields["length"] == Num(n))
    requires forall key :: key in fields && key != "length" ==> IsIndexBelow(key, n)
    ensures PartialCompareObject(Obj(fields), Arr(Fill(fields, n)))
  {
    var q := Arr(Fill(fields, n));
    forall key | key in fields ensures Lookup(q, key).Some? && CompareValue(fields[key], Lookup(q, key).value) {
      if key == "length" {
        LengthOf(q.items);
      } else {
        ValueReflexive(fields[key]);
      }
    }
  }

  /** Appending keeps what was there, at its place. */
  lemma AppendMatches(items: seq<Json>, x: Json)
    ensures PartialCompareObject(Arr(items), Arr(items + [x])) && PartialCompareArray(items, items + [x])
  {
    forall i | 0 <= i < |items|
      ensures Lookup(Arr(items + [x]), D.Decimal(i)) == Some(items[i]) && CompareValue(items[i], items[i])
    {
      ItemAt(items + [x], i);
      ValueReflexive(items[i]);
    }
    Contains(items, items + [x]);
  }

  lemma ItemAt(items: seq<Json>, i: nat)
    requires i < |items|
    ensures Lookup(Arr(items), D.Decimal(i)) == Some(items[i])
  {
    IndexOf(i, |items|);
  }

  lemma Contains(items: seq<Json>, more: seq<Json>)
    requires forall i :: 0 <= i < |items| ==> items[i] in more
    ensures PartialCompareArray(items, more)
  {
    forall i | 0 <= i < |items|
      ensures items[i] in more && exists j :: 0 <= j < |more| && PartialCompareObject(items[i], more[j])
    {
      var j :| 0 <= j < |more| && more[j] == items[i];
      Reflexive(items[i]);
    }
  }

  // ---------------------------------------------------------------- where transitivity breaks

  /** The pattern asks an array for its length; one item more, and it no longer matches. */
  lemma LengthBreaks(fields: map<string, Json>) returns (q: Json, d: Json)
    requires "length" in fields && ArrayShaped(fields)
    ensures q.Arr? && d.Arr? && PartialCompareObject(Obj(fields), q) && !PartialCompareObject(Obj(fields), d)
    ensures PartialCompareObject(q, d) && CompareValue(q, d)
  {
    var n := fields["length"].number;
    q := Arr(Fill(fields, n));
    d := Arr(q.items + [Num(0)]);
    FillMatches(fields, n);
    AppendMatches(q.items, Num(0));
    LengthOf(d.items);
  }

  /** Something of another type than x. */
  function OtherType(x: Json): (y: Json)
    ensures Typeof(y) != Typeof(x)
  {
    if x.Str? then Num(0) else Str("")
  }

  /** The pattern asks an array for the item at an index; items pushed along, and it no longer matches. */
  lemma IndexBreaks(fields: map<string, Json>) returns (q: Json, d: Json)
    requires fields != map[] && "length" !in fields && ArrayShaped(fields)
    ensures q.Arr? && d.Arr? && PartialCompareObject(Obj(fields), q) && !PartialCompareObject(Obj(fields), d)
    ensures CompareValue(q, d)
  {
    var n := Bound(fields.Keys);
    FillMatches(fields, n);
    var key :| key in fields;
    var i := IndexBelow(key, n);
    var x := OtherType(fields[key]);
    q := Arr(Fill(fields, n));
    d := Arr(Pushed(q.items, i, x));
    ItemAt(d.items, i);
    Contains(q.items, d.items);
    assert Lookup(d, key) == Some(x);
  }

  /** items with x pushed in at place i. */
  function Pushed(items: seq<Json>, i: nat, x: Json): (more: seq<Json>)
    requires i <= |items|
    ensures |more| == |items| + 1 && more[i] == x
    ensures forall k :: 0 <= k < |items| ==> items[k] in more
  {
    var more := items[..i] + [x] + items[i..];
    assert forall k :: 0 <= k < |items| ==> more[if k < i then k else k + 1] == items[k];
    more
  }

  /** What breaks under one key breaks the object. */
  lemma KeyBreaks(fields: map<string, Json>, key: string, q: Json, d: Json)
    requires key in fields && CompareValue(fields[key], q) && CompareValue(q, d) && !CompareValue(fields[key], d)
    ensures PartialCompareObject(Obj(fields), Obj(fields[key := q]))
    ensures PartialCompareObject(Obj(fields[key := q]), Obj(fields[key := d]))
    ensures !PartialCompareObject(Obj(fields), Obj(fields[key := d]))
  {
    forall k | k in fields && k != key ensures CompareValue(fields[k], fields[k]) { ValueReflexive(fields[k]); }
    assert Lookup(Obj(fields[key := d]), key) == Some(d);
  }

  /** What breaks one item breaks the array that is compared place by place. */
  lemma ItemBreaks(items: seq<Json>, i: nat, q: Json, d: Json)
    requires i < |items| && CompareValue(items[i], q) && CompareValue(q, d) && !CompareValue(items[i], d)
    ensures PartialCompareObject(Arr(items), Arr(items[i := q]))
    ensures PartialCompareObject(Arr(items[i := q]), Arr(items[i := d]))
    ensures !PartialCompareObject(Arr(items), Arr(items[i := d]))
  {
    forall k | 0 <= k < |items|
      ensures Lookup(Arr(items[i := q]), D.Decimal(k)) == Some(items[i := q][k])
      ensures Lookup(Arr(items[i := d]), D.Decimal(k)) == Some(items[i := d][k])
      ensures CompareValue(items[k], items[k])
    {
      IndexOf(k, |items|);
      ValueReflexive(items[k]);
    }
    assert items[i := d][i] == d;
  }

  lemma {:induction false} Breaks(p: Json) returns (q: Json, d: Json)
    requires Plain(p) && !Firm(p)
    ensures !IsPrimitive(q) && PartialCompareObject(p, q) && PartialCompareObject(q, d) && !PartialCompareObject(p, d)
    decreases p, 0
  {
    match p
    case Obj(fields) =>
      if "length" in fields && ArrayShaped(fields) {
        q, d := LengthBreaks(fields);
      } else {
        var key :| key in fields && !FirmValue(fields[key]);
        var x, y := ValueBreaks(fields[key]);
        KeyBreaks(fields, key, x, y);
        q, d := Obj(fields[key := x]), Obj(fields[key := y]);
      }
    case Arr(items) =>
      var i :| 0 <= i < |items| && !FirmValue(items[i]);
      var x, y := ValueBreaks(items[i]);
      ItemBreaks(items, i, x, y);
      q, d := Arr(items[i := x]), Arr(items[i := y]);
  }

  lemma {:induction false} ValueBreaks(p: Json) returns (q: Json, d: Json)
    requires PlainValue(p) && !FirmValue(p)
    ensures CompareValue(p, q) && CompareValue(q, d) && !CompareValue(p, d)
    decreases p, 0
  {
    match p
    case Obj(fields) =>
      if fields != map[] && ArrayShaped(fields) {
        if "length" in fields { q, d := LengthBreaks(fields); } else { q, d := IndexBreaks(fields); }
      } else {
        var key :| key in fields && !FirmValue(fields[key]);
        var x, y := ValueBreaks(fields[key]);
        KeyBreaks(fields, key, x, y);
        q, d := Obj(fields[key := x]), Obj(fields[key := y]);
      }
    case Arr(items) =>
      var i :| 0 <= i < |items| && !IsPrimitive(items[i]) && !Firm(items[i]);
      var x, y := Breaks(items[0]);
      q, d := Arr([x]), Arr([y]);
      assert items == [items[0]];
      OneItem(items[0], x);
      OneItem(x, y);
      OneItem(items[0], y);
  }

  lemma OneItem(x: Json, y: Json)
    requires !IsPrimitive(x)
    ensures PartialCompareArray([x], [y]) <==> PartialCompareObject(x, y)
  {
    assert [x][0] == x && [y][0] == y && x in [x];
  }

  /** For plain patterns: transitive if and only if firm. */
  lemma TransitiveExactlyWhen(p: Json)
    requires Plain(p)
    ensures TransitiveFor(p) <==> Firm(p)
  {
    if Firm(p) {
      forall q, d | PartialCompareObject(p, q) && PartialCompareObject(q, d) ensures PartialCompareObject(p, d) {
        Transitive(p, q, d);
      }
    } else {
      var q, d := Breaks(p);
    }
  }

  /** The same for what stands under a key. */
  lemma ValueTransitiveExactlyWhen(p: Json)
    requires PlainValue(p)
    ensures ValueTransitiveFor(p) <==> FirmValue(p)
  {
    if FirmValue(p) {
      forall q, d | CompareValue(p, q) && CompareValue(q, d) ensures CompareValue(p, d) { ValueTransitive(p, q, d); }
    } else {
      var q, d := ValueBreaks(p);
    }
  }

  // ---------------------------------------------------------------- why arrays of several items are apart

  function Two(): Json { Obj(map["length" := Num(2)]) }

  function TwoAndMore(): Json { Obj(map["length" := Num(2), "foo" := Num(1)]) }

  lemma FooIsNoIndex()
    ensures !IsIndex("foo") && forall n: nat :: !IsIndexBelow("foo", n)
  {
    forall i: nat ensures D.Decimal(i) != "foo" {
      D.DecimalIsDigits(i);
      assert D.Decimal(i)[0] in D.Decimal(i);
    }
  }

  /** [{length: 2}, {length: 2, foo: 1}] is not firm, and yet transitive: whatever has the second item's match has
      the first one's too. */
  lemma SecondItemMakesUp()
    ensures !FirmValue(Arr([Two(), TwoAndMore()])) && ValueTransitiveFor(Arr([Two(), TwoAndMore()]))
  {
    FooIsNoIndex();
    var p := Arr([Two(), TwoAndMore()]);
    assert !Firm(p.items[0]) && p.items[0] == Two();
    forall q, d | CompareValue(p, q) && CompareValue(q, d) ensures CompareValue(p, d) { BothStay(q.items, d.items); }
  }

  lemma BothStay(q: seq<Json>, d: seq<Json>)
    requires PartialCompareArray([Two(), TwoAndMore()], q) && PartialCompareArray(q, d)
    ensures PartialCompareArray([Two(), TwoAndMore()], d)
  {
    var p := [Two(), TwoAndMore()];
    assert p[1] == TwoAndMore() && !IsPrimitive(p[1]) && p[1] in p;
    var k :| 0 <= k < |q| && PartialCompareObject(p[1], q[k]);
    var j := MoreStays(q[k], d, q);
    forall i | 0 <= i < |p| ensures !IsPrimitive(p[i]) && PartialCompareObject(p[i], d[j]) {}
  }

  lemma MoreStays(y: Json, d: seq<Json>, q: seq<Json>) returns (j: nat)
    requires y in q && PartialCompareObject(TwoAndMore(), y) && PartialCompareArray(q, d)
    ensures j < |d| && PartialCompareObject(TwoAndMore(), d[j]) && PartialCompareObject(Two(), d[j])
  {
    FooIsNoIndex();
    var fields := TwoAndMore().fields;
    assert "foo" in fields && Lookup(y, "foo").Some?;
    assert y.Obj?;
    var k :| 0 <= k < |q| && q[k] == y;
    assert exists i :: 0 <= i < |d| && PartialCompareObject(q[k], d[i]);
    j :| 0 <= j < |d| && PartialCompareObject(y, d[j]);
    Transitive(TwoAndMore(), y, d[j]);
    assert "length" in fields && Lookup(d[j], "length").Some?
        && CompareValue(fields["length"], Lookup(d[j], "length").value);
  }
}
