/**
 Partial comparison of JSON trees, as OBJECT queries do it.  Trees are free of null; numbers are integers.
 */
module JsonQuery {
  import opened Wrappers
  import D = Decimals

  datatype Json =
    | Str(text: string)
    | Num(number: int)
    | Bool(value: bool)
    | Arr(items: seq<Json>)
    | Obj(fields: map<string, Json>)

  predicate IsPrimitive(x: Json) { x.Str? || x.Num? || x.Bool? }

  datatype TypeOf = TString | TNumber | TBoolean | TObject

  function Typeof(x: Json): TypeOf {
    match x
    case Str(_) => TString
    case Num(_) => TNumber
    case Bool(_) => TBoolean
    case _ => TObject
  }

  // ---------------------------------------------------------------- own properties

  predicate IsIndexBelow(key: string, n: nat) { exists i :: 0 <= i < n && D.Decimal(i) == key }

  function IndexBelow(key: string, n: nat): (i: nat)
    requires IsIndexBelow(key, n)
    ensures i < n && D.Decimal(i) == key
  {
    if D.Decimal(n - 1) == key then n - 1 else IndexBelow(key, n - 1)
  }

  /** `hasOwnProperty` and the value read: arrays and strings own their indices and `length`. */
  function Lookup(x: Json, key: string): Option<Json> {
    match x
    case Obj(fields) => if key in fields then Some(fields[key]) else None
    case Arr(items) =>
      if IsIndexBelow(key, |items|) then Some(items[IndexBelow(key, |items|)])
      else if key == "length" then Some(Num(|items|)) else None
    case Str(text) =>
      if IsIndexBelow(key, |text|) then Some(Str([text[IndexBelow(key, |text|)]]))
      else if key == "length" then Some(Num(|text|)) else None
    case _ => None
  }

  /** `Object.keys`: `length` is not among them. */
  predicate HasKey(x: Json, key: string) {
    match x
    case Obj(fields) => key in fields
    case Arr(items) => IsIndexBelow(key, |items|)
    case Str(text) => IsIndexBelow(key, |text|)
    case _ => false
  }

  lemma KeyIsOwn(x: Json, key: string)
    ensures HasKey(x, key) ==> Lookup(x, key).Some?
    ensures Lookup(x, key).Some? && key != "length" ==> HasKey(x, key)
  {
  }

  lemma IndexOf(i: nat, n: nat)
    requires i < n
    ensures IsIndexBelow(D.Decimal(i), n) && IndexBelow(D.Decimal(i), n) == i
  {
    var k := IndexBelow(D.Decimal(i), n);
    D.DecimalInjective(i, k);
  }

  // ---------------------------------------------------------------- the comparison

  function PartialCompareArray(partial: seq<Json>, data: seq<Json>): bool
    decreases partial, 0
  {
    if exists part :: part in partial && !IsPrimitive(part) then
      forall i :: 0 <= i < |partial| ==>
        if IsPrimitive(partial[i]) then partial[i] in data
        else exists j :: 0 <= j < |data| && PartialCompareObject(partial[i], data[j])
    else
      forall i :: 0 <= i < |partial| ==> partial[i] in data
  }

  /** One key of the pattern against the data. */
  function CompareValue(partial: Json, data: Json): bool
    decreases partial, 2
  {
    if Typeof(data) != Typeof(partial) then false
    else if IsPrimitive(partial) then data == partial
    else if partial.Arr? then data.Arr? && PartialCompareArray(partial.items, data.items)
    else PartialCompareObject(partial, data)
  }

  function PartialCompareObject(partial: Json, data: Json): bool
    decreases partial, 1
  {
    match partial
    case Obj(fields) =>
      forall key :: key in fields ==> Lookup(data, key).Some? && CompareValue(fields[key], Lookup(data, key).value)
    case Arr(items) =>
      forall i :: 0 <= i < |items| ==>
        Lookup(data, D.Decimal(i)).Some? && CompareValue(items[i], Lookup(data, D.Decimal(i)).value)
    case Str(text) =>
      forall i :: 0 <= i < |text| ==> Lookup(data, D.Decimal(i)) == Some(Str([text[i]]))
    case _ => true
  }

  /** The comparison in the source's own words: every own key of the pattern, whatever kind of value it is. */
  lemma ComparesEveryKey(partial: Json, data: Json)
    ensures PartialCompareObject(partial, data) <==>
            forall key :: HasKey(partial, key) ==>
              Lookup(data, key).Some? && CompareValue(Lookup(partial, key).value, Lookup(data, key).value)
  {
    match partial
    case Arr(items) =>
      forall i | 0 <= i < |items|
        ensures HasKey(partial, D.Decimal(i)) && Lookup(partial, D.Decimal(i)) == Some(items[i])
      {
        IndexOf(i, |items|);
      }
    case Str(text) =>
      forall i | 0 <= i < |text|
        ensures HasKey(partial, D.Decimal(i)) && Lookup(partial, D.Decimal(i)) == Some(Str([text[i]]))
      {
        IndexOf(i, |text|);
      }
    case _ =>
  }

  /** A pattern of plain fields matches the objects that have them all with just those values, whatever else they
      have. */
  lemma PlainFieldsMatch(p: Json, d: Json)
    requires p.Obj? && d.Obj? && forall key :: key in p.fields ==> IsPrimitive(p.fields[key])
    ensures PartialCompareObject(p, d) <==>
            forall key :: key in p.fields ==> key in d.fields && d.fields[key] == p.fields[key]
  {
    forall key | key in p.fields && key in d.fields
      ensures CompareValue(p.fields[key], d.fields[key]) <==> d.fields[key] == p.fields[key]
    {
    }
  }

  /** Under a key, a list of plain values matches the arrays that have them all, in any order and with any others; a
      pattern in a list matches the arrays with an item that it matches; and an object matches objects key by key. */
  lemma ItemsMatch(items: seq<Json>, p: Json, d: Json)
    ensures (forall i :: 0 <= i < |items| ==> IsPrimitive(items[i])) ==>
              (CompareValue(Arr(items), d) <==> d.Arr? && forall i :: 0 <= i < |items| ==> items[i] in d.items)
    ensures !IsPrimitive(p) ==>
              (CompareValue(Arr([p]), d) <==>
               d.Arr? && exists j :: 0 <= j < |d.items| && PartialCompareObject(p, d.items[j]))
    ensures p.Obj? && d.Obj? ==> (CompareValue(p, d) <==> PartialCompareObject(p, d))
    ensures IsPrimitive(p) ==> (CompareValue(p, d) <==> p == d)
  {
    assert p in [p];
  }

  // ---------------------------------------------------------------- a preorder

  ghost predicate IsIndex(key: string) { exists i: nat :: D.Decimal(i) == key }

  /** An array can have all these properties: indices, and `length` if it is above them all. */
  ghost predicate ArrayShaped(fields: map<string, Json>) {
    && (forall key :: key in fields ==> key == "length" || IsIndex(key))
    && ("length" in fields ==>
          && fields["length"].Num? && fields["length"].number >= 0
          && forall key :: key in fields && key != "length" ==> IsIndexBelow(key, fields["length"].number))
  }

  /** Nowhere in the pattern an object that asks an array for its `length`, and under a key none but {} that an
      array could match. */
  ghost predicate Firm(x: Json)
    decreases x, 0
  {
    match x
    case Obj(fields) =>
      !("length" in fields && ArrayShaped(fields)) && forall key :: key in fields ==> FirmValue(fields[key])
    case Arr(items) => forall i :: 0 <= i < |items| ==> FirmValue(items[i])
    case _ => true
  }

  /** The same for what stands under a key; the items of an array are found, not looked up. */
  ghost predicate FirmValue(x: Json)
    decreases x, 0
  {
    match x
    case Obj(fields) =>
      (fields == map[] || !ArrayShaped(fields)) && forall key :: key in fields ==> FirmValue(fields[key])
    case Arr(items) => forall i :: 0 <= i < |items| ==> IsPrimitive(items[i]) || Firm(items[i])
    case _ => true
  }

  /** No object in the pattern has an array index or `length` for a key. */
  ghost predicate CleanKeys(x: Json) {
    match x
    case Obj(fields) => forall key :: key in fields ==> !IsIndex(key) && key != "length" && CleanKeys(fields[key])
    case Arr(items) => forall i :: 0 <= i < |items| ==> CleanKeys(items[i])
    case _ => true
  }

  lemma {:induction false} CleanIsFirm(x: Json)
    requires CleanKeys(x)
    ensures Firm(x) && FirmValue(x)
  {
    match x
    case Obj(fields) =>
      forall key | key in fields ensures FirmValue(fields[key]) { CleanIsFirm(fields[key]); }
      if fields != map[] {
        var key :| key in fields;
      }
    case Arr(items) =>
      forall i | 0 <= i < |items| ensures Firm(items[i]) && FirmValue(items[i]) { CleanIsFirm(items[i]); }
    case _ =>
  }

  lemma {:induction false} ArrayReflexive(items: seq<Json>)
    ensures PartialCompareArray(items, items)
    decreases items, 0
  {
    forall i | 0 <= i < |items| ensures PartialCompareObject(items[i], items[i]) { Reflexive(items[i]); }
  }

  lemma {:induction false} ValueReflexive(x: Json)
    ensures CompareValue(x, x)
    decreases x, 2
  {
    if x.Arr? { ArrayReflexive(x.items); }
    if x.Obj? { Reflexive(x); }
  }

  lemma {:induction false} Reflexive(x: Json)
    ensures PartialCompareObject(x, x)
    decreases x, 1
  {
    match x
    case Obj(fields) =>
      forall key | key in fields ensures CompareValue(fields[key], fields[key]) { ValueReflexive(fields[key]); }
    case Arr(items) =>
      forall i | 0 <= i < |items|
        ensures Lookup(x, D.Decimal(i)) == Some(items[i]) && CompareValue(items[i], items[i])
      {
        IndexOf(i, |items|);
        ValueReflexive(items[i]);
      }
    case Str(text) =>
      forall i | 0 <= i < |text| ensures Lookup(x, D.Decimal(i)) == Some(Str([text[i]])) { IndexOf(i, |text|); }
    case _ =>
  }

  /** A pattern, something it matches and a record that matches in turn: only the pattern needs to be firm. */
  lemma {:induction false} Transitive(p: Json, q: Json, d: Json)
    requires Firm(p) && PartialCompareObject(p, q) && PartialCompareObject(q, d)
    ensures PartialCompareObject(p, d)
    decreases p, 1
  {
    ComparesEveryKey(p, q);
    ComparesEveryKey(q, d);
    forall key | HasKey(p, key)
      ensures Lookup(d, key).Some? && CompareValue(Lookup(p, key).value, Lookup(d, key).value)
    {
      FirmKey(p, q, key);
      if p.Str? {
        assert CompareValue(Lookup(p, key).value, Lookup(d, key).value);
      } else {
        ValueTransitive(Lookup(p, key).value, Lookup(q, key).value, Lookup(d, key).value);
      }
    }
    ComparesEveryKey(p, d);
  }

  lemma LengthIsNoIndex(n: nat)
    ensures !IsIndexBelow("length", n)
  {
    forall i | 0 <= i < n ensures D.Decimal(i) != "length" {
      D.DecimalIsDigits(i);
      assert D.Decimal(i)[0] in D.Decimal(i);
    }
  }

  /** A key of a firm pattern is an enumerable key of whatever the pattern matches. */
  lemma FirmKey(p: Json, q: Json, key: string)
    requires Firm(p) && PartialCompareObject(p, q) && HasKey(p, key)
    ensures HasKey(q, key) && Lookup(p, key).Some?
    ensures !p.Str? ==> (p decreases to Lookup(p, key).value) && FirmValue(Lookup(p, key).value)
  {
    ComparesEveryKey(p, q);
    KeyIsOwn(p, key);
    KeyIsOwn(q, key);
    if p.Obj? {
      if q.Arr? || q.Str? { MatchedByIndices(p, q); }
    } else {
      LengthIsNoIndex(if p.Arr? then |p.items| else |p.text|);
    }
  }

  /** What an array or a string matches, an array can match. */
  lemma MatchedByIndices(p: Json, q: Json)
    requires p.Obj? && (q.Arr? || q.Str?) && PartialCompareObject(p, q)
    ensures ArrayShaped(p.fields)
  {
    var n := if q.Arr? then |q.items| else |q.text|;
    LengthIsNoIndex(n);
    forall key | key in p.fields
      ensures if key == "length" then p.fields[key] == Num(n) else IsIndexBelow(key, n)
    {
      assert Lookup(q, key).Some? && CompareValue(p.fields[key], Lookup(q, key).value);
    }
  }

  lemma {:induction false} ValueTransitive(p: Json, q: Json, d: Json)
    requires FirmValue(p) && CompareValue(p, q) && CompareValue(q, d)
    ensures CompareValue(p, d)
    decreases p, 2
  {
    if p.Arr? {
      ArrayTransitive(p.items, q.items, d.items);
    } else if p.Obj? && q.Obj? {
      if p.fields != map[] { Transitive(p, q, d); }
    } else if p.Obj? {
      MatchedByIndices(p, q);
    }
  }

  lemma {:induction false} ArrayTransitive(p: seq<Json>, q: seq<Json>, d: seq<Json>)
    requires forall i :: 0 <= i < |p| ==> IsPrimitive(p[i]) || Firm(p[i])
    requires PartialCompareArray(p, q) && PartialCompareArray(q, d)
    ensures PartialCompareArray(p, d)
    decreases p, 0
  {
    forall i | 0 <= i < |p|
      ensures if IsPrimitive(p[i]) then p[i] in d else exists j :: 0 <= j < |d| && PartialCompareObject(p[i], d[j])
    {
      if IsPrimitive(p[i]) {
        var k :| 0 <= k < |q| && q[k] == p[i];
      } else {
        var k :| 0 <= k < |q| && PartialCompareObject(p[i], q[k]);
        if IsPrimitive(q[k]) {
          var j :| 0 <= j < |d| && d[j] == q[k];
        } else {
          var j :| 0 <= j < |d| && PartialCompareObject(q[k], d[j]);
          Transitive(p[i], q[k], d[j]);
        }
      }
    }
  }

  function Under(key: string, x: Json): Json { Obj(map[key := x]) }

  lemma UnderCompares(key: string, p: Json, d: Json)
    ensures PartialCompareObject(Under(key, p), d) <==> Lookup(d, key).Some? && CompareValue(p, Lookup(d, key).value)
    ensures Lookup(Under(key, p), key) == Some(p)
  {
    assert key in Under(key, p).fields;
  }

  lemma UnderUnder(p: Json, q: Json, d: Json)
    requires CompareValue(p, q) && CompareValue(q, d) && !CompareValue(p, d)
    ensures PartialCompareObject(Under("a", p), Under("a", q)) && PartialCompareObject(Under("a", q), Under("a", d))
    ensures !PartialCompareObject(Under("a", p), Under("a", d))
  {
    UnderCompares("a", p, Under("a", q));
    UnderCompares("a", q, Under("a", d));
    UnderCompares("a", p, Under("a", d));
    UnderCompares("a", d, d);
  }

  /** With `length` among the keys the law fails: {length: 2} holds of [1, 2], which holds of [1, 2, 3]. */
  lemma LengthBreaksTransitivity()
    ensures var p := Under("a", Under("length", Num(2)));
            var q := Under("a", Arr([Num(1), Num(2)]));
            var d := Under("a", Arr([Num(1), Num(2), Num(3)]));
            PartialCompareObject(p, q) && PartialCompareObject(q, d) && !PartialCompareObject(p, d)
  {
    var p, q, d := Under("length", Num(2)), Arr([Num(1), Num(2)]), Arr([Num(1), Num(2), Num(3)]);
    UnderCompares("length", Num(2), q);
    UnderCompares("length", Num(2), d);
    LengthIsNoIndex(2);
    LengthIsNoIndex(3);
    assert forall i :: 0 <= i < 2 ==> q.items[i] == d.items[i];
    UnderUnder(p, q, d);
  }

  /** So does an index: {0: 1} holds of [1], which holds of [2, 1]. */
  lemma IndexBreaksTransitivity()
    ensures var p := Under("a", Under("0", Num(1)));
            var q := Under("a", Arr([Num(1)]));
            var d := Under("a", Arr([Num(2), Num(1)]));
            PartialCompareObject(p, q) && PartialCompareObject(q, d) && !PartialCompareObject(p, d)
  {
    var p, q, d := Under("0", Num(1)), Arr([Num(1)]), Arr([Num(2), Num(1)]);
    UnderCompares("0", Num(1), q);
    UnderCompares("0", Num(1), d);
    assert D.Decimal(0) == "0";
    IndexOf(0, 1);
    IndexOf(0, 2);
    assert d.items[1] == q.items[0];
    UnderUnder(p, q, d);
  }

  // ---------------------------------------------------------------- LIKE

  /** `includes` of a number or a boolean is not a function. */
  datatype Outcome = Holds(holds: bool) | Throws

  predicate IsAt(text: string, part: string, i: nat)
    requires i + |part| <= |text|
  {
    text[i..i + |part|] == part
  }

  predicate Includes(text: string, part: string) {
    exists i: nat :: i + |part| <= |text| && IsAt(text, part, i)
  }

  function ToText(x: Json): string
    requires IsPrimitive(x)
  {
    match x
    case Str(text) => text
    case Num(n) => if n < 0 then "-" + D.Decimal(-n) else D.Decimal(n)
    case Bool(b) => if b then "true" else "false"
  }

  /** The property at the end of the path.  An empty path reads the property `undefined`. */
  ghost function Walk(path: seq<string>, data: Json): Option<Json>
    decreases |path|
  {
    if path == [] then Lookup(data, "undefined")
    else if |path| == 1 || Lookup(data, path[0]).None? then Lookup(data, path[0])
    else Walk(path[1..], Lookup(data, path[0]).value)
  }

  /** An array is searched for a string that includes `like`, and throws on any other primitive. */
  ghost function LikeOutcome(path: seq<string>, like: string, data: Json): Outcome {
    match Walk(path, data)
    case None => Holds(false)
    case Some(Arr(items)) =>
      if exists x :: x in items && (x.Num? || x.Bool?) then Throws
      else Holds(exists x :: x in items && x.Str? && Includes(x.text, like))
    case Some(Obj(_)) => Holds(false)
    case Some(x) => Holds(Includes(ToText(x), like))
  }

  method LikeCompare(path: seq<string>, like: string, data: Json) returns (r: Outcome)
    ensures r == LikeOutcome(path, like, data)
    decreases |path|
  {
    var current, rest := "undefined", [];
    if |path| > 0 { current, rest := path[0], path[1..]; }
    match Lookup(data, current)
    case None => return Holds(false);
    case Some(found) =>
      if |rest| > 0 {
        r := LikeCompare(rest, like, found);
      } else if found.Arr? {
        r := AnyIncludes(found.items, like);
      } else if IsPrimitive(found) {
        r := Holds(Includes(ToText(found), like));
      } else {
        r := Holds(false);
      }
  }

  method AnyIncludes(items: seq<Json>, like: string) returns (r: Outcome)
    ensures r.Throws? <==> exists x :: x in items && (x.Num? || x.Bool?)
    ensures r.Holds? ==> (r.holds <==> exists x :: x in items && x.Str? && Includes(x.text, like))
  {
    var check := false;
    var i := 0;
    while i < |items|
      invariant i <= |items|
      invariant forall k :: 0 <= k < i ==> !items[k].Num? && !items[k].Bool?
      invariant check <==> exists k :: 0 <= k < i && items[k].Str? && Includes(items[k].text, like)
    {
      if items[i].Num? || items[i].Bool? { return Throws; }
      if items[i].Str? && Includes(items[i].text, like) { check := true; }
      i := i + 1;
    }
    return Holds(check);
  }
}
