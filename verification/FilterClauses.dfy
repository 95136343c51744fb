/**
 What a query of one clause keeps, clause by clause, in terms of the row's own values.
 */
module FilterClauses {
  import opened Wrappers
  import opened JsonQuery
  import opened FilterTable
  import D = Decimals

  /** {key: {op: op, value: value}} */
  function Asks(key: string, op: string, value: Json): Query {
    [(key, Obj(map["op" := Str(op), "value" := value]))]
  }

  /** {key: {op: op}} */
  function AsksNothing(key: string, op: string): Query { [(key, Obj(map["op" := Str(op)]))] }

  /** The row is kept, dropped, or makes the filter throw. */
  ghost predicate Raises(js: Js, query: Query, content: Json) { FilterTable.Throws(js, query, content) }

  ghost predicate Retains(js: Js, query: Query, content: Json) {
    !Raises(js, query, content) && IsKept(js, query, content)
  }

  ghost predicate Drops(js: Js, query: Query, content: Json) {
    !Raises(js, query, content) && !IsKept(js, query, content)
  }

  /** For a query of one clause these are what the filter answers on a table. */
  lemma OneByOne<T>(js: Js, table: seq<T>, query: Query, accessor: T -> Json, x: T)
    ensures ThrowsOn(js, table, query, accessor) <==> exists y :: y in table && Raises(js, query, accessor(y))
    ensures x in table && !ThrowsOn(js, table, query, accessor) ==>
              (x in Kept(js, table, query, accessor) <==> Retains(js, query, accessor(x)))
  {
    ThrowsOnSome(js, table, query, accessor);
    KeptRows(js, table, query, accessor, x);
  }

  lemma OneClause(js: Js, key: string, x: Json, content: Json)
    ensures var e := EffectOf(js, key, x, content);
            && (Raises(js, [(key, x)], content) <==> e.Fails?)
            && (IsKept(js, [(key, x)], content) <==> Satisfied(e))
  {
    var query: Query := [(key, x)];
    var es := Effects(js, query, content);
    assert es == [EffectOf(js, key, x, content)];
    assert LastOverwriting(query, 1) == 0;
  }

  lemma OneOperator(js: Js, key: string, op: string, value: Option<Json>, content: Json) returns (x: Json)
    ensures x == Obj(if value.Some? then map["op" := Str(op), "value" := value.value] else map["op" := Str(op)])
    ensures ClauseOf(x) == Op(op, value)
    ensures var e := EffectOf(js, key, x, content);
            && (Raises(js, [(key, x)], content) <==> e.Fails?)
            && (IsKept(js, [(key, x)], content) <==> Satisfied(e))
  {
    x := Obj(if value.Some? then map["op" := Str(op), "value" := value.value] else map["op" := Str(op)]);
    assert "op" != "value";
    OneClause(js, key, x, content);
  }

  // ---------------------------------------------------------------- equality

  /** A plain value keeps the rows that have just it. */
  lemma PlainValueKeeps(js: Js, key: string, x: Json, content: Json)
    requires IsPrimitive(x)
    ensures if Lookup(content, key) == Some(x) then Retains(js, [(key, x)], content) else Drops(js, [(key, x)], content)
  {
    OneClause(js, key, x, content);
  }

  /** So does EQ for a plain value; an object or array is never equal, and no value means no property. */
  lemma EqKeeps(js: Js, key: string, value: Json, content: Json)
    ensures if IsPrimitive(value) && Lookup(content, key) == Some(value)
            then Retains(js, Asks(key, "EQ", value), content) else Drops(js, Asks(key, "EQ", value), content)
    ensures if Lookup(content, key) == None
            then Retains(js, AsksNothing(key, "EQ"), content) else Drops(js, AsksNothing(key, "EQ"), content)
  {
    var x := OneOperator(js, key, "EQ", Some(value), content);
    x := OneOperator(js, key, "EQ", None, content);
  }

  /** IN keeps the rows whose plain value is one of the list; without a list it keeps none. */
  lemma InKeeps(js: Js, key: string, value: Json, content: Json)
    ensures if value.Arr? && (exists i :: 0 <= i < |value.items| && IsPrimitive(value.items[i])
                                          && Lookup(content, key) == Some(value.items[i]))
            then Retains(js, Asks(key, "IN", value), content) else Drops(js, Asks(key, "IN", value), content)
    ensures Drops(js, AsksNothing(key, "IN"), content)
  {
    var x := OneOperator(js, key, "IN", Some(value), content);
    x := OneOperator(js, key, "IN", None, content);
  }

  // ---------------------------------------------------------------- order

  /** JavaScript's comparisons are the order of numbers, on numbers. */
  ghost predicate OrdersNumbers(js: Js) {
    forall a, b :: (js.less(Num(a), Num(b)) <==> a < b) && (js.lessEq(Num(a), Num(b)) <==> a <= b)
  }

  /** On numbers the comparisons keep exactly what they say. */
  lemma ComparisonsKeep(js: Js, key: string, v: int, d: int, content: Json)
    requires OrdersNumbers(js) && Lookup(content, key) == Some(Num(d))
    ensures if d > v then Retains(js, Asks(key, "GT", Num(v)), content) else Drops(js, Asks(key, "GT", Num(v)), content)
    ensures if d >= v then Retains(js, Asks(key, "GTE", Num(v)), content)
            else Drops(js, Asks(key, "GTE", Num(v)), content)
    ensures if d < v then Retains(js, Asks(key, "LT", Num(v)), content) else Drops(js, Asks(key, "LT", Num(v)), content)
    ensures if d <= v then Retains(js, Asks(key, "LTE", Num(v)), content)
            else Drops(js, Asks(key, "LTE", Num(v)), content)
  {
    var x := OneOperator(js, key, "GT", Some(Num(v)), content);
    x := OneOperator(js, key, "GTE", Some(Num(v)), content);
    x := OneOperator(js, key, "LT", Some(Num(v)), content);
    x := OneOperator(js, key, "LTE", Some(Num(v)), content);
  }

  /** So of a table whose rows have numbers under the key, exactly those rows are found, in table order. */
  lemma ComparisonsFind<T>(js: Js, table: seq<T>, accessor: T -> Json, key: string, v: int, number: T -> int)
    requires OrdersNumbers(js) && forall x :: x in table ==> Lookup(accessor(x), key) == Some(Num(number(x)))
    ensures Finds(js, table, Asks(key, "GT", Num(v)), accessor, x => number(x) > v)
    ensures Finds(js, table, Asks(key, "GTE", Num(v)), accessor, x => number(x) >= v)
    ensures Finds(js, table, Asks(key, "LT", Num(v)), accessor, x => number(x) < v)
    ensures Finds(js, table, Asks(key, "LTE", Num(v)), accessor, x => number(x) <= v)
  {
    forall x | x in table { ComparisonsKeep(js, key, v, number(x), accessor(x)); }
    FindsEach(js, table, Asks(key, "GT", Num(v)), accessor, x => number(x) > v);
    FindsEach(js, table, Asks(key, "GTE", Num(v)), accessor, x => number(x) >= v);
    FindsEach(js, table, Asks(key, "LT", Num(v)), accessor, x => number(x) < v);
    FindsEach(js, table, Asks(key, "LTE", Num(v)), accessor, x => number(x) <= v);
  }

  /** The query finds the rows of the table, in its order, that have the property. */
  ghost predicate Finds<T>(js: Js, table: seq<T>, query: Query, accessor: T -> Json, has: T -> bool) {
    && !ThrowsOn(js, table, query, accessor)
    && exists at :: IsSelection(table, has, at) && Kept(js, table, query, accessor) == RowsAt(table, at)
  }

  lemma FindsEach<T>(js: Js, table: seq<T>, query: Query, accessor: T -> Json, has: T -> bool)
    requires forall x :: x in table ==> if has(x) then Retains(js, query, accessor(x))
             else Drops(js, query, accessor(x))
    ensures Finds(js, table, query, accessor, has)
  {
    ThrowsOnSome(js, table, query, accessor);
    var keep := (x: T) => IsKept(js, query, accessor(x));
    var at := SelectedInOrder(table, keep);
    assert IsSelection(table, has, at);
  }

  predicate IsComparison(op: string) { op == "GT" || op == "GTE" || op == "LT" || op == "LTE" }

  /** They only drop rows that compare the other way: a row without the property is kept by all of them, and so
      is every row when the clause has no value. */
  lemma AbsentIsKept(js: Js, key: string, op: string, value: Json, content: Json)
    requires IsComparison(op)
    ensures Lookup(content, key) == None ==> Retains(js, Asks(key, op, value), content)
    ensures Retains(js, AsksNothing(key, op), content)
  {
    var x := OneOperator(js, key, op, Some(value), content);
    x := OneOperator(js, key, op, None, content);
  }

  /** For values of any types, by what JavaScript says of the two. */
  lemma ComparisonsDrop(js: Js, key: string, v: Json, d: Json, content: Json)
    requires Lookup(content, key) == Some(d)
    ensures if js.lessEq(d, v) then Drops(js, Asks(key, "GT", v), content) else Retains(js, Asks(key, "GT", v), content)
    ensures if js.less(d, v) then Drops(js, Asks(key, "GTE", v), content) else Retains(js, Asks(key, "GTE", v), content)
    ensures if js.lessEq(v, d) then Drops(js, Asks(key, "LT", v), content) else Retains(js, Asks(key, "LT", v), content)
    ensures if js.less(v, d) then Drops(js, Asks(key, "LTE", v), content) else Retains(js, Asks(key, "LTE", v), content)
  {
    var x := OneOperator(js, key, "GT", Some(v), content);
    x := OneOperator(js, key, "GTE", Some(v), content);
    x := OneOperator(js, key, "LT", Some(v), content);
    x := OneOperator(js, key, "LTE", Some(v), content);
  }

  lemma FirstTwo(lo: Json, hi: Json)
    ensures Lookup(Arr([lo, hi]), "0") == Some(lo) && Lookup(Arr([lo, hi]), "1") == Some(hi)
  {
    IndexOf(0, 2);
    IndexOf(1, 2);
    assert D.Decimal(0) == "0" && D.Decimal(1) == "1";
  }

  /** BETWEEN for values of any types, by what JavaScript says of the value and each bound. */
  lemma BetweenDrops(js: Js, key: string, lo: Json, hi: Json, d: Json, content: Json)
    requires Lookup(content, key) == Some(d)
    ensures if js.lessEq(lo, d) && js.lessEq(d, hi) then Retains(js, Asks(key, "BETWEEN", Arr([lo, hi])), content)
            else Drops(js, Asks(key, "BETWEEN", Arr([lo, hi])), content)
  {
    FirstTwo(lo, hi);
    var x := OneOperator(js, key, "BETWEEN", Some(Arr([lo, hi])), content);
  }

  /** BETWEEN keeps the numbers from one bound to the other, both included, no row without the property, and
      throws on every row when it has no value. */
  lemma BetweenKeeps(js: Js, key: string, lo: int, hi: int, content: Json)
    requires OrdersNumbers(js)
    ensures forall d :: Lookup(content, key) == Some(Num(d)) ==>
              if lo <= d <= hi then Retains(js, Asks(key, "BETWEEN", Arr([Num(lo), Num(hi)])), content)
              else Drops(js, Asks(key, "BETWEEN", Arr([Num(lo), Num(hi)])), content)
    ensures Lookup(content, key) == None ==> Drops(js, Asks(key, "BETWEEN", Arr([Num(lo), Num(hi)])), content)
    ensures Raises(js, AsksNothing(key, "BETWEEN"), content)
  {
    FirstTwo(Num(lo), Num(hi));
    var x := OneOperator(js, key, "BETWEEN", Some(Arr([Num(lo), Num(hi)])), content);
    x := OneOperator(js, key, "BETWEEN", None, content);
  }

  // ---------------------------------------------------------------- OBJECT

  /** OBJECT keeps the rows that the pattern matches.  A pattern given as text is parsed first; text that is not
      JSON throws, and so does a clause without a value. */
  lemma ObjectKeeps(js: Js, key: string, value: Json, content: Json)
    ensures !value.Str? ==>
              if PartialCompareObject(value, content) then Retains(js, Asks(key, "OBJECT", value), content)
              else Drops(js, Asks(key, "OBJECT", value), content)
    ensures value.Str? ==>
              match js.parse(value.text)
              case None => Raises(js, Asks(key, "OBJECT", value), content)
              case Some(p) =>
                if PartialCompareObject(p, content) then Retains(js, Asks(key, "OBJECT", value), content)
                else Drops(js, Asks(key, "OBJECT", value), content)
    ensures Raises(js, AsksNothing(key, "OBJECT"), content)
  {
    var x := OneOperator(js, key, "OBJECT", Some(value), content);
    x := OneOperator(js, key, "OBJECT", None, content);
  }

  // ---------------------------------------------------------------- ARRAY_CONTAINS

  /** part stands somewhere in text. */
  ghost predicate Occurs(part: string, text: string) { exists a, b :: text == a + part + b }

  lemma OccursIsIncludes(part: string, text: string)
    ensures Occurs(part, text) <==> Includes(text, part)
  {
    if a, b :| text == a + part + b { assert IsAt(text, part, |a|); }
    if Includes(text, part) {
      var i: nat :| i + |part| <= |text| && IsAt(text, part, i);
      assert text == text[..i] + part + text[i + |part|..];
    }
  }

  /** With a plain value ARRAY_CONTAINS keeps the arrays that have it and the strings it occurs in, and throws on
      a row where the property is anything else or absent. */
  lemma ContainsPlainKeeps(js: Js, key: string, value: Json, content: Json)
    requires IsPrimitive(value)
    ensures match Lookup(content, key)
            case Some(Arr(items)) =>
              if exists i :: 0 <= i < |items| && items[i] == value
              then Retains(js, Asks(key, "ARRAY_CONTAINS", value), content)
              else Drops(js, Asks(key, "ARRAY_CONTAINS", value), content)
            case Some(Str(text)) =>
              if Occurs(js.text(value), text) then Retains(js, Asks(key, "ARRAY_CONTAINS", value), content)
              else Drops(js, Asks(key, "ARRAY_CONTAINS", value), content)
            case _ => Raises(js, Asks(key, "ARRAY_CONTAINS", value), content)
  {
    var x := OneOperator(js, key, "ARRAY_CONTAINS", Some(value), content);
    match Lookup(content, key)
    case Some(Str(text)) => OccursIsIncludes(js.text(value), text);
    case _ =>
  }

  /** With a pattern it keeps the arrays with an item that the pattern matches, and throws on a row where the
      property is there and no array. */
  lemma ContainsPatternKeeps(js: Js, key: string, value: Json, content: Json)
    requires !IsPrimitive(value)
    ensures match Lookup(content, key)
            case None => Drops(js, Asks(key, "ARRAY_CONTAINS", value), content)
            case Some(Arr(items)) =>
              if exists i :: 0 <= i < |items| && PartialCompareObject(value, items[i])
              then Retains(js, Asks(key, "ARRAY_CONTAINS", value), content)
              else Drops(js, Asks(key, "ARRAY_CONTAINS", value), content)
            case _ => Raises(js, Asks(key, "ARRAY_CONTAINS", value), content)
  {
    var x := OneOperator(js, key, "ARRAY_CONTAINS", Some(value), content);
  }

  /** Without a value it drops the rows without the property and those with an empty array, and throws on all
      others. */
  lemma ContainsNothingThrows(js: Js, key: string, content: Json)
    ensures if Lookup(content, key) == None || Lookup(content, key) == Some(Arr([]))
            then Drops(js, AsksNothing(key, "ARRAY_CONTAINS"), content)
            else Raises(js, AsksNothing(key, "ARRAY_CONTAINS"), content)
  {
    var x := OneOperator(js, key, "ARRAY_CONTAINS", None, content);
  }

  // ---------------------------------------------------------------- LIKE

  function LikeValue(path: seq<string>, like: string): Json {
    Obj(map["path" := Arr(seq(|path|, i requires 0 <= i < |path| => Str(path[i]))), "like" := Str(like)])
  }

  /** The values met from data along the path, the last of them at its end. */
  ghost predicate LeadsTo(data: Json, path: seq<string>, met: seq<Json>) {
    |met| == |path| + 1 && met[0] == data && forall i :: 0 <= i < |path| ==> Lookup(met[i], path[i]) == Some(met[i + 1])
  }

  lemma {:induction false} WalkLeads(path: seq<string>, data: Json) returns (met: seq<Json>)
    requires path != [] && Walk(path, data).Some?
    ensures LeadsTo(data, path, met) && met[|path|] == Walk(path, data).value
  {
    var next := Lookup(data, path[0]).value;
    if |path| == 1 {
      met := [data, next];
    } else {
      var rest := WalkLeads(path[1..], next);
      met := [data] + rest;
      assert met[1] == next && forall i :: 0 <= i < |rest| ==> met[i + 1] == rest[i];
      forall i | 0 < i < |path| ensures Lookup(met[i], path[i]) == Some(met[i + 1]) {
        assert path[1..][i - 1] == path[i];
        assert Lookup(rest[i - 1], path[1..][i - 1]) == Some(rest[i]);
      }
    }
  }

  lemma {:induction false} LeadsWalk(path: seq<string>, data: Json, met: seq<Json>)
    requires path != [] && LeadsTo(data, path, met)
    ensures Walk(path, data) == Some(met[|path|])
  {
    if |path| > 1 {
      forall i | 0 <= i < |path| - 1 ensures Lookup(met[1..][i], path[1..][i]) == Some(met[1..][i + 1]) {
        assert path[1..][i] == path[i + 1];
      }
      LeadsWalk(path[1..], met[1], met[1..]);
    }
  }

  /** A string, number or boolean whose text the like text occurs in. */
  ghost predicate TextHas(x: Json, like: string) {
    match x
    case Str(text) => Occurs(like, text)
    case Num(n) => Occurs(like, if n >= 0 then D.Decimal(n) else "-" + D.Decimal(-n))
    case Bool(b) => Occurs(like, if b then "true" else "false")
    case _ => false
  }

  /** LIKE keeps the rows whose value at the end of the path is a plain value with the text in it, or an array with
      such a string, and throws where that array holds a number or a boolean.  A path that breaks off drops. */
  lemma LikeKeeps(js: Js, key: string, path: seq<string>, like: string, content: Json)
    requires path != [] && forall s :: js.text(Str(s)) == s
    ensures var q := Asks(key, "LIKE", LikeValue(path, like));
            && ((forall met :: !LeadsTo(content, path, met)) ==> Drops(js, q, content))
            && (forall met :: LeadsTo(content, path, met) ==>
                  match met[|path|]
                  case Obj(_) => Drops(js, q, content)
                  case Arr(items) =>
                    if exists x :: x in items && (x.Num? || x.Bool?) then Raises(js, q, content)
                    else if exists x :: x in items && TextHas(x, like) then Retains(js, q, content)
                    else Drops(js, q, content)
                  case x => if TextHas(x, like) then Retains(js, q, content) else Drops(js, q, content))
  {
    LikeVerdict(js, key, path, like, content);
    if Walk(path, content).Some? { var met := WalkLeads(path, content); }
    forall met | LeadsTo(content, path, met)
      ensures Walk(path, content) == Some(met[|path|])
      ensures LikeOutcome(path, like, content) == OutcomeAt(met[|path|], like)
    {
      LeadsWalk(path, content, met);
      OutcomeAtEnd(path, like, content);
    }
  }

  /** What LIKE answers for the value at the end of the path. */
  ghost function OutcomeAt(end: Json, like: string): Outcome {
    match end
    case Obj(_) => Holds(false)
    case Arr(items) =>
      if exists x :: x in items && (x.Num? || x.Bool?) then Outcome.Throws
      else Holds(exists x :: x in items && TextHas(x, like))
    case x => Holds(TextHas(x, like))
  }

  lemma OutcomeAtEnd(path: seq<string>, like: string, content: Json)
    requires Walk(path, content).Some?
    ensures LikeOutcome(path, like, content) == OutcomeAt(Walk(path, content).value, like)
  {
    var end := Walk(path, content).value;
    match end
    case Arr(items) =>
      forall x | x in items ensures TextHas(x, like) <==> IsPrimitive(x) && Includes(ToText(x), like) {
        TextHasIs(x, like);
      }
    case Obj(_) =>
    case Str(_) => TextHasIs(end, like);
    case Num(_) => TextHasIs(end, like);
    case Bool(_) => TextHasIs(end, like);
  }

  lemma LikeVerdict(js: Js, key: string, path: seq<string>, like: string, content: Json)
    requires forall s :: js.text(Str(s)) == s
    ensures var q, o := Asks(key, "LIKE", LikeValue(path, like)), LikeOutcome(path, like, content);
            && (Raises(js, q, content) <==> o.Throws?)
            && (Retains(js, q, content) <==> o == Holds(true))
            && (Drops(js, q, content) <==> o == Holds(false))
  {
    var x := OneOperator(js, key, "LIKE", Some(LikeValue(path, like)), content);
    LikeReads(js, path, like, content);
  }

  lemma TextHasIs(x: Json, like: string)
    ensures TextHas(x, like) <==> IsPrimitive(x) && Includes(ToText(x), like)
  {
    if IsPrimitive(x) { OccursIsIncludes(like, ToText(x)); }
  }

  lemma LikeReads(js: Js, path: seq<string>, like: string, content: Json)
    requires forall s :: js.text(Str(s)) == s
    ensures LikeEffect(js, Some(LikeValue(path, like)), content) == OfOutcome(LikeOutcome(path, like, content))
  {
    var v := LikeValue(path, like);
    assert "path" != "like";
    assert Lookup(v, "path") == Some(v.fields["path"]) && Lookup(v, "like") == Some(Str(like));
    assert Spread(js, v.fields["path"]).value == path;
  }

  /** An empty path reads the property "undefined". */
  lemma EmptyPathKeeps(js: Js, key: string, like: string, content: Json)
    requires forall s :: js.text(Str(s)) == s
    ensures var q, way := Asks(key, "LIKE", LikeValue([], like)), Asks(key, "LIKE", LikeValue(["undefined"], like));
            && (Retains(js, q, content) <==> Retains(js, way, content))
            && (Drops(js, q, content) <==> Drops(js, way, content))
  {
    EmptyWalk(content);
    SameEnd(js, key, [], ["undefined"], like, content);
  }

  lemma EmptyWalk(content: Json)
    ensures Walk([], content) == Walk(["undefined"], content)
  {
    var way := ["undefined"];
    assert |way| == 1 && way[0] == "undefined";
  }

  /** Paths that end at the same value answer alike. */
  lemma SameEnd(js: Js, key: string, a: seq<string>, b: seq<string>, like: string, content: Json)
    requires Walk(a, content) == Walk(b, content) && forall s :: js.text(Str(s)) == s
    ensures var p, q := Asks(key, "LIKE", LikeValue(a, like)), Asks(key, "LIKE", LikeValue(b, like));
            && (Retains(js, p, content) <==> Retains(js, q, content))
            && (Drops(js, p, content) <==> Drops(js, q, content))
  {
    LikeVerdict(js, key, a, like, content);
    LikeVerdict(js, key, b, like, content);
  }

  /** A value that is plain or lacks `path` or `like` drops every row; without a value the clause throws. */
  lemma BadLikeDrops(js: Js, key: string, value: Json, content: Json)
    requires IsPrimitive(value) || Lookup(value, "path") == None || Lookup(value, "like") == None
    ensures Drops(js, Asks(key, "LIKE", value), content)
    ensures Raises(js, AsksNothing(key, "LIKE"), content)
  {
    var x := OneOperator(js, key, "LIKE", Some(value), content);
    x := OneOperator(js, key, "LIKE", None, content);
  }

  // ---------------------------------------------------------------- anything else

  /** An operator the filter does not know keeps every row. */
  lemma UnknownKeeps(js: Js, key: string, op: string, value: Json, content: Json)
    requires op !in {"IN", "EQ", "GT", "GTE", "LT", "LTE", "BETWEEN", "OBJECT", "LIKE", "ARRAY_CONTAINS"}
    ensures Retains(js, Asks(key, op, value), content) && Retains(js, AsksNothing(key, op), content)
  {
    var x := OneOperator(js, key, op, Some(value), content);
    x := OneOperator(js, key, op, None, content);
  }
}
