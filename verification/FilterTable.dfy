/**
 The filter loop of the in-memory store: the clauses of a query, in order, over one accumulator that some of
 them overwrite.
 */
module FilterTable {
  import opened Wrappers
  import opened JsonQuery

  /** What JavaScript itself decides: `<` and `<=` on values of any two types, `String(x)`, and `JSON.parse`. */
  datatype Js = Js(less: (Json, Json) -> bool, lessEq: (Json, Json) -> bool, text: Json -> string,
                   parse: string -> Option<Json>)

  /** A query's keys and values, in order. */
  type Query = seq<(string, Json)>

  /** How a value is read: a primitive to equal, or an object with an operator. */
  datatype Clause = Equals(x: Json) | Op(op: string, value: Option<Json>)

  function ClauseOf(x: Json): Clause {
    if IsPrimitive(x) then Equals(x)
    else
      var op := Lookup(x, "op");
      Op(if op.Some? && op.value.Str? then op.value.text else "", Lookup(x, "value"))
  }

  /** What one clause does to `fieldsAllMatch`. */
  datatype Effect = Keeps | Clears | Assigns(b: bool) | Fails

  function Unless(bad: bool): Effect { if bad then Clears else Keeps }

  /** `===`: objects and arrays are compared by reference, and never equal. */
  predicate StrictEq(a: Option<Json>, b: Option<Json>) {
    match (a, b)
    case (None, None) => true
    case (Some(x), Some(y)) => IsPrimitive(x) && x == y
    case _ => false
  }

  /** A comparison with an absent value is false. */
  predicate Less(js: Js, a: Option<Json>, b: Option<Json>) { a.Some? && b.Some? && js.less(a.value, b.value) }

  predicate LessEq(js: Js, a: Option<Json>, b: Option<Json>) { a.Some? && b.Some? && js.lessEq(a.value, b.value) }

  predicate ListIncludes(items: seq<Json>, x: Option<Json>) { x.Some? && IsPrimitive(x.value) && x.value in items }

  /** The spread of a LIKE path. */
  function Spread(js: Js, path: Json): Option<seq<string>> {
    match path
    case Arr(items) => Some(seq(|items|, i requires 0 <= i < |items| => js.text(items[i])))
    case Str(text) => Some(seq(|text|, i requires 0 <= i < |text| => [text[i]]))
    case _ => None
  }

  predicate IsLike(value: Json) {
    !IsPrimitive(value) && Lookup(value, "path").Some? && Lookup(value, "like").Some?
  }

  ghost function OfOutcome(o: Outcome): Effect { if o.Throws? then Fails else Assigns(o.holds) }

  ghost function LikeEffect(js: Js, value: Option<Json>, content: Json): Effect {
    if value.None? then Fails
    else if !IsLike(value.value) then Clears
    else
      match Spread(js, Lookup(value.value, "path").value)
      case None => Fails
      case Some(path) => OfOutcome(LikeOutcome(path, js.text(Lookup(value.value, "like").value), content))
  }

  function ObjectEffect(js: Js, value: Option<Json>, content: Json): Effect {
    var parsed := if value.Some? && value.value.Str? then js.parse(value.value.text) else value;
    if parsed.None? then Fails else Assigns(PartialCompareObject(parsed.value, content))
  }

  function ContainsEffect(js: Js, data: Option<Json>, value: Option<Json>): Effect {
    if value.Some? && IsPrimitive(value.value) then
      match data
      case Some(Arr(items)) => Unless(value.value !in items)
      case Some(Str(text)) => Unless(!Includes(text, js.text(value.value)))
      case _ => Fails
    else
      match data
      case None => Clears
      case Some(Arr(items)) =>
        if items == [] then Clears
        else if value.None? then Fails
        else Unless(!exists i :: 0 <= i < |items| && PartialCompareObject(value.value, items[i]))
      case _ => Fails
  }

  ghost function EffectOf(js: Js, key: string, x: Json, content: Json): Effect {
    var data := Lookup(content, key);
    match ClauseOf(x)
    case Equals(_) => Unless(!StrictEq(Some(x), data))
    case Op(op, value) =>
      if op == "IN" then Unless(!(value.Some? && value.value.Arr? && ListIncludes(value.value.items, data)))
      else if op == "EQ" then Unless(!StrictEq(data, value))
      else if op == "GT" then Unless(LessEq(js, data, value))
      else if op == "GTE" then Unless(Less(js, data, value))
      else if op == "LT" then Unless(LessEq(js, value, data))
      else if op == "LTE" then Unless(Less(js, value, data))
      else if op == "BETWEEN" then
        if value.None? then Fails
        else Unless(!(LessEq(js, Lookup(value.value, "0"), data) && LessEq(js, data, Lookup(value.value, "1"))))
      else if op == "OBJECT" then ObjectEffect(js, value, content)
      else if op == "LIKE" then LikeEffect(js, value, content)
      else if op == "ARRAY_CONTAINS" then ContainsEffect(js, data, value)
      else Keeps
  }

  // ---------------------------------------------------------------- the loop

  ghost function Effects(js: Js, query: Query, content: Json): (es: seq<Effect>)
    ensures |es| == |query|
    ensures forall j :: 0 <= j < |es| ==> es[j] == EffectOf(js, query[j].0, query[j].1, content)
  {
    seq(|query|, j requires 0 <= j < |query| => EffectOf(js, query[j].0, query[j].1, content))
  }

  /** The accumulator after the effects; None if one of them threw. */
  ghost function Accumulated(es: seq<Effect>): Option<bool> {
    if es == [] then Some(true)
    else
      match Accumulated(es[..|es| - 1])
      case None => None
      case Some(b) => Applied(b, es[|es| - 1])
  }

  function Applied(b: bool, e: Effect): Option<bool> {
    match e
    case Keeps => Some(b)
    case Clears => Some(false)
    case Assigns(x) => Some(x)
    case Fails => None
  }

  method ApplyClause(js: Js, key: string, x: Json, content: Json, b: bool, ghost e: Effect) returns (r: Option<bool>)
    requires e == EffectOf(js, key, x, content)
    ensures r == Applied(b, e)
  {
    var data := Lookup(content, key);
    r := Some(b);
    match ClauseOf(x)
    case Equals(_) => if !StrictEq(Some(x), data) { r := Some(false); }
    case Op(op, value) =>
      match op
      case "IN" =>
        if value.Some? && value.value.Arr? {
          if !ListIncludes(value.value.items, data) { r := Some(false); }
        } else {
          r := Some(false);
        }
      case "EQ" => if !StrictEq(data, value) { r := Some(false); }
      case "GT" => if LessEq(js, data, value) { r := Some(false); }
      case "GTE" => if Less(js, data, value) { r := Some(false); }
      case "LT" => if LessEq(js, value, data) { r := Some(false); }
      case "LTE" => if Less(js, value, data) { r := Some(false); }
      case "BETWEEN" =>
        if value.None? {
          r := None;
        } else if !(LessEq(js, Lookup(value.value, "0"), data) && LessEq(js, data, Lookup(value.value, "1"))) {
          r := Some(false);
        }
      case "OBJECT" => r := Applied(b, ObjectEffect(js, value, content));
      case "LIKE" => r := ApplyLike(js, value, content);
      case "ARRAY_CONTAINS" => r := Applied(b, ContainsEffect(js, data, value));
      case _ =>
  }

  method ApplyLike(js: Js, value: Option<Json>, content: Json) returns (r: Option<bool>)
    ensures forall b :: r == Applied(b, LikeEffect(js, value, content))
  {
    if value.None? { return None; }
    if !IsLike(value.value) { return Some(false); }
    var path := Spread(js, Lookup(value.value, "path").value);
    if path.None? { return None; }
    var found := LikeCompare(path.value, js.text(Lookup(value.value, "like").value), content);
    return if found.Throws? then None else Some(found.holds);
  }

  // ---------------------------------------------------------------- what is kept

  /** The clauses that set the accumulator whatever it was. */
  predicate Overwrites(c: Clause) {
    c.Op? && (c.op == "OBJECT" || (c.op == "LIKE" && c.value.Some? && IsLike(c.value.value)))
  }

  /** Where the last overwriting clause is, or 0. */
  function LastOverwriting(query: Query, n: nat): (k: nat)
    requires n <= |query|
    ensures k <= n && ((k < n && Overwrites(ClauseOf(query[k].1))) || k == 0)
    ensures forall j :: k < j < n ==> !Overwrites(ClauseOf(query[j].1))
  {
    if n == 0 then 0 else if Overwrites(ClauseOf(query[n - 1].1)) then n - 1 else LastOverwriting(query, n - 1)
  }

  predicate Satisfied(e: Effect) { e == Keeps || e == Assigns(true) }

  predicate AllSatisfied(es: seq<Effect>, from: nat) { forall j :: from <= j < |es| ==> Satisfied(es[j]) }

  predicate NoneFails(es: seq<Effect>) { Fails !in es }

  lemma AssignsOverwrites(js: Js, key: string, x: Json, content: Json)
    requires EffectOf(js, key, x, content).Assigns?
    ensures Overwrites(ClauseOf(x))
  {
  }

  lemma OverwritesAssigns(js: Js, key: string, x: Json, content: Json)
    requires Overwrites(ClauseOf(x))
    ensures !EffectOf(js, key, x, content).Keeps? && !EffectOf(js, key, x, content).Clears?
  {
  }

  /** A conjunction that starts again at every assignment. */
  lemma {:induction false} AccumulatedIsSuffix(es: seq<Effect>, k: nat)
    requires k < |es| || k == 0
    requires 0 < k ==> !es[k].Keeps? && !es[k].Clears?
    requires forall j :: k < j < |es| ==> !es[j].Assigns?
    ensures Accumulated(es) == if NoneFails(es) then Some(AllSatisfied(es, k)) else None
  {
    if es != [] {
      var m := |es| - 1;
      var front, e := es[..m], es[m];
      assert es == front + [e];
      assert NoneFails(es) <==> NoneFails(front) && e != Fails;
      if k < m {
        AccumulatedIsSuffix(front, k);
        assert AllSatisfied(es, k) <==> AllSatisfied(front, k) && Satisfied(e);
      } else {
        AccumulatedThrows(front);
        assert AllSatisfied(es, k) <==> Satisfied(e);
      }
    }
  }

  lemma {:induction false} AccumulatedThrows(es: seq<Effect>)
    ensures Accumulated(es).None? <==> !NoneFails(es)
    ensures es == [] ==> Accumulated(es) == Some(true)
  {
    if es != [] {
      assert es == es[..|es| - 1] + [es[|es| - 1]];
      AccumulatedThrows(es[..|es| - 1]);
    }
  }

  ghost predicate IsKept(js: Js, query: Query, content: Json) {
    AllSatisfied(Effects(js, query, content), LastOverwriting(query, |query|))
  }

  /** The loop over the clauses keeps the row, drops it or throws. */
  lemma LoopDecides(js: Js, query: Query, content: Json)
    ensures var es := Effects(js, query, content);
            Accumulated(es) == if NoneFails(es) then Some(IsKept(js, query, content)) else None
  {
    var es := Effects(js, query, content);
    var k := LastOverwriting(query, |query|);
    forall j | 0 <= j < |es|
      ensures es[j].Assigns? ==> Overwrites(ClauseOf(query[j].1))
      ensures Overwrites(ClauseOf(query[j].1)) ==> !es[j].Keeps? && !es[j].Clears?
    {
      if es[j].Assigns? { AssignsOverwrites(js, query[j].0, query[j].1, content); }
      if Overwrites(ClauseOf(query[j].1)) { OverwritesAssigns(js, query[j].0, query[j].1, content); }
    }
    AccumulatedIsSuffix(es, k);
  }

  ghost function Selected<T>(table: seq<T>, keep: T -> bool): seq<T> {
    if table == [] then []
    else
      var last := table[|table| - 1];
      Selected(table[..|table| - 1], keep) + (if keep(last) then [last] else [])
  }

  /** The table's kept rows, in table order. */
  ghost function Kept<T>(js: Js, table: seq<T>, query: Query, accessor: T -> Json): seq<T> {
    Selected(table, (x: T) => IsKept(js, query, accessor(x)))
  }

  ghost predicate Throws(js: Js, query: Query, content: Json) { !NoneFails(Effects(js, query, content)) }

  ghost predicate ThrowsOn<T>(js: Js, table: seq<T>, query: Query, accessor: T -> Json) {
    table != [] && (ThrowsOn(js, table[..|table| - 1], query, accessor)
        || Throws(js, query, accessor(table[|table| - 1])))
  }

  lemma {:induction false} ThrowsOnSome<T>(js: Js, table: seq<T>, query: Query, accessor: T -> Json)
    ensures ThrowsOn(js, table, query, accessor) <==> exists x :: x in table && Throws(js, query, accessor(x))
  {
    if table != [] {
      assert table == table[..|table| - 1] + [table[|table| - 1]];
      ThrowsOnSome(js, table[..|table| - 1], query, accessor);
    }
  }

  lemma {:induction false} ThrowsOnMore<T>(js: Js, table: seq<T>, i: nat, query: Query, accessor: T -> Json)
    requires i <= |table| && ThrowsOn(js, table[..i], query, accessor)
    ensures ThrowsOn(js, table, query, accessor)
  {
    if i < |table| {
      assert table[..|table| - 1][..i] == table[..i];
      ThrowsOnMore(js, table[..|table| - 1], i, query, accessor);
    } else {
      assert table[..i] == table;
    }
  }

  lemma KeptNext<T>(js: Js, table: seq<T>, i: nat, query: Query, accessor: T -> Json)
    requires i < |table|
    ensures ThrowsOn(js, table[..i + 1], query, accessor) <==>
            ThrowsOn(js, table[..i], query, accessor) || Throws(js, query, accessor(table[i]))
    ensures Kept(js, table[..i + 1], query, accessor)
         == Kept(js, table[..i], query, accessor) + (if IsKept(js, query, accessor(table[i])) then [table[i]] else [])
  {
    assert table[..i + 1][..i] == table[..i];
  }

  /** Throws when some clause throws on some row; otherwise keeps exactly the rows that satisfy every clause from
      the last OBJECT or well-formed LIKE onward. */
  method FilterTableUsingObjectComparison<T>(js: Js, table: seq<T>, query: Query, accessor: T -> Json)
    returns (results: Option<seq<T>>)
    ensures results.None? <==> ThrowsOn(js, table, query, accessor)
    ensures results.Some? ==> results.value == Kept(js, table, query, accessor)
  {
    var kept: seq<T> := [];
    var i := 0;
    while i < |table|
      invariant i <= |table| && kept == Kept(js, table[..i], query, accessor)
      invariant !ThrowsOn(js, table[..i], query, accessor)
    {
      var fieldsAllMatch := FieldsAllMatch(js, query, accessor(table[i]));
      LoopDecides(js, query, accessor(table[i]));
      KeptNext(js, table, i, query, accessor);
      if fieldsAllMatch.None? {
        ThrowsOnMore(js, table, i + 1, query, accessor);
        return None;
      }
      if fieldsAllMatch.value { kept := kept + [table[i]]; }
      i := i + 1;
    }
    assert table[..|table|] == table;
    return Some(kept);
  }

  lemma NextAccumulated(es: seq<Effect>, j: nat, b: bool)
    requires j < |es| && Accumulated(es[..j]) == Some(b)
    ensures Accumulated(es[..j + 1]) == Applied(b, es[j])
    ensures Applied(b, es[j]) == None ==> Accumulated(es) == None
  {
    assert es[..j + 1][..j] == es[..j];
    if Applied(b, es[j]) == None {
      assert es[j] == Fails;
      AccumulatedThrows(es);
    }
  }

  /** The inner loop, for one row. */
  method FieldsAllMatch(js: Js, query: Query, content: Json) returns (r: Option<bool>)
    ensures r == Accumulated(Effects(js, query, content))
  {
    ghost var es := Effects(js, query, content);
    var fieldsAllMatch := true;
    var j := 0;
    while j < |query|
      invariant j <= |query| && Accumulated(es[..j]) == Some(fieldsAllMatch)
    {
      NextAccumulated(es, j, fieldsAllMatch);
      var next := ApplyClause(js, query[j].0, query[j].1, content, fieldsAllMatch, es[j]);
      if next.None? { return None; }
      fieldsAllMatch := next.value;
      j := j + 1;
    }
    assert es[..|query|] == es;
    return Some(fieldsAllMatch);
  }

  /** The rows kept are those of the table, in its order, that satisfy the clauses. */
  lemma KeptRows<T>(js: Js, table: seq<T>, query: Query, accessor: T -> Json, x: T)
    ensures x in Kept(js, table, query, accessor) <==> x in table && IsKept(js, query, accessor(x))
  {
    SelectedRows(table, (y: T) => IsKept(js, query, accessor(y)), x);
  }

  lemma {:induction false} SelectedRows<T>(table: seq<T>, keep: T -> bool, x: T)
    ensures x in Selected(table, keep) <==> x in table && keep(x)
  {
    if table != [] {
      var m := |table| - 1;
      SelectedRows(table[..m], keep, x);
      assert table == table[..m] + [table[m]];
    }
  }

  /** Ascending positions: exactly those of the rows to keep. */
  ghost predicate IsSelection<T>(table: seq<T>, keep: T -> bool, at: seq<nat>) {
    && (forall i :: 0 <= i < |at| ==> at[i] < |table| && keep(table[at[i]]))
    && (forall i, j :: 0 <= i < j < |at| ==> at[i] < at[j])
    && (forall k: nat :: k < |table| && keep(table[k]) ==> k in at)
  }

  ghost function RowsAt<T>(table: seq<T>, at: seq<nat>): seq<T>
    requires forall i :: 0 <= i < |at| ==> at[i] < |table|
  {
    seq(|at|, i requires 0 <= i < |at| => table[at[i]])
  }

  /** The selected rows stand in table order, none twice that is not there twice, and none is missing. */
  lemma {:induction false} SelectedInOrder<T>(table: seq<T>, keep: T -> bool) returns (at: seq<nat>)
    ensures IsSelection(table, keep, at) && Selected(table, keep) == RowsAt(table, at)
  {
    at := [];
    if table != [] {
      var m := |table| - 1;
      at := SelectedInOrder(table[..m], keep);
      assert RowsAt(table[..m], at) == RowsAt(table, at);
      SelectionGrows(table, keep, at);
      if keep(table[m]) { at := at + [m]; }
    }
  }

  lemma SelectionGrows<T>(table: seq<T>, keep: T -> bool, at: seq<nat>)
    requires table != [] && IsSelection(table[..|table| - 1], keep, at)
    ensures var m := |table| - 1;
            IsSelection(table, keep, if keep(table[m]) then at + [m] else at)
  {
    var m := |table| - 1;
    var more := if keep(table[m]) then at + [m] else at;
    forall k: nat | k < |table| && keep(table[k]) ensures k in more {
      if k < m { assert table[..m][k] == table[k]; } else { assert more[|at|] == m; }
    }
  }

  lemma KeptInOrder<T>(js: Js, table: seq<T>, query: Query, accessor: T -> Json) returns (at: seq<nat>)
    ensures IsSelection(table, (x: T) => IsKept(js, query, accessor(x)), at)
    ensures Kept(js, table, query, accessor) == RowsAt(table, at)
  {
    at := SelectedInOrder(table, (x: T) => IsKept(js, query, accessor(x)));
  }

  /** With nothing before the last overwriting clause the filter is the conjunction of all clauses. */
  lemma KeptIsConjunction(js: Js, query: Query, content: Json)
    requires forall j :: 0 < j < |query| ==> !Overwrites(ClauseOf(query[j].1))
    ensures IsKept(js, query, content) <==> AllSatisfied(Effects(js, query, content), 0)
  {
    assert LastOverwriting(query, |query|) == 0;
  }

  /** The rows the filter keeps against the conjunction: those that fail a clause before the last overwriting one
      and pass from there on. */
  lemma WronglyKeptExactlyWhen(js: Js, query: Query, content: Json)
    ensures var es := Effects(js, query, content);
            var k := LastOverwriting(query, |query|);
            (AllSatisfied(es, 0) ==> IsKept(js, query, content))
            && (IsKept(js, query, content) && !AllSatisfied(es, 0) <==>
                  !AllSatisfied(es[..k], 0) && AllSatisfied(es, k))
  {
    SatisfiedSplits(Effects(js, query, content), LastOverwriting(query, |query|));
  }

  lemma SatisfiedSplits(es: seq<Effect>, k: nat)
    requires k <= |es|
    ensures AllSatisfied(es, 0) <==> AllSatisfied(es[..k], 0) && AllSatisfied(es, k)
  {
    if AllSatisfied(es[..k], 0) { assert forall j :: 0 <= j < k ==> es[..k][j] == es[j]; }
  }

  predicate SameClauses(p: Query, q: Query) { multiset(p) == multiset(q) }

  /** Without overwriting clauses their order does not matter, for what is kept or for what throws. */
  lemma OrderDoesNotMatter(js: Js, p: Query, q: Query, content: Json)
    requires SameClauses(p, q) && forall j :: 0 <= j < |p| ==> !Overwrites(ClauseOf(p[j].1))
    ensures IsKept(js, p, content) <==> IsKept(js, q, content)
    ensures NoneFails(Effects(js, p, content)) <==> NoneFails(Effects(js, q, content))
  {
    SameMembers(p, q);
    SubEffects(js, p, q, content);
    SubEffects(js, q, p, content);
    KeptIsConjunction(js, p, content);
    KeptIsConjunction(js, q, content);
  }

  lemma SubEffects(js: Js, p: Query, q: Query, content: Json)
    requires forall j :: 0 <= j < |p| ==> p[j] in q
    ensures forall e :: e in Effects(js, p, content) ==> e in Effects(js, q, content)
    ensures (forall j :: 0 <= j < |q| ==> !Overwrites(ClauseOf(q[j].1))) ==>
            forall j :: 0 <= j < |p| ==> !Overwrites(ClauseOf(p[j].1))
    ensures AllSatisfied(Effects(js, q, content), 0) ==> AllSatisfied(Effects(js, p, content), 0)
  {
    var ep, eq := Effects(js, p, content), Effects(js, q, content);
    forall j | 0 <= j < |p| ensures exists k :: 0 <= k < |q| && q[k] == p[j] && eq[k] == ep[j] {
      var k :| 0 <= k < |q| && q[k] == p[j];
    }
  }

  lemma SameMembers(p: Query, q: Query)
    requires SameClauses(p, q)
    ensures forall x :: x in p <==> x in q
    ensures (forall j :: 0 <= j < |p| ==> p[j] in q) && (forall j :: 0 <= j < |q| ==> q[j] in p)
  {
    forall x ensures x in p <==> x in q { assert x in multiset(p) <==> x in multiset(q); }
  }

  /** With an overwriting clause it does: {a: 1, o: OBJECT {}} keeps {a: 2}, and the other order does not. */
  lemma OrderCanMatter(js: Js)
    ensures var everything := Obj(map["op" := Str("OBJECT"), "value" := Obj(map[])]);
            var p: Query := [("a", Num(1)), ("o", everything)];
            var q: Query := [("o", everything), ("a", Num(1))];
            var content := Obj(map["a" := Num(2)]);
            SameClauses(p, q) && IsKept(js, p, content) && !IsKept(js, q, content)
  {
    var everything := Obj(map["op" := Str("OBJECT"), "value" := Obj(map[])]);
    var p: Query := [("a", Num(1)), ("o", everything)];
    var q: Query := [("o", everything), ("a", Num(1))];
    var content := Obj(map["a" := Num(2)]);
    assert p[0] == q[1] && p[1] == q[0];
    assert Lookup(content, "a") == Some(Num(2));
    EqualsEffect(js, "a", Num(1), content);
    EffectOfObject(js, "o", Obj(map[]), content);
    assert Effects(js, q, content)[1] == Clears;
  }

  lemma EqualsEffect(js: Js, key: string, x: Json, content: Json)
    requires IsPrimitive(x)
    ensures EffectOf(js, key, x, content) == Unless(Lookup(content, key) != Some(x))
  {
  }

  lemma EffectOfObject(js: Js, key: string, p: Json, content: Json)
    requires !p.Str?
    ensures var x := Obj(map["op" := Str("OBJECT"), "value" := p]);
            ClauseOf(x) == Op("OBJECT", Some(p))
                && EffectOf(js, key, x, content) == Assigns(PartialCompareObject(p, content))
  {
  }

  /** If pattern p holds of pattern q and p is firm, an OBJECT query for p finds every row that one for q finds. */
  lemma WeakerPatternFindsMore<T>(js: Js, table: seq<T>, accessor: T -> Json, key: string, p: Json, q: Json, x: T)
    requires Firm(p) && PartialCompareObject(p, q) && !p.Str? && !q.Str?
    requires x in Kept(js, table, [(key, Obj(map["op" := Str("OBJECT"), "value" := q]))], accessor)
    ensures x in Kept(js, table, [(key, Obj(map["op" := Str("OBJECT"), "value" := p]))], accessor)
  {
    KeptRows(js, table, [(key, Obj(map["op" := Str("OBJECT"), "value" := q]))], accessor, x);
    KeptRows(js, table, [(key, Obj(map["op" := Str("OBJECT"), "value" := p]))], accessor, x);
    OneObject(js, key, p, accessor(x));
    OneObject(js, key, q, accessor(x));
    Transitive(p, q, accessor(x));
  }

  lemma OneObject(js: Js, key: string, p: Json, content: Json)
    requires !p.Str?
    ensures IsKept(js, [(key, Obj(map["op" := Str("OBJECT"), "value" := p]))], content) <==>
            PartialCompareObject(p, content)
  {
    var query: Query := [(key, Obj(map["op" := Str("OBJECT"), "value" := p]))];
    EffectOfObject(js, key, p, content);
    assert Effects(js, query, content)[0] == Assigns(PartialCompareObject(p, content));
  }
}
