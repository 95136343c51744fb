/**
 The in-memory document store: tables of records in insertion order, found by query, sorted and paged.
 */
module InMemStore {
  import opened Wrappers
  import opened JsonQuery
  import opened FilterTable
  import opened FilterClauses

  datatype Record = Record(id: string, kind: string, createdAt: nat, content: Json)

  type Table = seq<Record>

  predicate UniqueIds(table: Table) { forall i, j :: 0 <= i < j < |table| ==> table[i].id != table[j].id }

  // ---------------------------------------------------------------- sorting

  /** The comparator answers a negative number: a's value comes first. */
  predicate Before(js: Js, key: string, direction: string, a: Record, b: Record) {
    var p1, p2 := Lookup(a.content, key), Lookup(b.content, key);
    if direction == "DESC" then Less(js, p2, p1) else Less(js, p1, p2)
  }

  /** On these records the comparator is consistent: a strict weak order. */
  ghost predicate Comparable(lt: (Record, Record) -> bool, table: Table) {
    && (forall a, b :: a in table && b in table && lt(a, b) ==> !lt(b, a))
    && (forall a, b, c :: a in table && b in table && c in table && lt(a, c) ==> lt(a, b) || lt(b, c))
  }

  function Insert(lt: (Record, Record) -> bool, sorted: Table, x: Record): Table {
    if sorted == [] || !lt(x, sorted[|sorted| - 1]) then sorted + [x]
    else Insert(lt, sorted[..|sorted| - 1], x) + [sorted[|sorted| - 1]]
  }

  /** A stable sort.  `StableSortIsUnique` shows that for a consistent comparator there is no other. */
  function StableSort(lt: (Record, Record) -> bool, table: Table): Table {
    if table == [] then []
    else Insert(lt, StableSort(lt, table[..|table| - 1]), table[|table| - 1])
  }

  ghost function Position(table: Table, x: Record): nat
    requires x in table
    ensures Position(table, x) < |table| && table[Position(table, x)] == x
  {
    var i :| 0 <= i < |table| && table[i] == x;
    i
  }

  /** `a` goes ahead of `b`: by value, or by place in the table where the values tie. */
  ghost predicate Ahead(lt: (Record, Record) -> bool, table: Table, a: Record, b: Record)
    requires a in table && b in table
  {
    lt(a, b) || (!lt(b, a) && Position(table, a) < Position(table, b))
  }

  /** Each record of `r` is ahead of the next ones. */
  ghost predicate InLine(lt: (Record, Record) -> bool, table: Table, r: Table) {
    && (forall x :: x in r ==> x in table)
    && (forall i, j :: 0 <= i < j < |r| ==> Ahead(lt, table, r[i], r[j]))
  }

  /** A stable ordered permutation of `table`. */
  ghost predicate IsStableSort(lt: (Record, Record) -> bool, table: Table, sorted: Table) {
    multiset(sorted) == multiset(table) && InLine(lt, table, sorted)
  }

  lemma UniquePositions(table: Table, i: nat)
    requires UniqueIds(table) && i < |table|
    ensures Position(table, table[i]) == i
  {
  }

  lemma {:induction false} InsertPermutes(lt: (Record, Record) -> bool, sorted: Table, x: Record)
    ensures multiset(Insert(lt, sorted, x)) == multiset(sorted) + multiset{x}
  {
    if !(sorted == [] || !lt(x, sorted[|sorted| - 1])) {
      InsertPermutes(lt, sorted[..|sorted| - 1], x);
      assert sorted == sorted[..|sorted| - 1] + [sorted[|sorted| - 1]];
    }
  }

  lemma MembersOf(s: Table, t: Table)
    requires multiset(s) == multiset(t)
    ensures |s| == |t| && forall x :: x in s <==> x in t
  {
    assert |multiset(s)| == |s| && |multiset(t)| == |t|;
    forall x ensures x in s <==> x in t { assert x in multiset(s) <==> x in multiset(t); }
  }

  lemma {:induction false} SortPermutes(lt: (Record, Record) -> bool, table: Table)
    ensures multiset(StableSort(lt, table)) == multiset(table)
  {
    if table != [] {
      SortPermutes(lt, table[..|table| - 1]);
      InsertPermutes(lt, StableSort(lt, table[..|table| - 1]), table[|table| - 1]);
      assert table == table[..|table| - 1] + [table[|table| - 1]];
    }
  }

  /** Inserting a record that stands last in the table. */
  lemma {:induction false} InsertSorts(lt: (Record, Record) -> bool, table: Table, sorted: Table, x: Record)
    requires Comparable(lt, table) && x in table
             && forall y :: y in sorted ==> y in table && Position(table, y) < Position(table, x)
    requires forall i, j :: 0 <= i < j < |sorted| ==> Ahead(lt, table, sorted[i], sorted[j])
    ensures var r := Insert(lt, sorted, x);
            && (forall y :: y in r ==> y in sorted || y == x)
            && (forall i, j :: 0 <= i < j < |r| && r[i] in table && r[j] in table ==> Ahead(lt, table, r[i], r[j]))
  {
    if sorted != [] {
      var m := |sorted| - 1;
      var front, last := sorted[..m], sorted[m];
      assert last in sorted;
      if lt(x, last) {
        assert forall y :: y in front ==> y in sorted;
        InsertSorts(lt, table, front, x);
        var r := Insert(lt, front, x);
        forall i | 0 <= i < |r| ensures r[i] in table && Ahead(lt, table, r[i], last) {
          if r[i] in front {
            var k :| 0 <= k < m && front[k] == r[i];
            assert sorted[k] == r[i];
          }
        }
      } else {
        forall i | 0 <= i <= m ensures Ahead(lt, table, sorted[i], x) {
          assert sorted[i] in sorted;
          if i < m { assert Ahead(lt, table, sorted[i], last); }
        }
      }
    }
  }

  /** The result of the sort is a stable ordered permutation. */
  lemma {:induction false} StableSortSorts(lt: (Record, Record) -> bool, table: Table)
    requires UniqueIds(table) && Comparable(lt, table)
    ensures IsStableSort(lt, table, StableSort(lt, table))
  {
    SortPermutes(lt, table);
    if table != [] {
      var m := |table| - 1;
      FrontIsComparable(lt, table);
      StableSortSorts(lt, table[..m]);
      FrontInLine(lt, table, StableSort(lt, table[..m]));
      InsertInLine(lt, table, StableSort(lt, table[..m]));
    }
  }

  lemma InsertInLine(lt: (Record, Record) -> bool, table: Table, sorted: Table)
    requires table != [] && Comparable(lt, table) && InLine(lt, table, sorted)
    requires forall y :: y in sorted ==> Position(table, y) < Position(table, table[|table| - 1])
    ensures InLine(lt, table, Insert(lt, sorted, table[|table| - 1]))
  {
    InsertSorts(lt, table, sorted, table[|table| - 1]);
  }

  lemma FrontIsComparable(lt: (Record, Record) -> bool, table: Table)
    requires table != [] && UniqueIds(table) && Comparable(lt, table)
    ensures UniqueIds(table[..|table| - 1]) && Comparable(lt, table[..|table| - 1])
  {
    var front := table[..|table| - 1];
    assert forall y :: y in front ==> y in table;
  }

  /** Places in the table are the places in its front, for the records there. */
  lemma FrontInLine(lt: (Record, Record) -> bool, table: Table, sorted: Table)
    requires table != [] && UniqueIds(table) && InLine(lt, table[..|table| - 1], sorted)
    ensures InLine(lt, table, sorted)
    ensures forall y :: y in sorted ==> Position(table, y) < Position(table, table[|table| - 1])
  {
    var m := |table| - 1;
    var front := table[..m];
    UniquePositions(table, m);
    forall y | y in front ensures y in table && Position(table, y) == Position(front, y) {
      UniquePositions(table, Position(front, y));
    }
    forall i, j | 0 <= i < j < |sorted| ensures Ahead(lt, table, sorted[i], sorted[j]) {
      assert sorted[i] in front && sorted[j] in front && Ahead(lt, front, sorted[i], sorted[j]);
    }
  }

  lemma AheadIsStrict(lt: (Record, Record) -> bool, table: Table, a: Record, b: Record)
    requires Comparable(lt, table) && a in table && b in table && Ahead(lt, table, a, b)
    ensures !Ahead(lt, table, b, a)
  {
  }

  lemma {:induction false} InLineIsUnique(lt: (Record, Record) -> bool, table: Table, r: Table, s: Table)
    requires Comparable(lt, table) && multiset(r) == multiset(s) && InLine(lt, table, r) && InLine(lt, table, s)
    ensures r == s
    decreases |r|
  {
    MembersOf(r, s);
    if r != [] {
      var m := |r| - 1;
      FrontsAgree(lt, table, r, s);
      InLineIsUnique(lt, table, r[..m], s[..m]);
      assert r == r[..m] + [r[m]] && s == s[..m] + [s[m]];
    }
  }

  lemma FrontsAgree(lt: (Record, Record) -> bool, table: Table, r: Table, s: Table)
    requires Comparable(lt, table) && r != [] && |r| == |s| && multiset(r) == multiset(s)
    requires InLine(lt, table, r) && InLine(lt, table, s)
    ensures var m := |r| - 1;
            r[m] == s[m] && multiset(r[..m]) == multiset(s[..m]) && InLine(lt, table, r[..m])
                && InLine(lt, table, s[..m])
  {
    MembersOf(r, s);
    LastAgrees(lt, table, r, s);
    DropLast(r);
    DropLast(s);
    InLineFront(lt, table, r);
    InLineFront(lt, table, s);
  }

  lemma InLineFront(lt: (Record, Record) -> bool, table: Table, r: Table)
    requires r != [] && InLine(lt, table, r)
    ensures InLine(lt, table, r[..|r| - 1])
  {
    assert forall x :: x in r[..|r| - 1] ==> x in r;
  }

  /** Whatever algorithm the library uses, a stable ordered permutation is this one. */
  lemma StableSortIsUnique(lt: (Record, Record) -> bool, table: Table, r: Table)
    requires UniqueIds(table) && Comparable(lt, table)
    ensures IsStableSort(lt, table, r) <==> r == StableSort(lt, table)
  {
    StableSortSorts(lt, table);
    if IsStableSort(lt, table, r) { InLineIsUnique(lt, table, r, StableSort(lt, table)); }
  }

  lemma DropLast(s: Table)
    requires s != []
    ensures multiset(s[..|s| - 1]) == multiset(s) - multiset{s[|s| - 1]}
  {
    assert s == s[..|s| - 1] + [s[|s| - 1]];
  }

  lemma LastAgrees(lt: (Record, Record) -> bool, table: Table, r: Table, s: Table)
    requires Comparable(lt, table) && |r| == |s| > 0 && forall x :: x in r <==> x in s
    requires InLine(lt, table, r) && InLine(lt, table, s)
    ensures r[|r| - 1] == s[|s| - 1]
  {
    var m := |r| - 1;
    assert r[m] in s && s[m] in r;
    var i :| 0 <= i < |s| && s[i] == r[m];
    var j :| 0 <= j < |r| && r[j] == s[m];
    if i < m && j < m {
      assert Ahead(lt, table, s[i], s[m]);
      AheadIsStrict(lt, table, s[i], s[m]);
    }
  }

  /** Where no record has the key every comparison is false and the table's order stays: the cold replay of a
      stream sorts on a key its records do not have. */
  lemma {:induction false} AbsentKeyKeepsOrder(lt: (Record, Record) -> bool, table: Table)
    requires forall a, b :: a in table && b in table ==> !lt(a, b)
    ensures StableSort(lt, table) == table
  {
    if table != [] {
      var front := table[..|table| - 1];
      assert forall y :: y in front ==> y in table;
      assert table == front + [table[|table| - 1]];
      AbsentKeyKeepsOrder(lt, front);
    }
  }

  // ---------------------------------------------------------------- paging

  function Max(x: int, y: int): int { if x < y then y else x }

  function Min(x: int, y: int): int { if x < y then x else y }

  /** `slice(start, end)` for a start that is not negative: a negative end counts from the end of the array. */
  function Slice<T>(s: seq<T>, start: nat, end: int): seq<T> {
    var e := if end < 0 then Max(|s| + end, 0) else Min(end, |s|);
    if start < e then s[start..e] else []
  }

  function Page<T>(results: seq<T>, page: int, pageSize: int): seq<T> {
    var start := Max(pageSize * page - pageSize, 0);
    Slice(results, start, start + pageSize)
  }

  function Pages<T>(results: seq<T>, pageSize: int, k: nat): seq<T> {
    if k == 0 then [] else Pages(results, pageSize, k - 1) + Page(results, k, pageSize)
  }

  /** The first k pages together are the first k * pageSize results. */
  lemma {:induction false} PagesAreAPrefix<T>(results: seq<T>, pageSize: int, k: nat)
    requires pageSize > 0
    ensures 0 <= k * pageSize && Pages(results, pageSize, k) == results[..Min(k * pageSize, |results|)]
  {
    if k > 0 {
      PagesAreAPrefix(results, pageSize, k - 1);
      var done := (k - 1) * pageSize;
      assert pageSize * k - pageSize == done && k * pageSize == done + pageSize;
      if done < |results| {
        assert results[..Min(done + pageSize, |results|)] ==
            results[..done] + results[done..Min(done + pageSize, |results|)];
      }
    }
  }

  function PageCount(n: nat, pageSize: int): nat
    requires pageSize > 0
  {
    (n + pageSize - 1) / pageSize
  }

  /** Pages 1 to ceil(n / pageSize) are the whole result, and no page before the last is short. */
  lemma PagesAreTheResult<T>(results: seq<T>, pageSize: int)
    requires pageSize > 0
    ensures Pages(results, pageSize, PageCount(|results|, pageSize)) == results
    ensures forall k :: 1 <= k < PageCount(|results|, pageSize) ==> |Page(results, k, pageSize)| == pageSize
  {
    var n := |results|;
    var k := PageCount(n, pageSize);
    PagesAreAPrefix(results, pageSize, k);
    CeilCovers(n, pageSize);
    assert results[..n] == results;
    forall j | 1 <= j < k ensures |Page(results, j, pageSize)| == pageSize {
      FullBefore(j, k, pageSize);
      assert pageSize * j - pageSize == (j - 1) * pageSize;
      FullBefore(j - 1, j, pageSize);
    }
  }

  lemma CeilCovers(n: nat, pageSize: int)
    requires pageSize > 0
    ensures PageCount(n, pageSize) * pageSize >= n
    ensures (PageCount(n, pageSize) - 1) * pageSize < n || n == 0
  {
    var m := n + pageSize - 1;
    assert m == (m / pageSize) * pageSize + m % pageSize;
  }

  lemma FullBefore(j: int, k: int, pageSize: int)
    requires pageSize > 0 && j < k
    ensures j * pageSize <= (k - 1) * pageSize && j * pageSize + pageSize <= k * pageSize
  {
  }

  /** Page 0, like every page below it, is page 1. */
  lemma PageZeroIsPageOne<T>(results: seq<T>, page: int, pageSize: int)
    requires pageSize > 0 && page <= 1
    ensures Page(results, page, pageSize) == Page(results, 1, pageSize)
  {
    FullBefore(page - 1, 1, pageSize);
    assert pageSize * page - pageSize == (page - 1) * pageSize;
  }

  // ---------------------------------------------------------------- the store

  type Tenants = map<string, map<string, Table>>

  function TableOf(tenants: Tenants, workspaceId: string, kind: string): Option<Table> {
    if workspaceId in tenants && kind in tenants[workspaceId] then Some(tenants[workspaceId][kind]) else None
  }

  ghost predicate SameTables(s: Tenants, t: Tenants) {
    forall w, k :: TableOf(s, w, k) == TableOf(t, w, k)
  }

  /** Only the table (w, k) may differ. */
  ghost predicate SameElsewhere(s: Tenants, t: Tenants, w: string, k: string) {
    forall w', k' :: (w', k') != (w, k) ==> TableOf(s, w', k') == TableOf(t, w', k')
  }

  function ContentOf(r: Record): Json { r.content }

  type Sorting = seq<(string, string)>

  function Sorted(js: Js, rows: Table, sorting: Sorting): Table {
    if sorting == [] then rows
    else StableSort((a: Record, b: Record) => Before(js, sorting[0].0, sorting[0].1, a, b), rows)
  }

  ghost predicate WeakOrder(js: Js, values: set<Json>) {
    && (forall x, y :: x in values && y in values && js.less(x, y) ==> !js.less(y, x))
    && (forall x, y, z :: x in values && y in values && z in values && js.less(x, z) ==> js.less(x, y) || js.less(y, z))
  }

  /** With mutually comparable values under the first sort key, the result is the stable ordered permutation, in
      either direction; only the first key counts. */
  lemma SortedIsStable(js: Js, rows: Table, sorting: Sorting, values: set<Json>, r: Table)
    requires sorting != [] && UniqueIds(rows) && WeakOrder(js, values)
    requires forall x :: x in rows ==>
             Lookup(x.content, sorting[0].0).Some? && Lookup(x.content, sorting[0].0).value in values
    ensures r == Sorted(js, rows, sorting) <==>
            IsStableSort((a: Record, b: Record) => Before(js, sorting[0].0, sorting[0].1, a, b), rows, r)
  {
    var lt := (a: Record, b: Record) => Before(js, sorting[0].0, sorting[0].1, a, b);
    ValuesCompare(js, rows, sorting[0].0, sorting[0].1, values, lt);
    StableSortIsUnique(lt, rows, r);
  }

  lemma ValuesCompare(js: Js, rows: Table, key: string, direction: string, values: set<Json>,
    lt: (Record, Record) -> bool)
    requires WeakOrder(js, values) && forall a, b :: lt(a, b) <==> Before(js, key, direction, a, b)
    requires forall x :: x in rows ==> Lookup(x.content, key).Some? && Lookup(x.content, key).value in values
    ensures Comparable(lt, rows)
  {
    forall a, b, c | a in rows && b in rows && c in rows
      ensures (lt(a, b) ==> !lt(b, a)) && (lt(a, c) ==> lt(a, b) || lt(b, c))
    {
      var x, y, z := Lookup(a.content, key).value, Lookup(b.content, key).value, Lookup(c.content, key).value;
      assert x in values && y in values && z in values;
    }
  }

  /** Rows with numbers under the first sort key come in their order, ascending unless the direction is "DESC", with
      ties as they stand in the table; there is one such order. */
  lemma NumbersInOrder(js: Js, rows: Table, sorting: Sorting, number: Record -> int)
    requires sorting != [] && UniqueIds(rows) && OrdersNumbers(js)
    requires forall x :: x in rows ==> Lookup(x.content, sorting[0].0) == Some(Num(number(x)))
    ensures var r := Sorted(js, rows, sorting);
            && multiset(r) == multiset(rows)
            && (forall x :: x in r ==> x in rows)
            && forall i, j :: 0 <= i < j < |r| ==>
                 if number(r[i]) == number(r[j]) then Position(rows, r[i]) < Position(rows, r[j])
                 else if sorting[0].1 == "DESC" then number(r[i]) > number(r[j]) else number(r[i]) < number(r[j])
  {
    var values := set x | x in rows :: Num(number(x));
    var lt := (a: Record, b: Record) => Before(js, sorting[0].0, sorting[0].1, a, b);
    var r := Sorted(js, rows, sorting);
    SortedIsStable(js, rows, sorting, values, r);
    MembersOf(r, rows);
    forall i, j | 0 <= i < j < |r|
      ensures if number(r[i]) == number(r[j]) then Position(rows, r[i]) < Position(rows, r[j])
              else if sorting[0].1 == "DESC" then number(r[i]) > number(r[j]) else number(r[i]) < number(r[j])
    {
      assert Ahead(lt, rows, r[i], r[j]);
    }
  }

  /** A sort on a key that no record has leaves the order of insertion. */
  lemma SortOnAbsentKey(js: Js, rows: Table, sorting: Sorting)
    requires sorting != [] && forall x :: x in rows ==> Lookup(x.content, sorting[0].0) == None
    ensures Sorted(js, rows, sorting) == rows
  {
    AbsentKeyKeepsOrder((a: Record, b: Record) => Before(js, sorting[0].0, sorting[0].1, a, b), rows);
  }

  /** What `findEntity` answers on a table: None if a clause throws. */
  ghost function FindResult(js: Js, table: Option<Table>, query: Query, sorting: Sorting): Option<Table> {
    match table
    case None => Some([])
    case Some(rows) =>
      if ThrowsOn(js, rows, query, ContentOf) then None
      else Some(Sorted(js, Kept(js, rows, query, ContentOf), sorting))
  }

  /** `findEntity` throws exactly if the filter throws on some row of the table; otherwise it answers each row that
      is kept as often as the table has it, and no other, and without a sort in table order.  A table that does not
      exist has no rows. */
  lemma FindsExactly(js: Js, table: Table, query: Query, sorting: Sorting)
    ensures FindResult(js, None, query, sorting) == Some([])
    ensures var r := FindResult(js, Some(table), query, sorting);
            && (r == None <==> exists x :: x in table && Raises(js, query, x.content))
            && (r.Some? ==>
                  && (forall x :: x in r.value <==> x in table && IsKept(js, query, x.content))
                  && (UniqueIds(table) ==> UniqueIds(r.value)))
    ensures var r := FindResult(js, Some(table), query, []);
            r.Some? ==> exists at :: IsSelection(table, (x: Record) => IsKept(js, query, ContentOf(x)), at)
                                     && r.value == RowsAt(table, at)
  {
    ThrowsOnSome(js, table, query, ContentOf);
    forall x { KeptRows(js, table, query, ContentOf, x); }
    KeptOnce(js, table, query);
    SortedKeepsRows(js, Kept(js, table, query, ContentOf), sorting);
    SortedKeepsRows(js, Kept(js, table, query, ContentOf), []);
  }

  lemma KeptOnce(js: Js, table: Table, query: Query)
    ensures exists at :: IsSelection(table, (x: Record) => IsKept(js, query, ContentOf(x)), at)
                         && Kept(js, table, query, ContentOf) == RowsAt(table, at)
    ensures UniqueIds(table) ==> UniqueIds(Kept(js, table, query, ContentOf))
  {
    var at := FilterTable.KeptInOrder(js, table, query, ContentOf);
  }

  lemma SortedKeepsRows(js: Js, kept: Table, sorting: Sorting)
    ensures multiset(Sorted(js, kept, sorting)) == multiset(kept)
    ensures forall x :: x in Sorted(js, kept, sorting) <==> x in kept
    ensures UniqueIds(kept) ==> UniqueIds(Sorted(js, kept, sorting))
  {
    var sorted := Sorted(js, kept, sorting);
    if sorting != [] {
      SortPermutes((a: Record, b: Record) => Before(js, sorting[0].0, sorting[0].1, a, b), kept);
      MembersOf(sorted, kept);
      if UniqueIds(kept) { PermutedIds(kept, sorted); }
    }
  }

  lemma PermutedIds(s: Table, t: Table)
    requires UniqueIds(s) && multiset(s) == multiset(t)
    ensures UniqueIds(t)
  {
    MembersOf(s, t);
    forall i, j | 0 <= i < j < |t| ensures t[i].id != t[j].id {
      assert t[i] in s && t[j] in s;
      OnlyOnce(s, t[i]);
      CountTwice(t, i, j);
    }
  }

  lemma CountTwice(t: Table, i: nat, j: nat)
    requires i < j < |t|
    ensures t[i] == t[j] ==> multiset(t)[t[i]] >= 2
  {
    assert t == t[..i] + [t[i]] + t[i + 1..j] + [t[j]] + t[j + 1..];
  }

  lemma {:induction false} OnlyOnce(s: Table, x: Record)
    requires UniqueIds(s)
    ensures multiset(s)[x] <= 1
  {
    if s != [] {
      var m := |s| - 1;
      assert s == s[..m] + [s[m]];
      OnlyOnce(s[..m], x);
      if x == s[m] { assert x !in s[..m]; }
    }
  }

  /** `if (x)` on a property read. */
  predicate Truthy(x: Option<Json>) {
    match x
    case None => false
    case Some(Str(text)) => text != ""
    case Some(Num(n)) => n != 0
    case Some(Bool(b)) => b
    case _ => true
  }

  ghost predicate HasId(table: Table, id: string) { exists k :: 0 <= k < |table| && table[k].id == id }

  /** A write to `table[id]`: in place, or at the end for a new id. */
  ghost predicate IsPut(table: Table, r: Record, t: Table) {
    if HasId(table, r.id) then exists k :: 0 <= k < |table| && table[k].id == r.id && t == table[k := r]
    else t == table + [r]
  }

  /** The rows that are not among `gone`. */
  ghost function Without(table: Table, gone: Table): Table {
    if table == [] then []
    else Without(table[..|table| - 1], gone) + (if table[|table| - 1] in gone then [] else [table[|table| - 1]])
  }

  lemma {:induction false} WithoutAbsent(table: Table, gone: Table)
    requires forall x :: x in table ==> x !in gone
    ensures Without(table, gone) == table
  {
    if table != [] {
      var front := table[..|table| - 1];
      assert table == front + [table[|table| - 1]];
      WithoutAbsent(front, gone);
    }
  }

  lemma {:induction false} WithoutMembers(table: Table, gone: Table, x: Record)
    ensures x in Without(table, gone) <==> x in table && x !in gone
  {
    if table != [] {
      var front := table[..|table| - 1];
      assert table == front + [table[|table| - 1]];
      WithoutMembers(front, gone, x);
    }
  }

  lemma {:induction false} WithoutOneMore(table: Table, gone: Table, x: Record)
    ensures Without(table, gone + [x]) == Without(Without(table, gone), [x])
  {
    if table != [] {
      var front, last := table[..|table| - 1], table[|table| - 1];
      WithoutOneMore(front, gone, x);
      var kept := Without(front, gone);
      assert last in gone + [x] <==> last in gone || last == x;
      assert kept + [] == kept && Without(kept, [x]) + [] == Without(kept, [x]);
      if last !in gone { assert (kept + [last])[..|kept|] == kept; }
    }
  }

  lemma {:induction false} WithoutAt(table: Table, x: Record, i: nat)
    requires UniqueIds(table) && i < |table| && table[i] == x
    ensures Without(table, [x]) == table[..i] + table[i + 1..]
  {
    var m := |table| - 1;
    var front := table[..m];
    if i == m {
      WithoutAbsent(front, [x]);
    } else {
      WithoutAt(front, x, i);
      assert front[..i] == table[..i] && front[i + 1..] + [table[m]] == table[i + 1..];
    }
  }

  /** Deleting one more row by its id. */
  lemma DeleteNext(table: Table, gone: Table, x: Record, left: Table)
    requires UniqueIds(table) && x in table && left == Without(table, gone) && UniqueIds(left)
    ensures !HasId(left, x.id) ==> left == Without(table, gone + [x])
    ensures forall i :: 0 <= i < |left| && left[i].id == x.id ==>
            left[..i] + left[i + 1..] == Without(table, gone + [x])
  {
    WithoutOneMore(table, gone, x);
    if !HasId(left, x.id) { WithoutAbsent(left, [x]); }
    forall i | 0 <= i < |left| && left[i].id == x.id ensures left[..i] + left[i + 1..] == Without(table, gone + [x]) {
      WithoutMembers(table, gone, left[i]);
      assert left[i] == x;
      WithoutAt(left, x, i);
    }
  }

  class InMemDataStore {
    var tenants: Tenants

    ghost predicate Valid()
      reads this
    {
      forall w, k :: TableOf(tenants, w, k).Some? ==> UniqueIds(TableOf(tenants, w, k).value)
    }

    constructor ()
      ensures Valid() && tenants == map[]
    {
      tenants := map[];
    }

    /** Looking a workspace up creates it. */
    method GetStoreForWorkspace(w: string) returns (store: map<string, Table>)
      modifies this
      ensures SameTables(tenants, old(tenants)) && w in tenants && store == tenants[w]
    {
      if w !in tenants { tenants := tenants[w := map[]]; }
      store := tenants[w];
    }

    method WriteTable(w: string, k: string, t: Table)
      requires w in tenants
      modifies this
      ensures TableOf(tenants, w, k) == Some(t) && SameElsewhere(tenants, old(tenants), w, k) && w in tenants
    {
      tenants := tenants[w := tenants[w][k := t]];
    }

    method FindEntity(js: Js, w: string, k: string, query: Query, sorting: Sorting) returns (r: Option<Table>)
      modifies this
      ensures SameTables(tenants, old(tenants))
      ensures r == FindResult(js, TableOf(old(tenants), w, k), query, sorting)
    {
      var store := GetStoreForWorkspace(w);
      assert TableOf(tenants, w, k) == TableOf(old(tenants), w, k);
      if k !in store { return Some([]); }
      var results := FilterTableUsingObjectComparison(js, store[k], query, ContentOf);
      if results.None? { return None; }
      return Some(Sorted(js, results.value, sorting));
    }

    method FindEntityPaginated(js: Js, w: string, k: string, query: Query, sorting: Sorting, page: int, pageSize: int)
      returns (r: Option<(Table, nat)>)
      modifies this
      ensures SameTables(tenants, old(tenants))
      ensures var found := FindResult(js, TableOf(old(tenants), w, k), query, sorting);
              r == if found.None? then None else Some((Page(found.value, page, pageSize), |found.value|))
    {
      var results := FindEntity(js, w, k, query, sorting);
      if results.None? { return None; }
      var startIndex := pageSize * page - pageSize;
      if startIndex < 0 { startIndex := 0; }
      return Some((Slice(results.value, startIndex, startIndex + pageSize), |results.value|));
    }

    /** Throws for an item that has an id; otherwise the record goes to the end of the table. */
    method CreateEntity(w: string, k: string, item: Json, uuid: string, now: nat) returns (r: Option<Record>)
      requires Valid() && (TableOf(tenants, w, k).Some? ==> !HasId(TableOf(tenants, w, k).value, uuid))
      modifies this
      ensures Valid() && SameElsewhere(tenants, old(tenants), w, k)
      ensures r == None <==> exists id :: Lookup(item, "id") == Some(id)
                                          && id != Str("") && id != Num(0) && id != Bool(false)
      ensures Truthy(Lookup(item, "id")) ==> r == None && TableOf(tenants, w, k) == TableOf(old(tenants), w, k)
      ensures !Truthy(Lookup(item, "id")) ==>
                var rows := if TableOf(old(tenants), w, k).Some? then TableOf(old(tenants), w, k).value else [];
                r == Some(Record(uuid, k, now, item)) && TableOf(tenants, w, k) == Some(rows + [r.value])
    {
      if Truthy(Lookup(item, "id")) { return None; }
      var store := GetStoreForWorkspace(w);
      assert TableOf(tenants, w, k) == TableOf(old(tenants), w, k);
      var rows: Table := [];
      if k in store { rows := store[k]; }
      var record := Record(uuid, k, now, item);
      WriteTable(w, k, rows + [record]);
      return Some(record);
    }

    /** Throws for a record without an id or a table that does not exist. */
    method SaveEntity(w: string, k: string, item: Record) returns (ok: bool)
      requires Valid()
      modifies this
      ensures Valid() && SameElsewhere(tenants, old(tenants), w, k)
      ensures ok <==> item.id != "" && TableOf(old(tenants), w, k).Some?
      ensures !ok ==> TableOf(tenants, w, k) == TableOf(old(tenants), w, k)
      ensures ok ==> TableOf(tenants, w, k).Some?
                     && IsPut(TableOf(old(tenants), w, k).value, item, TableOf(tenants, w, k).value)
      ensures ok ==> var before, after := TableOf(old(tenants), w, k).value, TableOf(tenants, w, k).value;
                     && item in after && (forall x: Record :: x.id != item.id ==> (x in after <==> x in before))
                     && |after| == |before| + if exists x :: x in before && x.id == item.id then 0 else 1
    {
      if item.id == "" { return false; }
      var store := GetStoreForWorkspace(w);
      assert TableOf(tenants, w, k) == TableOf(old(tenants), w, k);
      if k !in store { return false; }
      var rows := store[k];
      assert UniqueIds(rows);
      var i := 0;
      while i < |rows| && rows[i].id != item.id
        invariant i <= |rows| && forall j :: 0 <= j < i ==> rows[j].id != item.id
      {
        i := i + 1;
      }
      SavedRow(rows, i, item);
      WriteTable(w, k, if i < |rows| then rows[i := item] else rows + [item]);
      return true;
    }

    lemma SavedRow(rows: Table, i: nat, item: Record)
      requires i <= |rows| && UniqueIds(rows) && (i < |rows| ==> rows[i].id == item.id)
      ensures var after := if i < |rows| then rows[i := item] else rows + [item];
              && item in after && forall x: Record :: x.id != item.id ==> (x in after <==> x in rows)
    {
      var after := if i < |rows| then rows[i := item] else rows + [item];
      assert after[i] == item;
      forall x: Record | x.id != item.id ensures x in after <==> x in rows {
        if x in rows {
          var j :| 0 <= j < |rows| && rows[j] == x;
          assert after[j] == x;
        }
      }
    }

    method DeleteEntity(w: string, k: string, id: string)
      requires Valid()
      modifies this
      ensures Valid() && SameElsewhere(tenants, old(tenants), w, k)
      ensures TableOf(tenants, w, k).Some? <==> TableOf(old(tenants), w, k).Some?
      ensures TableOf(old(tenants), w, k).Some? ==>
                var rows := TableOf(old(tenants), w, k).value;
                var left := TableOf(tenants, w, k).value;
                (!HasId(rows, id) ==> left == rows)
                && (forall i :: 0 <= i < |rows| && rows[i].id == id ==> left == rows[..i] + rows[i + 1..])
    {
      var store := GetStoreForWorkspace(w);
      assert TableOf(tenants, w, k) == TableOf(old(tenants), w, k);
      if k !in store { return; }
      var rows := store[k];
      assert UniqueIds(rows);
      var i := 0;
      while i < |rows| && rows[i].id != id
        invariant i <= |rows| && forall j :: 0 <= j < i ==> rows[j].id != id
      {
        i := i + 1;
      }
      if i < |rows| { WriteTable(w, k, rows[..i] + rows[i + 1..]); }
    }

    /** Deletes exactly the rows that `findEntity` answers, and nothing if that throws. */
    method DeleteMany(js: Js, w: string, k: string, query: Query) returns (ok: bool)
      requires Valid()
      modifies this
      ensures Valid() && SameElsewhere(tenants, old(tenants), w, k)
      ensures var found := FindResult(js, TableOf(old(tenants), w, k), query, []);
              && ok == found.Some?
              && (TableOf(tenants, w, k).Some? <==> TableOf(old(tenants), w, k).Some?)
              && (TableOf(old(tenants), w, k).Some? ==>
                    TableOf(tenants, w, k).value ==
                    if ok then Without(TableOf(old(tenants), w, k).value, found.value)
                        else TableOf(old(tenants), w, k).value)
    {
      var results := FindEntity(js, w, k, query, []);
      assert TableOf(tenants, w, k) == TableOf(old(tenants), w, k);
      if results.None? { return false; }
      ghost var before := TableOf(tenants, w, k);
      if |results.value| == 0 {
        if before.Some? { WithoutAbsent(before.value, []); }
        return true;
      }
      forall x | x in results.value ensures x in before.value { KeptRows(js, before.value, query, ContentOf, x); }
      DeleteEach(w, k, results.value);
      return true;
    }

    method DeleteOne(w: string, k: string, x: Record, ghost before: Table, ghost gone: Table)
      requires Valid() && UniqueIds(before) && x in before && TableOf(tenants, w, k) == Some(Without(before, gone))
      modifies this
      ensures Valid() && SameElsewhere(tenants, old(tenants), w, k)
      ensures TableOf(tenants, w, k) == Some(Without(before, gone + [x]))
    {
      DeleteNext(before, gone, x, TableOf(tenants, w, k).value);
      DeleteEntity(w, k, x.id);
    }

    method DeleteEach(w: string, k: string, results: Table)
      requires Valid() && TableOf(tenants, w, k).Some? && forall x :: x in results ==> x in TableOf(tenants, w, k).value
      modifies this
      ensures Valid() && SameElsewhere(tenants, old(tenants), w, k)
      ensures TableOf(tenants, w, k) == Some(Without(TableOf(old(tenants), w, k).value, results))
    {
      ghost var before := TableOf(tenants, w, k).value;
      WithoutAbsent(before, []);
      var i := 0;
      while i < |results|
        invariant i <= |results| && Valid() && SameElsewhere(tenants, old(tenants), w, k)
        invariant TableOf(tenants, w, k) == Some(Without(before, results[..i]))
      {
        assert results[..i + 1] == results[..i] + [results[i]];
        DeleteOne(w, k, results[i], before, results[..i]);
        i := i + 1;
      }
      assert results[..i] == results;
    }
  }
}
