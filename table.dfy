/** The directory table of the dashboard (src/app/components/EmployeeTable.tsx):
    a search filter over every field of a row, a column sort over a copy of
    the rows, and the header-click rule that drives them. */
module Table {
  import opened Wrappers
  import opened Text

  /** One directory row as the table receives it; every field is text. */
  datatype Row = Row(
    id: string,
    key: string,
    firstName: string,
    middleName: string,
    lastName: string,
    department: string,
    isActive: string,
    value: string)

  /** The column names a row can be searched and sorted on (`keyof RowData`). */
  datatype Field = Id | Key | FirstName | MiddleName | LastName | Department | IsActive | Value

  function Cell(row: Row, f: Field): string
  {
    match f
    case Id => row.id
    case Key => row.key
    case FirstName => row.firstName
    case MiddleName => row.middleName
    case LastName => row.lastName
    case Department => row.department
    case IsActive => row.isActive
    case Value => row.value
  }

  /** The search text a query is matched with: lower-cased, then trimmed. */
  function Query(search: string): (q: string)
    ensures q == [] <==> forall i :: 0 <= i < |search| ==> IsSpace(search[i])
  {
    var lowered := Lower(search);
    assert forall i :: 0 <= i < |search| ==> (IsSpace(lowered[i]) <==> IsSpace(search[i]));
    TrimBlank(lowered);
    Trim(lowered)
  }

  /** The lower-cased text of field `f` of the row contains `q`. */
  predicate FieldMatches(row: Row, f: Field, q: string)
  {
    Includes(Lower(Cell(row, f)), q)
  }

  /** `keys(data[0]).some(...)`: the row is kept by query `q` when some field
      matches; every row has all the fields. */
  function Matches(row: Row, q: string): (b: bool)
    ensures b <==> exists f: Field :: FieldMatches(row, f, q)
  {
    FieldMatches(row, Id, q) || FieldMatches(row, Key, q)
    || FieldMatches(row, FirstName, q) || FieldMatches(row, MiddleName, q)
    || FieldMatches(row, LastName, q) || FieldMatches(row, Department, q)
    || FieldMatches(row, IsActive, q) || FieldMatches(row, Value, q)
  }

  /** `data.filter(...)` with an already prepared query. */
  function Filter(rows: seq<Row>, q: string): (r: seq<Row>)
    ensures |r| <= |rows|
  {
    if rows == [] then []
    else if Matches(rows[0], q) then [rows[0]] + Filter(rows[1..], q)
    else Filter(rows[1..], q)
  }

  /** The filter keeps every matching row as often as it occurs, and no other
      row. */
  lemma {:induction false} FilterCount(rows: seq<Row>, q: string, x: Row)
    ensures multiset(Filter(rows, q))[x] == if Matches(x, q) then multiset(rows)[x] else 0
  {
    if rows != [] {
      assert rows == [rows[0]] + rows[1..];
      FilterCount(rows[1..], q, x);
    }
  }

  /** `filterData(data, search)`. */
  function FilterData(data: seq<Row>, search: string): (r: seq<Row>)
    ensures |r| <= |data|
    ensures forall x :: x in r <==> x in data && Matches(x, Query(search))
  {
    var q := Query(search);
    assert forall x :: x in Filter(data, q) <==> x in data && Matches(x, q) by {
      forall x ensures x in Filter(data, q) <==> x in data && Matches(x, q) {
        FilterCount(data, q, x);
        assert x in Filter(data, q) <==> x in multiset(Filter(data, q));
      }
    }
    Filter(data, q)
  }

  /** `a` is `b` with some elements left out, the rest in their order. */
  ghost predicate IsSubsequence<T>(a: seq<T>, b: seq<T>)
    decreases |b|
  {
    a == [] || (b != [] && ((a[0] == b[0] && IsSubsequence(a[1..], b[1..])) || IsSubsequence(a, b[1..])))
  }

  /** The filter keeps the order of the rows it keeps. */
  lemma {:induction false} FilterIsSubsequence(rows: seq<Row>, q: string)
    ensures IsSubsequence(Filter(rows, q), rows)
  {
    if rows != [] {
      FilterIsSubsequence(rows[1..], q);
    }
  }

  /** A row is kept exactly when some field's lower-cased text contains the
      lower-cased, trimmed search text; nothing is kept twice or invented. */
  lemma FilterDataKeeps(data: seq<Row>, search: string, x: Row)
    ensures x in FilterData(data, search) <==>
      x in data && exists f: Field :: FieldMatches(x, f, Query(search))
    ensures multiset(FilterData(data, search))[x] <= multiset(data)[x]
    ensures |FilterData(data, search)| <= |data|
  {
    FilterCount(data, Query(search), x);
  }

  /** A query that trims to nothing keeps every row: the empty string occurs
      in every text. */
  lemma {:induction false} FilterEmptyQuery(rows: seq<Row>)
    ensures Filter(rows, "") == rows
  {
    if rows != [] {
      assert FieldMatches(rows[0], Id, "");
      FilterEmptyQuery(rows[1..]);
    }
  }

  /** An empty or white-space-only search keeps every row. */
  lemma BlankSearchKeepsAll(data: seq<Row>, search: string)
    requires forall i :: 0 <= i < |search| ==> IsSpace(search[i])
    ensures FilterData(data, search) == data
  {
    FilterEmptyQuery(data);
  }

  /** Filtering a second time with the same query changes nothing. */
  lemma {:induction false} FilterIdempotent(rows: seq<Row>, q: string)
    ensures Filter(Filter(rows, q), q) == Filter(rows, q)
  {
    if rows != [] {
      FilterIdempotent(rows[1..], q);
    }
  }

  lemma FilterDataIdempotent(data: seq<Row>, search: string)
    ensures FilterData(FilterData(data, search), search) == FilterData(data, search)
  {
    FilterIdempotent(data, Query(search));
  }

  /** The comparator of the sort: `a[f].localeCompare(b[f])`, or the operands
      swapped when the direction is reversed. `a` may precede `b` when it is
      not positive. */
  function Cmp(a: Row, b: Row, f: Field, reversed: bool): int
  {
    if reversed then Compare(Cell(b, f), Cell(a, f)) else Compare(Cell(a, f), Cell(b, f))
  }

  /** The reversed comparator is the ascending one negated, and both are zero
      exactly for rows with equal cells. */
  lemma CmpMirror(a: Row, b: Row, f: Field)
    ensures Cmp(a, b, f, true) == -Cmp(a, b, f, false)
    ensures Cmp(a, b, f, false) == 0 <==> Cell(a, f) == Cell(b, f)
  {
    CompareAntisymmetric(Cell(a, f), Cell(b, f));
  }

  /** Every row may precede every later row under the comparator. */
  ghost predicate Ordered(s: seq<Row>, f: Field, reversed: bool)
  {
    forall i, j :: 0 <= i < j < |s| ==> Cmp(s[i], s[j], f, reversed) <= 0
  }

  lemma CmpTransitive(a: Row, b: Row, c: Row, f: Field, reversed: bool)
    requires Cmp(a, b, f, reversed) <= 0 && Cmp(b, c, f, reversed) <= 0
    ensures Cmp(a, c, f, reversed) <= 0
  {
    if reversed {
      LessEqTransitive(Cell(c, f), Cell(b, f), Cell(a, f));
    } else {
      LessEqTransitive(Cell(a, f), Cell(b, f), Cell(c, f));
    }
  }

  /** One step of the stable insertion sort: `x` goes before the first row it
      may precede, so it stays ahead of rows that compare equal to it. */
  function Insert(x: Row, s: seq<Row>, f: Field, reversed: bool): (r: seq<Row>)
    ensures multiset(r) == multiset(s) + multiset{x}
  {
    if s == [] then [x]
    else if Cmp(x, s[0], f, reversed) <= 0 then [x] + s
    else
      assert s == [s[0]] + s[1..];
      [s[0]] + Insert(x, s[1..], f, reversed)
  }

  lemma {:induction false} InsertOrdered(x: Row, s: seq<Row>, f: Field, reversed: bool)
    requires Ordered(s, f, reversed)
    ensures Ordered(Insert(x, s, f, reversed), f, reversed)
  {
    if s == [] {
    } else if Cmp(x, s[0], f, reversed) <= 0 {
      forall j | 0 < j < |s| ensures Cmp(x, s[j], f, reversed) <= 0 {
        CmpTransitive(x, s[0], s[j], f, reversed);
      }
    } else {
      assert Ordered(s[1..], f, reversed);
      InsertOrdered(x, s[1..], f, reversed);
      var t := Insert(x, s[1..], f, reversed);
      assert Cmp(s[0], x, f, reversed) <= 0 by {
        CompareAntisymmetric(Cell(x, f), Cell(s[0], f));
      }
      forall j | 0 <= j < |t| ensures Cmp(s[0], t[j], f, reversed) <= 0 {
        assert t[j] in multiset(t);
        if t[j] != x {
          assert t[j] in multiset(s[1..]);
        }
      }
    }
  }

  /** `[...data].sort(comparator)` on a copy of the rows: a stable insertion
      sort. */
  function Sort(s: seq<Row>, f: Field, reversed: bool): (r: seq<Row>)
    ensures multiset(r) == multiset(s)
  {
    if s == [] then []
    else
      assert s == [s[0]] + s[1..];
      Insert(s[0], Sort(s[1..], f, reversed), f, reversed)
  }

  /** The sorted copy is a rearrangement in comparator order. */
  lemma {:induction false} SortOrdered(s: seq<Row>, f: Field, reversed: bool)
    ensures Ordered(Sort(s, f, reversed), f, reversed)
  {
    if s != [] {
      SortOrdered(s[1..], f, reversed);
      InsertOrdered(s[0], Sort(s[1..], f, reversed), f, reversed);
    }
  }

  /** Filtering keeps the order of what it keeps. */
  lemma {:induction false} FilterOrdered(s: seq<Row>, q: string, f: Field, reversed: bool)
    requires Ordered(s, f, reversed)
    ensures Ordered(Filter(s, q), f, reversed)
  {
    if s != [] {
      assert Ordered(s[1..], f, reversed);
      FilterOrdered(s[1..], q, f, reversed);
      var t := Filter(s[1..], q);
      if Matches(s[0], q) {
        forall j | 0 <= j < |t| ensures Cmp(s[0], t[j], f, reversed) <= 0 {
          assert t[j] in multiset(t);
          FilterCount(s[1..], q, t[j]);
          assert t[j] in multiset(s[1..]);
        }
      }
    }
  }

  /** Filtering rows that are a rearrangement of each other gives a
      rearrangement. */
  lemma FilterPermutation(a: seq<Row>, b: seq<Row>, q: string)
    requires multiset(a) == multiset(b)
    ensures multiset(Filter(a, q)) == multiset(Filter(b, q))
  {
    forall x ensures multiset(Filter(a, q))[x] == multiset(Filter(b, q))[x] {
      FilterCount(a, q, x);
      FilterCount(b, q, x);
    }
  }

  /** `sortData(data, { sortBy, reversed, search })`. With no column it is the
      filter alone; with a column it is the filtered rows, rearranged, in
      non-decreasing order of that column, or non-increasing when reversed. */
  function SortData(data: seq<Row>, sortBy: Option<Field>, reversed: bool, search: string): (r: seq<Row>)
    ensures sortBy == None ==> r == FilterData(data, search)
    ensures multiset(r) == multiset(FilterData(data, search))
    ensures sortBy.Some? && !reversed ==>
      forall i, j :: 0 <= i < j < |r| ==> LessEq(Cell(r[i], sortBy.value), Cell(r[j], sortBy.value))
    ensures sortBy.Some? && reversed ==>
      forall i, j :: 0 <= i < j < |r| ==> LessEq(Cell(r[j], sortBy.value), Cell(r[i], sortBy.value))
  {
    match sortBy
    case None => FilterData(data, search)
    case Some(f) =>
      var sorted := Sort(data, f, reversed);
      SortOrdered(data, f, reversed);
      FilterOrdered(sorted, Query(search), f, reversed);
      FilterPermutation(sorted, data, Query(search));
      FilterData(sorted, search)
  }

  /** The sort column and direction. */
  datatype SortState = SortState(sortBy: Option<Field>, reversed: bool)

  /** The header-click rule: the clicked column becomes the sort column; the
      direction flips when it already was, and is ascending otherwise. */
  function Click(st: SortState, field: Field): (next: SortState)
    ensures next.sortBy == Some(field)
    ensures st.sortBy == Some(field) ==> next.reversed != st.reversed
    ensures st.sortBy != Some(field) ==> !next.reversed
  {
    SortState(Some(field), if st.sortBy == Some(field) then !st.reversed else false)
  }

  /** Clicking the same column twice restores the direction it had. */
  lemma ClickTwice(st: SortState, field: Field)
    requires st.sortBy == Some(field)
    ensures Click(Click(st, field), field) == st
  {
  }

  /** The first click on a column, from any state, sorts it ascending, and the
      second sorts it descending. */
  lemma ClickNewColumn(st: SortState, field: Field)
    requires st.sortBy != Some(field)
    ensures Click(st, field) == SortState(Some(field), false)
    ensures Click(Click(st, field), field) == SortState(Some(field), true)
  {
  }

  /** The component's state. `data` is the prop; the other fields are its
      `useState` slots. */
  class EmployeeTable {
    const data: seq<Row>
    const search: string
    var sortedData: seq<Row>
    var sortBy: Option<Field>
    var reverseSortDirection: bool

    /** The displayed rows are always the projection of the prop under the
        current sort state. */
    ghost predicate Valid()
      reads this
    {
      search == "" && sortedData == SortData(data, sortBy, reverseSortDirection, search)
    }

    /** The first render: no search, no sort column, ascending, every row. */
    constructor (data: seq<Row>)
      ensures this.data == data && search == "" && sortedData == data
      ensures sortBy == None && !reverseSortDirection
      ensures Valid()
    {
      this.data := data;
      search := "";
      sortedData := data;
      sortBy := None;
      reverseSortDirection := false;
      new;
      FilterEmptyQuery(data);
    }

    /** `setSorting(field)`: apply the header-click rule and recompute the
        displayed rows from the prop, not from the previous view. */
    method SetSorting(field: Field)
      requires Valid()
      modifies this
      ensures Valid()
      ensures SortState(sortBy, reverseSortDirection)
        == Click(SortState(old(sortBy), old(reverseSortDirection)), field)
      ensures sortedData == SortData(data, Some(field), reverseSortDirection, search)
    {
      var reversed := if Some(field) == sortBy then !reverseSortDirection else false;
      var view := SortData(data, Some(field), reversed, search);
      reverseSortDirection := reversed;
      sortBy := Some(field);
      sortedData := view;
    }
  }

  /** Whatever the clicks, the table shows every row of the prop, rearranged. */
  lemma ViewIsPermutation(t: EmployeeTable)
    requires t.Valid()
    ensures multiset(t.sortedData) == multiset(t.data)
  {
    FilterEmptyQuery(t.data);
  }
}
