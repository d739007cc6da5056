/** `ApplyFiltersAndSort` and `FindColumn`: a grid request turned into the global-search `Where`,
    one `Where` per searched column, and one multi-key `OrderBy`, applied to a queryable that is
    modelled as the trace of operations applied to it. */
module QueryComposer {
  import opened Wrappers
  import opened Strings
  import opened TypeClassifier
  import opened FilterRules
  import opened ClauseBuilder

  /** A DataTablesParam, with C#'s null strings read as "":
      search = sSearch, columnCount = iColumns, searchable = bSearchable,
      searchValues = sSearchValues, columnNames = sColumnNames,
      sortingCols = iSortingCols, sortCols = iSortCol, sortDirs = sSortDir. */
  datatype Request = Request(
    search: string,
    columnCount: int,
    searchable: seq<bool>,
    searchValues: seq<string>,
    columnNames: seq<string>,
    sortingCols: int,
    sortCols: seq<int>,
    sortDirs: seq<string>)

  /** A dynamic-LINQ operation applied to the queryable. */
  datatype QueryOp =
    | Where(condition: string, args: seq<Param>)
    | OrderBy(ordering: string)

  /** The exceptions that escape `ApplyFiltersAndSort`: an index past the end of a request list or
      of the column array, and `First` finding no column with the requested name. */
  datatype Fault = IndexOutOfRange | NoMatchingColumn

  /** The number of iterations of `for (i = 0; i < n; i++)`. */
  function Iterations(n: int): nat
  {
    if n < 0 then 0 else n
  }

  /** `columns.First(x => x.PropertyInfo.Name == name)`, as an index. */
  function FirstNamed(columns: seq<Column>, name: string): (r: Option<nat>)
    ensures r.Some? ==> r.value < |columns| && columns[r.value].name == name
    ensures r.Some? ==> forall j :: 0 <= j < r.value ==> columns[j].name != name
    ensures r.None? ==> forall j :: 0 <= j < |columns| ==> columns[j].name != name
  {
    if columns == [] then None
    else if columns[0].name == name then Some(0)
    else
      match FirstNamed(columns[1..], name)
      case None => None
      case Some(j) => Some(j + 1)
  }

  /** `FindColumn`: by position when the request names no columns, otherwise the first column
      whose name is the `i`th requested name. The requested name is read inside the `First`
      predicate, so over an empty column array it is never read and `First` finds no match. */
  function FindColumn(p: Request, columns: seq<Column>, i: int): (r: Result<Column, Fault>)
    ensures r.Success? ==> r.value in columns
  {
    if p.columnNames != [] then
      if columns == [] then Failure(NoMatchingColumn)
      else if 0 <= i < |p.columnNames| then
        match FirstNamed(columns, p.columnNames[i])
        case Some(j) => Success(columns[j])
        case None => Failure(NoMatchingColumn)
      else Failure(IndexOutOfRange)
    else if 0 <= i < |columns| then Success(columns[i])
    else Failure(IndexOutOfRange)
  }

  /** What `FindColumn` finds: with no requested names, the column at position `i`; otherwise the
      first column bearing the `i`th requested name. With requested names, the fault is a failed
      match when there are no columns or `i` is a valid name index, and an index fault when `i` is
      past the end of the names and a column exists to test it on. */
  lemma FindColumnCases(p: Request, columns: seq<Column>, i: int)
    ensures var r := FindColumn(p, columns, i);
            && (p.columnNames == [] ==> (r.Success? <==> 0 <= i < |columns|))
            && (p.columnNames == [] && r.Success? ==> r.value == columns[i])
            && (p.columnNames != [] && 0 <= i < |p.columnNames| ==>
                  (r.Success? <==> exists j :: 0 <= j < |columns| && columns[j].name == p.columnNames[i]))
            && (p.columnNames != [] && r.Success? ==>
                  0 <= i < |p.columnNames| && r.value.name == p.columnNames[i] &&
                  exists j :: 0 <= j < |columns| && columns[j] == r.value &&
                              forall k :: 0 <= k < j ==> columns[k].name != p.columnNames[i])
            && (r.Failure? ==>
                  r.error == if p.columnNames != [] && (columns == [] || 0 <= i < |p.columnNames|)
                             then NoMatchingColumn else IndexOutOfRange)
  {
  }

  /** Over an empty column array a named lookup fails to match, whatever the index: the requested
      name is never read. */
  lemma FindColumnNoColumns(p: Request, i: int)
    requires p.columnNames != []
    ensures FindColumn(p, [], i) == Failure(NoMatchingColumn)
  {
  }

  /** A named search on a request whose column array is empty escapes as a failed match: the
      second column's term "a" is searched, and `First` over no columns finds nothing. */
  lemma NamedSearchWithoutColumns(filters: seq<Filter>, p: Request, data: seq<QueryOp>)
    requires p == Request("", 0, [true, true], ["", "a"], ["x"], 0, [], [])
    ensures Apply(filters, p, data, []) == Failure(NoMatchingColumn)
  {
    assert IsNullOrWhiteSpace(p.searchValues[0]);
    assert !IsWhiteSpace(p.searchValues[1][0]);
    assert ColumnSearch(filters, p, [], 0) == Success(None);
    assert ColumnSearch(filters, p, [], 1) == Failure(NoMatchingColumn);
    assert ColumnSearches(filters, p, [], 0) == Success([]);
    var none: seq<QueryOp> := [];
    assert none + [] == none;
    assert ColumnSearches(filters, p, [], 1) == Success(none);
    assert ColumnSearches(filters, p, [], 2) == Failure(NoMatchingColumn);
  }

  /** The `parts` list (nulls included) and the shared `parameters` list of the global search. */
  datatype Scan = Scan(parts: seq<Option<string>>, params: seq<Param>)

  /** The global-search loop after its first `n` iterations. A column index past the end of
      `columns` throws inside the `try` and is skipped; `bSearchable[i]` is read outside it. */
  function GlobalScan(filters: seq<Filter>, p: Request, columns: seq<Column>, n: nat): (r: Result<Scan, Fault>)
    ensures r.Success? ==> |r.value.parts| <= n && |r.value.parts| <= |columns|
  {
    if n == 0 then Success(Scan([], []))
    else
      var s :- GlobalScan(filters, p, columns, n - 1);
      var i := n - 1;
      if i >= |p.searchable| then Failure(IndexOutOfRange)
      else if !p.searchable[i] || i >= |columns| then Success(s)
      else
        var c := GetFilterClause(filters, p.search, columns[i], s.params);
        Success(Scan(s.parts + [c.text], c.params))
  }

  /** The global search: when the term is non-empty, one `Where` joining the non-null column
      clauses with " or ", bound to the parameters all of them appended. */
  function GlobalSearch(filters: seq<Filter>, p: Request, columns: seq<Column>): (r: Result<Option<QueryOp>, Fault>)
    ensures r.Success? ==> (r.value.Some? <==> p.search != "")
    ensures r.Success? && r.value.Some? ==> r.value.value.Where?
  {
    if p.search == "" then Success(None)
    else
      var s :- GlobalScan(filters, p, columns, Iterations(p.columnCount));
      Success(Some(Where(Join(" or ", Somes(s.parts)), s.params)))
  }

  /** The per-column search of column `i`, whose clause's parameters start from an empty list. */
  function ColumnSearch(filters: seq<Filter>, p: Request, columns: seq<Column>, i: nat): (r: Result<Option<QueryOp>, Fault>)
    requires i < |p.searchValues|
    ensures r.Success? && r.value.Some? ==> r.value.value.Where?
  {
    if i >= |p.searchable| then Failure(IndexOutOfRange)
    else if !p.searchable[i] || IsNullOrWhiteSpace(p.searchValues[i]) then Success(None)
    else
      var col :- FindColumn(p, columns, i);
      var c := GetFilterClause(filters, p.searchValues[i], col, []);
      if c.text.Some? && !IsNullOrWhiteSpace(c.text.value) then Success(Some(Where(c.text.value, c.params)))
      else Success(None)
  }

  /** Column `i` faults exactly when reading `bSearchable[i]` runs past its end, or the column is
      searched and not found; it applies a `Where` exactly when it is searchable, its term is not
      blank, its column is found and its clause is not null, and that `Where` is the clause with
      the parameters it bound. */
  lemma ColumnSearchCases(filters: seq<Filter>, p: Request, columns: seq<Column>, i: nat)
    requires i < |p.searchValues|
    ensures var r := ColumnSearch(filters, p, columns, i);
            && (r.Failure? <==>
                  i >= |p.searchable| ||
                  (p.searchable[i] && !IsNullOrWhiteSpace(p.searchValues[i]) && FindColumn(p, columns, i).Failure?))
            && ((r.Success? && r.value.Some?) <==>
                  && i < |p.searchable| && p.searchable[i]
                  && !IsNullOrWhiteSpace(p.searchValues[i])
                  && FindColumn(p, columns, i).Success?
                  && GetFilterClause(filters, p.searchValues[i], FindColumn(p, columns, i).value, []).text.Some?)
            && (r.Success? && r.value.Some? ==>
                  var c := GetFilterClause(filters, p.searchValues[i], FindColumn(p, columns, i).value, []);
                  r.value.value == Where(c.text.value, c.params))
  {
  }

  /** The per-column loop after its first `n` iterations: the `Where`s applied so far. */
  function ColumnSearches(filters: seq<Filter>, p: Request, columns: seq<Column>, n: nat): Result<seq<QueryOp>, Fault>
    requires n <= |p.searchValues|
  {
    if n == 0 then Success([])
    else
      var ops :- ColumnSearches(filters, p, columns, n - 1);
      var op :- ColumnSearch(filters, p, columns, n - 1);
      Success(ops + if op.Some? then [op.value] else [])
  }

  /** The `"name dir"` entry of the `i`th sort directive. */
  function SortEntry(p: Request, columns: seq<Column>, i: nat): (r: Result<string, Fault>)
    ensures r.Success? ==> i < |p.sortCols| && i < |p.sortDirs|
    ensures columns == [] ==> r.Failure?
  {
    if i >= |p.sortCols| then Failure(IndexOutOfRange)
    else
      var col :- FindColumn(p, columns, p.sortCols[i]);
      if i >= |p.sortDirs| then Failure(IndexOutOfRange)
      else Success(col.name + " " + p.sortDirs[i])
  }

  /** The sort loop after its first `n` iterations: `sortString`. */
  function SortScan(p: Request, columns: seq<Column>, n: nat): (r: Result<string, Fault>)
    ensures r.Success? && n > 0 ==> n <= |p.sortCols| && n <= |p.sortDirs|
    ensures columns == [] && n > 0 ==> r.Failure?
  {
    if n == 0 then Success("")
    else
      var s :- SortScan(p, columns, n - 1);
      var entry :- SortEntry(p, columns, n - 1);
      Success((if n - 1 != 0 then s + ", " else s) + entry)
  }

  /** The ordering passed to `OrderBy`: the directives' entries, or the first column's name when
      they add up to a blank string. */
  function SortExpression(p: Request, columns: seq<Column>): (r: Result<string, Fault>)
    ensures r.Success? ==> !IsNullOrWhiteSpace(r.value) || (|columns| > 0 && r.value == columns[0].name)
    ensures columns == [] ==> r.Failure?
  {
    var s :- SortScan(p, columns, Iterations(p.sortingCols));
    if IsNullOrWhiteSpace(s) then
      if |columns| == 0 then Failure(IndexOutOfRange) else Success(columns[0].name)
    else Success(s)
  }

  /** The whole request: the input trace, then the global `Where` (if any), the per-column
      `Where`s in column order, and a single `OrderBy`. */
  function Apply(filters: seq<Filter>, p: Request, data: seq<QueryOp>, columns: seq<Column>): (r: Result<seq<QueryOp>, Fault>)
    ensures r.Success? ==> data < r.value && r.value[|r.value| - 1].OrderBy?
    ensures columns == [] ==> r.Failure?
  {
    var global :- GlobalSearch(filters, p, columns);
    var perColumn :- ColumnSearches(filters, p, columns, |p.searchValues|);
    var sort :- SortExpression(p, columns);
    Success(data + (if global.Some? then [global.value] else []) + perColumn + [OrderBy(sort)])
  }

  /** `ApplyFiltersAndSort`, with `filters` the registry's current list and `data` the operations
      already applied to the queryable: the global search, the per-column searches and the sort,
      in that order, the first fault ending the request. */
  method ApplyFiltersAndSort(filters: seq<Filter>, p: Request, data: seq<QueryOp>, columns: seq<Column>)
    returns (r: Result<seq<QueryOp>, Fault>)
    ensures r == Apply(filters, p, data, columns)
  {
    var query := data;
    var global := ApplyGlobalSearch(filters, p, columns);
    if global.Failure? {
      return Failure(global.error);
    }
    if global.value.Some? {
      query := query + [global.value.value];
    }
    var perColumn := ApplyColumnSearches(filters, p, columns);
    if perColumn.Failure? {
      return Failure(perColumn.error);
    }
    query := query + perColumn.value;
    var sortString := BuildSortString(p, columns);
    if sortString.Failure? {
      return Failure(sortString.error);
    }
    query := query + [OrderBy(sortString.value)];
    assert query == data + (if global.value.Some? then [global.value.value] else []) + perColumn.value + [OrderBy(sortString.value)];
    r := Success(query);
  }

  /** The global-search block: the `parts` and `parameters` loop over the columns, then one
      `Where` joining the non-null parts with " or ". */
  method ApplyGlobalSearch(filters: seq<Filter>, p: Request, columns: seq<Column>)
    returns (r: Result<Option<QueryOp>, Fault>)
    ensures r == GlobalSearch(filters, p, columns)
  {
    if p.search == "" {
      return Success(None);
    }
    var parts: seq<Option<string>> := [];
    var parameters: seq<Param> := [];
    var i := 0;
    while i < p.columnCount
      invariant 0 <= i <= Iterations(p.columnCount)
      invariant GlobalScan(filters, p, columns, i) == Success(Scan(parts, parameters))
    {
      if i >= |p.searchable| {
        GlobalScanFails(filters, p, columns, Iterations(p.columnCount));
        return Failure(IndexOutOfRange);
      }
      // An index past the end of `columns` throws inside the try and the column is skipped.
      if p.searchable[i] && i < |columns| {
        var clause := GetFilterClause(filters, p.search, columns[i], parameters);
        parts := parts + [clause.text];
        parameters := clause.params;
      }
      i := i + 1;
    }
    r := Success(Some(Where(Join(" or ", Somes(parts)), parameters)));
  }

  /** The per-column loop: the `Where`s it applies, in column order. */
  method ApplyColumnSearches(filters: seq<Filter>, p: Request, columns: seq<Column>)
    returns (r: Result<seq<QueryOp>, Fault>)
    ensures r == ColumnSearches(filters, p, columns, |p.searchValues|)
  {
    var applied: seq<QueryOp> := [];
    var i := 0;
    while i < |p.searchValues|
      invariant 0 <= i <= |p.searchValues|
      invariant ColumnSearches(filters, p, columns, i) == Success(applied)
    {
      var op := SearchColumn(filters, p, columns, i);
      if op.Failure? {
        ColumnSearchesSticky(filters, p, columns, i + 1, |p.searchValues|);
        return Failure(op.error);
      }
      ColumnSearchesAppend(filters, p, columns, i, applied, op.value);
      if op.value.Some? {
        applied := applied + [op.value.value];
      }
      i := i + 1;
    }
    r := Success(applied);
  }

  /** A successful iteration of the per-column loop appends the column's `Where`, if any. */
  lemma ColumnSearchesAppend(filters: seq<Filter>, p: Request, columns: seq<Column>, i: nat, applied: seq<QueryOp>, o: Option<QueryOp>)
    requires i < |p.searchValues|
    requires ColumnSearches(filters, p, columns, i) == Success(applied)
    requires ColumnSearch(filters, p, columns, i) == Success(o)
    ensures o.Some? ==> ColumnSearches(filters, p, columns, i + 1) == Success(applied + [o.value])
    ensures o.None? ==> ColumnSearches(filters, p, columns, i + 1) == Success(applied)
  {
    ColumnSearchesStep(filters, p, columns, i + 1);
    SomesSingle(o);
    assert applied + [] == applied;
  }

  /** One iteration of the per-column loop: read `bSearchable[i]`, and for a searchable column
      with a non-blank term find the column and build its clause on a fresh parameter list. */
  method SearchColumn(filters: seq<Filter>, p: Request, columns: seq<Column>, i: nat)
    returns (r: Result<Option<QueryOp>, Fault>)
    requires i < |p.searchValues|
    ensures r == ColumnSearch(filters, p, columns, i)
  {
    if i >= |p.searchable| {
      return Failure(IndexOutOfRange);
    }
    if p.searchable[i] {
      var searchColumn := p.searchValues[i];
      if !IsNullOrWhiteSpace(searchColumn) {
        var column := FindColumn(p, columns, i);
        if column.Failure? {
          return Failure(column.error);
        }
        var filterClause := GetFilterClause(filters, searchColumn, column.value, []);
        if filterClause.text.Some? && !IsNullOrWhiteSpace(filterClause.text.value) {
          return Success(Some(Where(filterClause.text.value, filterClause.params)));
        }
      }
    }
    return Success(None);
  }


  /** The sort loop building `sortString` with `+=`, then the first-column default. */
  method BuildSortString(p: Request, columns: seq<Column>) returns (r: Result<string, Fault>)
    ensures r == SortExpression(p, columns)
  {
    var sortString := "";
    var i := 0;
    while i < p.sortingCols
      invariant 0 <= i <= Iterations(p.sortingCols)
      invariant SortScan(p, columns, i) == Success(sortString)
    {
      if i >= |p.sortCols| {
        SortScanSticky(p, columns, i + 1, Iterations(p.sortingCols));
        return Failure(IndexOutOfRange);
      }
      var columnNumber := p.sortCols[i];
      var column := FindColumn(p, columns, columnNumber);
      if column.Failure? {
        SortScanSticky(p, columns, i + 1, Iterations(p.sortingCols));
        return Failure(column.error);
      }
      var columnName := column.value.name;
      if i >= |p.sortDirs| {
        SortScanSticky(p, columns, i + 1, Iterations(p.sortingCols));
        return Failure(IndexOutOfRange);
      }
      var sortDir := p.sortDirs[i];
      assert SortEntry(p, columns, i) == Success(columnName + " " + sortDir);
      ghost var before := sortString;
      if i != 0 {
        sortString := sortString + ", ";
      }
      sortString := sortString + columnName + " " + sortDir;
      assert sortString == (if i != 0 then before + ", " else before) + (columnName + " " + sortDir);
      i := i + 1;
    }
    if IsNullOrWhiteSpace(sortString) {
      if |columns| == 0 {
        return Failure(IndexOutOfRange);
      }
      sortString := columns[0].name;
    }
    r := Success(sortString);
  }

  /** Only reading `bSearchable` past its end can make the global search fail; every other fault
      in it is caught. */
  lemma {:induction false} GlobalScanFails(filters: seq<Filter>, p: Request, columns: seq<Column>, n: nat)
    ensures GlobalScan(filters, p, columns, n).Failure? <==> n > |p.searchable|
    ensures GlobalScan(filters, p, columns, n).Failure? ==> GlobalScan(filters, p, columns, n).error == IndexOutOfRange
  {
    if n > 0 {
      GlobalScanFails(filters, p, columns, n - 1);
    }
  }

  /** What the `i`th iteration of the global loop adds to `parts`: the clause of column `i`, built
      on the parameters the earlier iterations bound, when the column is searchable and in range;
      nothing otherwise (a skipped column and a null clause both leave no non-null part). */
  function GlobalPart(filters: seq<Filter>, p: Request, columns: seq<Column>, i: nat): Option<string>
    requires i < |p.searchable|
  {
    if p.searchable[i] && i < |columns| then
      match GlobalScan(filters, p, columns, i)
      case Success(s) => GetFilterClause(filters, p.search, columns[i], s.params).text
      case Failure(_) => None
    else None
  }

  /** Every iteration's part, in column order. */
  function GlobalParts(filters: seq<Filter>, p: Request, columns: seq<Column>, n: nat): seq<Option<string>>
    requires n <= |p.searchable|
  {
    seq(n, i requires 0 <= i < n => GlobalPart(filters, p, columns, i))
  }

  /** The non-null parts the global loop collects are exactly the columns' own clauses, in column
      order: none is lost, duplicated or reordered. */
  lemma {:induction false} GlobalScanInOrder(filters: seq<Filter>, p: Request, columns: seq<Column>, n: nat)
    requires n <= |p.searchable|
    ensures GlobalScan(filters, p, columns, n).Success?
    ensures Somes(GlobalScan(filters, p, columns, n).value.parts) == Somes(GlobalParts(filters, p, columns, n))
  {
    if n == 0 {
      assert GlobalParts(filters, p, columns, 0) == [];
    } else {
      GlobalScanInOrder(filters, p, columns, n - 1);
      GlobalScanPartStep(filters, p, columns, n);
      GlobalPartsSnoc(filters, p, columns, n);
      SomesAppend(GlobalParts(filters, p, columns, n - 1), [GlobalPart(filters, p, columns, n - 1)]);
    }
  }

  lemma GlobalPartsSnoc(filters: seq<Filter>, p: Request, columns: seq<Column>, n: nat)
    requires 0 < n <= |p.searchable|
    ensures GlobalParts(filters, p, columns, n) ==
            GlobalParts(filters, p, columns, n - 1) + [GlobalPart(filters, p, columns, n - 1)]
  {
  }

  /** One iteration of the global loop adds exactly that iteration's part. */
  lemma GlobalScanPartStep(filters: seq<Filter>, p: Request, columns: seq<Column>, n: nat)
    requires 0 < n <= |p.searchable| && GlobalScan(filters, p, columns, n - 1).Success?
    ensures GlobalScan(filters, p, columns, n).Success?
    ensures Somes(GlobalScan(filters, p, columns, n).value.parts) ==
            Somes(GlobalScan(filters, p, columns, n - 1).value.parts) + Somes([GlobalPart(filters, p, columns, n - 1)])
  {
    var s := GlobalScan(filters, p, columns, n - 1).value;
    if p.searchable[n - 1] && n - 1 < |columns| {
      var c := GetFilterClause(filters, p.search, columns[n - 1], s.params);
      GlobalScanAdds(filters, p, columns, n);
      assert GlobalPart(filters, p, columns, n - 1) == c.text;
      SomesAppend(s.parts, [c.text]);
    } else {
      GlobalScanSkips(filters, p, columns, n);
      assert GlobalPart(filters, p, columns, n - 1) == None;
      SomesSingle<string>(None);
    }
  }

  /** The global loop shares one parameter list: later iterations only append to it. */
  lemma {:induction false} GlobalScanParamsGrow(filters: seq<Filter>, p: Request, columns: seq<Column>, m: nat, n: nat)
    requires m <= n <= |p.searchable|
    ensures GlobalScan(filters, p, columns, m).Success? && GlobalScan(filters, p, columns, n).Success?
    ensures GlobalScan(filters, p, columns, m).value.params <= GlobalScan(filters, p, columns, n).value.params
    decreases n
  {
    GlobalScanFails(filters, p, columns, m);
    GlobalScanFails(filters, p, columns, n);
    if m < n {
      GlobalScanParamsGrow(filters, p, columns, m, n - 1);
      if p.searchable[n - 1] && n - 1 < |columns| {
        GlobalScanAdds(filters, p, columns, n);
      } else {
        GlobalScanSkips(filters, p, columns, n);
      }
    }
  }

  /** For a non-empty global term, the global `Where` joins the searched columns' non-null
      clauses with " or ", in column order, and binds the parameters the loop left. */
  lemma GlobalSearchJoinsColumnClauses(filters: seq<Filter>, p: Request, columns: seq<Column>)
    requires p.search != "" && p.columnCount <= |p.searchable|
    ensures GlobalScan(filters, p, columns, Iterations(p.columnCount)).Success?
    ensures var n := Iterations(p.columnCount);
            GlobalSearch(filters, p, columns) ==
              Success(Some(Where(Join(" or ", Somes(GlobalParts(filters, p, columns, n))),
                                 GlobalScan(filters, p, columns, n).value.params)))
  {
    GlobalScanInOrder(filters, p, columns, Iterations(p.columnCount));
  }

  /** Once the per-column loop has failed, later iterations keep that failure. */
  lemma {:induction false} ColumnSearchesSticky(filters: seq<Filter>, p: Request, columns: seq<Column>, m: nat, n: nat)
    requires m <= n <= |p.searchValues|
    requires ColumnSearches(filters, p, columns, m).Failure?
    ensures ColumnSearches(filters, p, columns, n) == ColumnSearches(filters, p, columns, m)
    decreases n
  {
    if m < n {
      ColumnSearchesSticky(filters, p, columns, m, n - 1);
    }
  }

  /** Once the sort loop has failed, later iterations keep that failure. */
  lemma {:induction false} SortScanSticky(p: Request, columns: seq<Column>, m: nat, n: nat)
    requires m <= n
    requires SortScan(p, columns, m).Failure?
    ensures SortScan(p, columns, n) == SortScan(p, columns, m)
    decreases n
  {
    if m < n {
      SortScanSticky(p, columns, m, n - 1);
    }
  }

  /** The `Where` a per-column search contributes, if any. */
  function Contribution(r: Result<Option<QueryOp>, Fault>): Option<QueryOp>
  {
    match r
    case Success(o) => o
    case Failure(_) => None
  }

  /** What each of the first `n` per-column searches contributes, in column order. */
  function Contributions(filters: seq<Filter>, p: Request, columns: seq<Column>, n: nat): (cs: seq<Option<QueryOp>>)
    requires n <= |p.searchValues|
  {
    seq(n, i requires 0 <= i < n => Contribution(ColumnSearch(filters, p, columns, i)))
  }

  /** The per-column loop succeeds exactly when every column's search does. */
  lemma {:induction false} ColumnSearchesSucceed(filters: seq<Filter>, p: Request, columns: seq<Column>, n: nat)
    requires n <= |p.searchValues|
    ensures ColumnSearches(filters, p, columns, n).Success? <==>
              forall i :: 0 <= i < n ==> ColumnSearch(filters, p, columns, i).Success?
  {
    if n > 0 {
      ColumnSearchesStep(filters, p, columns, n);
      ColumnSearchesSucceed(filters, p, columns, n - 1);
      var last := ColumnSearch(filters, p, columns, n - 1);
      if ColumnSearches(filters, p, columns, n - 1).Failure? {
        var k :| 0 <= k < n - 1 && ColumnSearch(filters, p, columns, k).Failure?;
        assert ColumnSearches(filters, p, columns, n).Failure?;
      } else if last.Failure? {
        assert ColumnSearches(filters, p, columns, n).Failure?;
      } else {
        assert ColumnSearches(filters, p, columns, n).Success?;
      }
    }
  }

  /** The per-column loop applies one `Where` for each column whose search yields one, in
      increasing column order, and nothing else. */
  lemma {:induction false} ColumnSearchesInOrder(filters: seq<Filter>, p: Request, columns: seq<Column>, n: nat)
    requires n <= |p.searchValues|
    requires ColumnSearches(filters, p, columns, n).Success?
    ensures ColumnSearches(filters, p, columns, n).value == Somes(Contributions(filters, p, columns, n))
  {
    if n > 0 {
      ColumnSearchesStep(filters, p, columns, n);
      var last := ColumnSearch(filters, p, columns, n - 1);
      ColumnSearchesInOrder(filters, p, columns, n - 1);
      ContributionsSnoc(filters, p, columns, n);
      SomesAppend(Contributions(filters, p, columns, n - 1), [Contribution(last)]);
      SomesSingle(Contribution(last));
    }
  }

  /** One iteration of the per-column loop: it fails with the first fault, else appends the
      column's `Where` if there is one. */
  lemma ColumnSearchesStep(filters: seq<Filter>, p: Request, columns: seq<Column>, n: nat)
    requires 0 < n <= |p.searchValues|
    ensures var prev := ColumnSearches(filters, p, columns, n - 1);
            var last := ColumnSearch(filters, p, columns, n - 1);
            ColumnSearches(filters, p, columns, n) ==
              if prev.Failure? then prev
              else if last.Failure? then Failure(last.error)
              else Success(prev.value + Somes([Contribution(last)]))
  {
    SomesSingle(Contribution(ColumnSearch(filters, p, columns, n - 1)));
  }

  lemma ContributionsSnoc(filters: seq<Filter>, p: Request, columns: seq<Column>, n: nat)
    requires 0 < n <= |p.searchValues|
    ensures Contributions(filters, p, columns, n) ==
            Contributions(filters, p, columns, n - 1) + [Contribution(ColumnSearch(filters, p, columns, n - 1))]
  {
  }

  /** A failing per-column loop fails with the fault of the first column whose search faults. */
  lemma {:induction false} ColumnSearchesFirstFault(filters: seq<Filter>, p: Request, columns: seq<Column>, n: nat)
    requires n <= |p.searchValues|
    requires ColumnSearches(filters, p, columns, n).Failure?
    ensures exists k :: 0 <= k < n && ColumnSearch(filters, p, columns, k).Failure? &&
                        ColumnSearches(filters, p, columns, n).error == ColumnSearch(filters, p, columns, k).error &&
                        forall i :: 0 <= i < k ==> ColumnSearch(filters, p, columns, i).Success?
  {
    if ColumnSearches(filters, p, columns, n - 1).Failure? {
      ColumnSearchesFirstFault(filters, p, columns, n - 1);
    } else {
      ColumnSearchesSucceed(filters, p, columns, n - 1);
      assert ColumnSearch(filters, p, columns, n - 1).Failure?;
    }
  }

  function EntryText(r: Result<string, Fault>): string
  {
    match r
    case Success(e) => e
    case Failure(_) => ""
  }

  /** The `"name dir"` entries of the first `n` directives ("" for one that faults). */
  function SortEntries(p: Request, columns: seq<Column>, n: nat): (es: seq<string>)
  {
    seq(n, i requires 0 <= i < n => EntryText(SortEntry(p, columns, i)))
  }

  /** The sort loop succeeds exactly when every directive's entry does. */
  lemma {:induction false} SortScanSucceeds(p: Request, columns: seq<Column>, n: nat)
    ensures SortScan(p, columns, n).Success? <==> forall i :: 0 <= i < n ==> SortEntry(p, columns, i).Success?
  {
    if n > 0 {
      SortScanSucceeds(p, columns, n - 1);
      if SortScan(p, columns, n - 1).Failure? {
        SortScanSticky(p, columns, n - 1, n);
      }
    }
  }

  /** The sort string of the first `n` directives is their `"name dir"` entries joined by ", ",
      in directive order: the first directive is the primary key. */
  lemma {:induction false} SortScanJoinsEntries(p: Request, columns: seq<Column>, n: nat)
    requires SortScan(p, columns, n).Success?
    ensures SortScan(p, columns, n).value == Join(", ", SortEntries(p, columns, n))
  {
    if n > 0 {
      SortScanJoinsEntries(p, columns, n - 1);
      var prev := SortEntries(p, columns, n - 1);
      var entry := SortEntry(p, columns, n - 1);
      var before := SortScan(p, columns, n - 1).value;
      assert SortScan(p, columns, n).value == (if n - 1 != 0 then before + ", " else before) + entry.value;
      assert SortEntries(p, columns, n) == prev + [entry.value];
      JoinSnoc(", ", prev, entry.value);
    }
  }

  /** With no sort directives the ordering is the first column's name. */
  lemma DefaultSortIsFirstColumn(p: Request, columns: seq<Column>)
    requires p.sortingCols <= 0
    ensures SortExpression(p, columns) ==
            if |columns| == 0 then Failure(IndexOutOfRange) else Success(columns[0].name)
  {
  }

  /** Directives `[(2, desc), (0, asc)]` over columns A, B, C, addressed by position, order by C
      descending first and A ascending second. */
  lemma TwoKeySortExample()
    ensures var columns := [Column("A", Primitive(String)), Column("B", Primitive(Int32)), Column("C", Primitive(Boolean))];
            var p := Request("", 3, [true, true, true], [], [], 2, [2, 0], ["desc", "asc"]);
            SortExpression(p, columns) == Success("C desc, A asc")
  {
    var columns := [Column("A", Primitive(String)), Column("B", Primitive(Int32)), Column("C", Primitive(Boolean))];
    var p := Request("", 3, [true, true, true], [], [], 2, [2, 0], ["desc", "asc"]);
    assert FindColumn(p, columns, 2) == Success(columns[2]);
    assert FindColumn(p, columns, 0) == Success(columns[0]);
    assert SortEntry(p, columns, 0) == Success("C" + " " + "desc");
    assert SortEntry(p, columns, 1) == Success("A" + " " + "asc");
    assert SortScan(p, columns, 0) == Success("");
    assert "C" + " " + "desc" == "C desc";
    assert "A" + " " + "asc" == "A asc";
    assert "" + "C desc" == "C desc";
    assert SortScan(p, columns, 1) == Success("C desc");
    assert SortScan(p, columns, 2) == Success("C desc" + ", " + "A asc");
    assert "C desc" + ", " + "A asc" == "C desc, A asc";
    assert !IsWhiteSpace("C desc, A asc"[0]);
  }

  /** A column whose clause is null whatever parameters are already bound, and which binds none. */
  ghost predicate ContributesNothing(filters: seq<Filter>, query: string, col: Column)
  {
    forall ps :: GetFilterClause(filters, query, col, ps) == Clause(None, ps)
  }

  /** Under the built-in filters, a well-formed column with no category contributes nothing to any
      search, whatever the term. */
  lemma UncategorisedContributesNothing(tf: TypeFilters, query: string, col: Column)
    requires WellFormed(col.ty) && CategoryOf(col.ty).None?
    ensures ContributesNothing(BuiltinFilters(tf), query, col)
  {
    forall q, qs ensures Resolve(BuiltinFilters(tf), q, ReferenceName(col), col, qs) == Resolution(None, qs) {
      ResolveBuiltins(tf, q, ReferenceName(col), col, qs);
    }
    forall ps ensures GetFilterClause(BuiltinFilters(tf), query, col, ps) == Clause(None, ps) {
      ResolvePartsNothing(BuiltinFilters(tf), Split(query, Alternation), ReferenceName(col), col, ps);
    }
  }

  /** The global-search loop when column `K` is the only searched column that contributes
      anything: its parts are that column's clause alone, built from no prior parameters. */
  lemma GlobalScanOneColumn(filters: seq<Filter>, p: Request, columns: seq<Column>, key: nat, n: nat)
    requires n <= |p.searchable|
    requires forall i :: 0 <= i < n && i != key && p.searchable[i] && i < |columns| ==>
               ContributesNothing(filters, p.search, columns[i])
    requires key < |p.searchable| && p.searchable[key] && key < |columns|
    ensures GlobalScan(filters, p, columns, n).Success?
    ensures var s := GlobalScan(filters, p, columns, n).value;
            var c := GetFilterClause(filters, p.search, columns[key], []);
            Somes(s.parts) == (if key < n && c.text.Some? then [c.text.value] else []) &&
            s.params == (if key < n then c.params else [])
  {
    if n <= key {
      assert GlobalScan(filters, p, columns, 0) == Success(Scan([], []));
      assert Somes<string>([]) == [];
      GlobalScanSilentRange(filters, p, columns, 0, n);
    } else {
      GlobalScanPastKey(filters, p, columns, key, n);
    }
  }

  /** The global scan past the one column that contributes holds that column's clause alone. */
  lemma GlobalScanPastKey(filters: seq<Filter>, p: Request, columns: seq<Column>, key: nat, n: nat)
    requires key < n <= |p.searchable|
    requires forall i :: 0 <= i < n && i != key && p.searchable[i] && i < |columns| ==>
               ContributesNothing(filters, p.search, columns[i])
    requires p.searchable[key] && key < |columns|
    ensures GlobalScan(filters, p, columns, n).Success?
    ensures var s := GlobalScan(filters, p, columns, n).value;
            var c := GetFilterClause(filters, p.search, columns[key], []);
            Somes(s.parts) == (if c.text.Some? then [c.text.value] else []) && s.params == c.params
  {
    assert GlobalScan(filters, p, columns, 0) == Success(Scan([], []));
    assert Somes<string>([]) == [];
    GlobalScanSilentRange(filters, p, columns, 0, key);
    GlobalScanKeyStep(filters, p, columns, key + 1);
    assert key + 1 - 1 == key;
    GlobalScanSilentRange(filters, p, columns, key + 1, n);
  }

  /** Iterations over columns that contribute nothing leave the collected clauses and the
      parameters as they were. */
  lemma {:induction false} GlobalScanSilentRange(filters: seq<Filter>, p: Request, columns: seq<Column>, m: nat, n: nat)
    requires m <= n <= |p.searchable|
    requires GlobalScan(filters, p, columns, m).Success?
    requires forall i :: m <= i < n && p.searchable[i] && i < |columns| ==>
               ContributesNothing(filters, p.search, columns[i])
    ensures GlobalScan(filters, p, columns, n).Success?
    ensures Somes(GlobalScan(filters, p, columns, n).value.parts) == Somes(GlobalScan(filters, p, columns, m).value.parts)
    ensures GlobalScan(filters, p, columns, n).value.params == GlobalScan(filters, p, columns, m).value.params
    decreases n
  {
    if m < n {
      GlobalScanSilentRange(filters, p, columns, m, n - 1);
      GlobalScanSilentStep(filters, p, columns, n);
      if p.searchable[n - 1] && n - 1 < |columns| {
        SomesAppend(GlobalScan(filters, p, columns, n - 1).value.parts, [None]);
        SomesSingle<string>(None);
      }
    }
  }

  /** The iteration over the one contributing column, reached with nothing collected yet. */
  lemma GlobalScanKeyStep(filters: seq<Filter>, p: Request, columns: seq<Column>, n: nat)
    requires 0 < n <= |p.searchable| && p.searchable[n - 1] && n - 1 < |columns|
    requires GlobalScan(filters, p, columns, n - 1).Success?
    requires GlobalScan(filters, p, columns, n - 1).value.params == []
    requires Somes(GlobalScan(filters, p, columns, n - 1).value.parts) == []
    ensures var s := GlobalScan(filters, p, columns, n).value;
            var c := GetFilterClause(filters, p.search, columns[n - 1], []);
            Somes(s.parts) == (if c.text.Some? then [c.text.value] else []) && s.params == c.params
  {
    var s := GlobalScan(filters, p, columns, n - 1).value;
    var c := GetFilterClause(filters, p.search, columns[n - 1], []);
    GlobalScanAdds(filters, p, columns, n);
    SomesAppend(s.parts, [c.text]);
    assert Somes([c.text]) == if c.text.Some? then [c.text.value] else [];
  }

  /** One global iteration over a searched column appends its clause and takes its parameters. */
  lemma GlobalScanAdds(filters: seq<Filter>, p: Request, columns: seq<Column>, n: nat)
    requires 0 < n <= |p.searchable| && GlobalScan(filters, p, columns, n - 1).Success?
    requires p.searchable[n - 1] && n - 1 < |columns|
    ensures var s := GlobalScan(filters, p, columns, n - 1).value;
            var c := GetFilterClause(filters, p.search, columns[n - 1], s.params);
            GlobalScan(filters, p, columns, n) == Success(Scan(s.parts + [c.text], c.params))
  {
  }

  /** One global iteration over a column that is not searched, or is past the end, changes nothing. */
  lemma GlobalScanSkips(filters: seq<Filter>, p: Request, columns: seq<Column>, n: nat)
    requires 0 < n <= |p.searchable| && GlobalScan(filters, p, columns, n - 1).Success?
    requires !p.searchable[n - 1] || n - 1 >= |columns|
    ensures GlobalScan(filters, p, columns, n) == GlobalScan(filters, p, columns, n - 1)
  {
  }

  /** A global search where only column `K` contributes is the single `Where` that a per-column
      search of `K` for the same term would apply (or `Where("")` when `K`'s clause is null too). */
  lemma GlobalSearchOneColumn(filters: seq<Filter>, p: Request, columns: seq<Column>, key: nat)
    requires p.search != "" && 0 <= p.columnCount <= |p.searchable|
    requires key < p.columnCount && p.searchable[key] && key < |columns|
    requires forall i :: 0 <= i < p.columnCount && i != key && p.searchable[i] && i < |columns| ==>
               ContributesNothing(filters, p.search, columns[i])
    ensures var c := GetFilterClause(filters, p.search, columns[key], []);
            GlobalSearch(filters, p, columns) == Success(Some(Where(c.text.GetOr(""), c.params)))
  {
    GlobalScanOneColumn(filters, p, columns, key, p.columnCount);
  }

  /** As written, a non-empty global term whose loop finds no clause still applies `Where("")`
      with no parameters. */
  lemma GlobalSearchWithoutClauses(filters: seq<Filter>, p: Request, columns: seq<Column>)
    requires p.search != "" && p.columnCount <= |p.searchable|
    requires forall i :: 0 <= i < p.columnCount && p.searchable[i] && i < |columns| ==>
               ContributesNothing(filters, p.search, columns[i])
    ensures GlobalSearch(filters, p, columns) == Success(Some(Where("", [])))
  {
    GlobalScanNothing(filters, p, columns, Iterations(p.columnCount));
  }

  lemma GlobalScanNothing(filters: seq<Filter>, p: Request, columns: seq<Column>, n: nat)
    requires n <= |p.searchable|
    requires forall i :: 0 <= i < n && p.searchable[i] && i < |columns| ==>
               ContributesNothing(filters, p.search, columns[i])
    ensures GlobalScan(filters, p, columns, n).Success?
    ensures Somes(GlobalScan(filters, p, columns, n).value.parts) == []
    ensures GlobalScan(filters, p, columns, n).value.params == []
  {
    GlobalScanSilentRange(filters, p, columns, 0, n);
  }

  /** A global iteration over a column that contributes nothing adds a null part at most. */
  lemma GlobalScanSilentStep(filters: seq<Filter>, p: Request, columns: seq<Column>, n: nat)
    requires 0 < n <= |p.searchable| && GlobalScan(filters, p, columns, n - 1).Success?
    requires p.searchable[n - 1] && n - 1 < |columns| ==> ContributesNothing(filters, p.search, columns[n - 1])
    ensures var s := GlobalScan(filters, p, columns, n - 1).value;
            GlobalScan(filters, p, columns, n) ==
              Success(if p.searchable[n - 1] && n - 1 < |columns| then Scan(s.parts + [None], s.params) else s)
  {
    var s := GlobalScan(filters, p, columns, n - 1).value;
    if p.searchable[n - 1] && n - 1 < |columns| {
      GlobalScanAdds(filters, p, columns, n);
      assert GetFilterClause(filters, p.search, columns[n - 1], s.params) == Clause(None, s.params);
    } else {
      GlobalScanSkips(filters, p, columns, n);
    }
  }

  /** A successful request keeps the input trace as a prefix (the queryable is transformed, not
      altered), then applies the global `Where` exactly when the global term is non-empty, then
      one `Where` for each column whose search yields one, in column order, then exactly one
      `OrderBy` with the sort expression. */
  lemma ApplyShape(filters: seq<Filter>, p: Request, data: seq<QueryOp>, columns: seq<Column>)
    requires Apply(filters, p, data, columns).Success?
    ensures var t := Apply(filters, p, data, columns).value;
            var g := if p.search != "" then 1 else 0;
            && data <= t
            && |t| >= |data| + g + 1
            && (g == 1 ==> t[|data|] == GlobalSearch(filters, p, columns).value.value)
            && t[|data| + g..|t| - 1] == Somes(Contributions(filters, p, columns, |p.searchValues|))
            && (forall i :: |data| <= i < |t| - 1 ==> t[i].Where?)
            && t[|t| - 1] == OrderBy(SortExpression(p, columns).value)
  {
    ColumnSearchesInOrder(filters, p, columns, |p.searchValues|);
    var perColumn := ColumnSearches(filters, p, columns, |p.searchValues|).value;
    forall i | 0 <= i < |perColumn| ensures perColumn[i].Where? {
      ColumnSearchesAreWheres(filters, p, columns, |p.searchValues|, i);
    }
  }

  /** Every operation the per-column loop applies is a `Where`. */
  lemma {:induction false} ColumnSearchesAreWheres(filters: seq<Filter>, p: Request, columns: seq<Column>, n: nat, i: nat)
    requires n <= |p.searchValues|
    requires ColumnSearches(filters, p, columns, n).Success?
    requires i < |ColumnSearches(filters, p, columns, n).value|
    ensures ColumnSearches(filters, p, columns, n).value[i].Where?
  {
    var ops := ColumnSearches(filters, p, columns, n - 1).value;
    if i >= |ops| {
      var op := ColumnSearch(filters, p, columns, n - 1);
    } else {
      ColumnSearchesAreWheres(filters, p, columns, n - 1, i);
    }
  }
}
