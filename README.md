# DataTablesFiltering, modelled in Dafny

This project models the server-side filtering core of Mvc.JQuery.Datatables. That core is the class
`DataTablesFiltering`. It turns a jQuery DataTables request (`DataTablesParam`) into three things,
applied to an `IQueryable<T>` through dynamic LINQ:

- a global-search `Where`;
- one `Where` per searched column;
- one multi-key `OrderBy`.

Each search term is split on `|` into alternative terms. Each term is resolved through an ordered
list of guarded filters: the first filter that answers non-null wins. The resolved fragments are
OR-ed together. A column of type `IEnumerable<T>` is wrapped in `Name.Any(...)`, with the element
referred to as `it`. A non-empty global term that yields no clause at all still applies
`Where("")`, with no parameters.

Modules, following the program's structure:

- `Wrappers`: `Option` (C#'s null), `Result` (an escaping exception), and `Somes` (LINQ's
  `Where(x => x != null)`).
- `Strings`: `String.Join`, `String.Split(char)` and `String.IsNullOrWhiteSpace`.
- `TypeClassifier`: the CLR types a column can have, reduced to what the classifiers observe, and
  the six `Is*Type` classifiers. It also holds a reference classification (`CategoryOf`) that the
  classifiers are proved against.
- `FilterRules`: `Guard`, the static `Filters` list (the class `FilterRegistry`), first-match
  resolution, and `RegisterFilter`.
- `ClauseBuilder`: `GetFilterClause`.
- `QueryComposer`: `FindColumn` and `ApplyFiltersAndSort`. The method is imperative, with its three
  loops. Each loop is proved against a function that gives the loop's state after `n` iterations.
  The queryable is modelled as the trace of `Where`/`OrderBy` operations applied to it.

A filter is a function value `(term, referenceName, column, boundParams) -> Emit(fragment, appended)`.
It returns the parameters it appends, instead of mutating a shared list. This makes "filters only
append to `parametersForLinqQuery`" hold by construction. The model threads one parameter list
through a clause exactly as the C# shares one `List<object>`.

## Model

| member | source | states |
|---|---|---|
| TypeClassifier.GetTypeCode | Mvc.JQuery.Datatables/DataTablesFiltering.cs:156 | For a well-formed type, the code is `Object` exactly when the type is neither a primitive nor an enum; an enum reports its underlying code |
| TypeClassifier.IsNumericClrType | Mvc.JQuery.Datatables/DataTablesFiltering.cs:149-178 | A type the private numeric test accepts has the numeric category in the reference classification, so it is never an enum |
| TypeClassifier.IsNumericType | Mvc.JQuery.Datatables/DataTablesFiltering.cs:143-147 | A column the public numeric test accepts (the type, or the element of an `IEnumerable<>`) has the numeric category |
| TypeClassifier.IsEnumType | Mvc.JQuery.Datatables/DataTablesFiltering.cs:180-183 | A column the enum test accepts (an enum, or `IEnumerable<>` of one) has the enum category |
| TypeClassifier.IsBoolType | Mvc.JQuery.Datatables/DataTablesFiltering.cs:185-189 | A column the bool test accepts (`bool`, `bool?` or `IEnumerable<>` of either) has the bool category |
| TypeClassifier.IsDateTimeType | Mvc.JQuery.Datatables/DataTablesFiltering.cs:190-194 | A column the `DateTime` test accepts has the `DateTime` category |
| TypeClassifier.IsDateTimeOffsetType | Mvc.JQuery.Datatables/DataTablesFiltering.cs:195-199 | A column the `DateTimeOffset` test accepts has the `DateTimeOffset` category |
| TypeClassifier.IsStringType | Mvc.JQuery.Datatables/DataTablesFiltering.cs:201-204 | A column the string test accepts (`string` or `IEnumerable<string>`) has the string category |
| TypeClassifier.NumericRejectsEnums | Mvc.JQuery.Datatables/DataTablesFiltering.cs:143-154 | The numeric classifier rejects every enum and every `IEnumerable<>` of enums, although an enum's type code is integral |
| TypeClassifier.NumericScalarShape | Mvc.JQuery.Datatables/DataTablesFiltering.cs:149-178 | A well-formed type is numeric iff it is one of the eleven numeric type codes or `Nullable<>` of one |
| TypeClassifier.NumericColumnShape | Mvc.JQuery.Datatables/DataTablesFiltering.cs:143-178 | A column is numeric iff its type is a numeric primitive, `Nullable<>` of one, or `IEnumerable<>` of either |
| TypeClassifier.ElementTestsAgree | Mvc.JQuery.Datatables/DataTablesFiltering.cs:149-204 | On a well-formed type that is not a collection, each classifier's test on the type itself (bool or bool?, DateTime or DateTime?, DateTimeOffset or DateTimeOffset?, numeric, enum, string) holds iff the reference classification gives its category |
| TypeClassifier.ClassifiersAgreeWithCategory | Mvc.JQuery.Datatables/DataTablesFiltering.cs:143-204 | Each of the six classifiers accepts a well-formed column iff the reference classification gives its category (collections classified by their element, nullable by what it wraps) |
| TypeClassifier.AtMostOneClassifier | Mvc.JQuery.Datatables/DataTablesFiltering.cs:143-204 | No well-formed column is accepted by two classifiers |
| TypeClassifier.NullableEnumUnclassified | Mvc.JQuery.Datatables/DataTablesFiltering.cs:180-183 | `Nullable<enum>`, and `IEnumerable<>` of it, is accepted by none of the six classifiers |
| FilterRules.Guard | Mvc.JQuery.Datatables/DataTablesFiltering.cs:102-112 | A guarded filter answers null and binds nothing when the guard rejects the column; otherwise it answers as the wrapped filter |
| FilterRules.BuiltinFilters | Mvc.JQuery.Datatables/DataTablesFiltering.cs:88-96 | The static list starts with six guarded entries, and every one of them answers null and binds nothing for a column whose type has no category |
| FilterRules.Resolve | Mvc.JQuery.Datatables/DataTablesFiltering.cs:122-125 | Resolving a term only appends to the parameters, and yields a fragment only from a non-empty filter list |
| FilterRules.ResolveConcat | Mvc.JQuery.Datatables/DataTablesFiltering.cs:122-125 | First match: filters after the list's end are consulted only when the earlier ones all answer null, and they start from the parameters those left |
| FilterRules.ResolveAllDecline | Mvc.JQuery.Datatables/DataTablesFiltering.cs:122-125 | When every filter declines, the term resolves to null (then `""`) and binds nothing |
| FilterRules.ResolveOnlyAccepting | Mvc.JQuery.Datatables/DataTablesFiltering.cs:122-125 | When only the `i`th filter accepts the column, resolution is exactly that filter's answer |
| FilterRules.ResolveBuiltins | Mvc.JQuery.Datatables/DataTablesFiltering.cs:88-96 | The built-in list resolves a well-formed column with the type filter of its category; with no category, it resolves nothing and binds nothing |
| FilterRules.AppendKeepsResolved | Mvc.JQuery.Datatables/DataTablesFiltering.cs:114-117 | Appending a filter never changes the resolution of a term the list already resolves |
| FilterRules.BuiltinsTakePriority | Mvc.JQuery.Datatables/DataTablesFiltering.cs:88-117 | After any registrations, a term that a built-in filter resolves is still resolved by that built-in filter |
| FilterRules.RegistryBuiltinsTakePriority | Mvc.JQuery.Datatables/DataTablesFiltering.cs:88-117 | For the registry in any reachable state, a term that the built-in filter of the column's category resolves is resolved by that filter |
| FilterRules.RegistryUncategorisedUsesRegistered | Mvc.JQuery.Datatables/DataTablesFiltering.cs:88-125 | For the registry in any reachable state, a column with no category is resolved by the registered filters alone, as if the built-ins were absent |
| FilterRules.RegisteredGuardAsWritten | Mvc.JQuery.Datatables/DataTablesFiltering.cs:116 | The as-written guard `arg is T`, a test on the runtime class of the `DataTablesPropertyInfo` descriptor (its base chain up to `object`), accepts a column iff `T` is `object` or `DataTablesPropertyInfo`, and gives the same answer for every column |
| FilterRules.DescriptorIsOnlyObjectAndItself | Mvc.JQuery.Datatables/DataTablesFiltering.cs:116 | Under the modelled class chain, the descriptor is an instance of exactly two classes: `DataTablesPropertyInfo` and `object` |
| FilterRules.RegisteredFilterAsWrittenUnreachable | Mvc.JQuery.Datatables/DataTablesFiltering.cs:114-117 | As written, a filter registered for a custom type `Money` is never reached for a `Money` column |
| FilterRules.RegisteredObjectFilterAsWrittenCatchesAll | Mvc.JQuery.Datatables/DataTablesFiltering.cs:114-117 | As written, a filter registered for `object` answers for every column the built-ins leave unresolved |
| FilterRules.RegisteredGuard | Mvc.JQuery.Datatables/DataTablesFiltering.cs:116 | The corrected guard accepts a column iff the column is declared with type `T` |
| FilterRules.RegisteredFilterReachesItsType | Mvc.JQuery.Datatables/DataTablesFiltering.cs:114-117 | With the corrected guard, a filter registered for an uncategorised type resolves the terms on columns of that type |
| FilterRules.RegisteredFilterIgnoresOtherTypes | Mvc.JQuery.Datatables/DataTablesFiltering.cs:114-117 | With the corrected guard, a registered filter declines every column of another type |
| FilterRules.FilterRegistry.constructor | Mvc.JQuery.Datatables/DataTablesFiltering.cs:88-96 | The list starts as the six built-ins, guarded in the order Bool, DateTime, DateTimeOffset, Numeric, Enum, String |
| FilterRules.FilterRegistry.RegisterFilter | Mvc.JQuery.Datatables/DataTablesFiltering.cs:114-117 | Registration appends one guarded filter at the end, changes nothing else, and keeps the built-ins in front |
| Wrappers.Somes | Mvc.JQuery.Datatables/DataTablesFiltering.cs:31 | Dropping nulls keeps exactly the non-null values |
| Wrappers.SomesAppend | Mvc.JQuery.Datatables/DataTablesFiltering.cs:31 | Dropping nulls distributes over concatenation, so the order is kept |
| Strings.Join | Mvc.JQuery.Datatables/DataTablesFiltering.cs:32 | The joined string starts with the first part; with `JoinSnoc` and `SplitJoin` it is the parts with the separator between each adjacent pair |
| Strings.Split | Mvc.JQuery.Datatables/DataTablesFiltering.cs:127 | Splitting on the alternation bar gives at least one part, no part contains the bar, and joining the parts with the bar gives back the input |
| Strings.SplitJoin | Mvc.JQuery.Datatables/DataTablesFiltering.cs:127 | Splitting undoes joining for parts that are free of the separator |
| Strings.JoinSnoc | Mvc.JQuery.Datatables/DataTablesFiltering.cs:58-60 | Appending a part to a join appends the separator and the part |
| Strings.DropEmpty | Mvc.JQuery.Datatables/DataTablesFiltering.cs:127 | `Where(fc => fc != "")` keeps exactly the non-empty strings |
| Strings.IsWhiteSpace | Mvc.JQuery.Datatables/DataTablesFiltering.cs:39 | No printable ASCII character other than the space is white space |
| Strings.IsNullOrWhiteSpace | Mvc.JQuery.Datatables/DataTablesFiltering.cs:39 | The empty (null) string counts as blank; otherwise a string is blank when every character is white space |
| ClauseBuilder.ResolveParts | Mvc.JQuery.Datatables/DataTablesFiltering.cs:122-127 | Resolving the terms only appends parameters and yields at most one fragment per term, none of them empty |
| ClauseBuilder.ResolvePartsConcat | Mvc.JQuery.Datatables/DataTablesFiltering.cs:127 | The terms are resolved left to right, each starting from the parameters its predecessors bound |
| ClauseBuilder.ResolvePartsInOrder | Mvc.JQuery.Datatables/DataTablesFiltering.cs:122-127 | The fragments are every term's own fragment, in term order, with the empty ones dropped |
| ClauseBuilder.ResolvePartsNothing | Mvc.JQuery.Datatables/DataTablesFiltering.cs:122-127 | When every term resolves to null, no fragment is produced and no parameter is bound |
| ClauseBuilder.GetFilterClause | Mvc.JQuery.Datatables/DataTablesFiltering.cs:119-140 | The clause only appends parameters, and a non-null clause is never blank |
| ClauseBuilder.IsCollection | Mvc.JQuery.Datatables/DataTablesFiltering.cs:121 | A collection column is an `IEnumerable<>` one, and its category is its element's |
| ClauseBuilder.ReferenceName | Mvc.JQuery.Datatables/DataTablesFiltering.cs:121-124 | Filters see the element variable `it` for an `IEnumerable<>` column, and the property name for any other column |
| ClauseBuilder.FilterClauseIsOrOfTerms | Mvc.JQuery.Datatables/DataTablesFiltering.cs:119-140 | The clause is null iff every term resolves to null or `""`; otherwise it is `(f1) OR (f2)…`, or `Name.Any((f1) OR (f2)…)` for a collection |
| ClauseBuilder.CollectionClause | Mvc.JQuery.Datatables/DataTablesFiltering.cs:128-133 | A collection column whose terms resolve to fragments gets `Name.Any((...))` over those fragments |
| ClauseBuilder.SplitTwoTerms | Mvc.JQuery.Datatables/DataTablesFiltering.cs:127 | The search `1`, bar, `2` splits into the terms `1` and `2` |
| ClauseBuilder.ResolveTwoTerms | Mvc.JQuery.Datatables/DataTablesFiltering.cs:122-127 | Each of the two terms is resolved on its own against the reference name `it` |
| ClauseBuilder.CollectionClauseExample | Mvc.JQuery.Datatables/DataTablesFiltering.cs:121-133 | An `IEnumerable<int>` column `Ages` searched for `1`, bar, `2` gives `Ages.Any((it == 1) OR (it == 2))` |
| QueryComposer.FirstNamed | Mvc.JQuery.Datatables/DataTablesFiltering.cs:76 | `First` returns the lowest index with the name, or nothing when no column has it |
| QueryComposer.FindColumn | Mvc.JQuery.Datatables/DataTablesFiltering.cs:72-82 | A column that is found is one of the columns |
| QueryComposer.FindColumnCases | Mvc.JQuery.Datatables/DataTablesFiltering.cs:72-82 | With no requested names, the column at position `i` (out of range is an index fault). Otherwise, the first column named `sColumnNames[i]`. With requested names, the fault is a failed match when there are no columns (the name is never read) or `i` is a valid name index, and an index fault otherwise |
| QueryComposer.FindColumnNoColumns | Mvc.JQuery.Datatables/DataTablesFiltering.cs:74-76 | With requested names and no columns, every lookup is a failed match, whatever the index |
| QueryComposer.NamedSearchWithoutColumns | Mvc.JQuery.Datatables/DataTablesFiltering.cs:34-82 | A request that names its columns and searches one over an empty column array faults with a failed match |
| QueryComposer.ColumnSearch | Mvc.JQuery.Datatables/DataTablesFiltering.cs:36-48 | A column search applies nothing or a `Where`, never an `OrderBy` |
| QueryComposer.SearchColumn | Mvc.JQuery.Datatables/DataTablesFiltering.cs:36-48 | The loop body computes the column's search: its fault, or its `Where` if any |
| QueryComposer.ColumnSearchCases | Mvc.JQuery.Datatables/DataTablesFiltering.cs:36-48 | Column `i` faults iff `bSearchable[i]` is out of range, or it is searched and its column is not found. It applies a `Where` iff it is searchable, its term is not blank, and its clause is non-null; that `Where` holds the clause and its own parameters |
| QueryComposer.GlobalScan | Mvc.JQuery.Datatables/DataTablesFiltering.cs:17-30 | The global loop collects at most one part per iteration and at most one per column |
| QueryComposer.GlobalSearch | Mvc.JQuery.Datatables/DataTablesFiltering.cs:13-33 | The global search applies a `Where` iff the global term is non-empty |
| QueryComposer.GlobalScanFails | Mvc.JQuery.Datatables/DataTablesFiltering.cs:17-30 | The global loop fails iff it reads `bSearchable` past its end; every other fault is caught |
| QueryComposer.GlobalScanPartStep | Mvc.JQuery.Datatables/DataTablesFiltering.cs:17-30 | One iteration of the global loop adds exactly that column's part: its clause, built on the parameters bound so far, when it is searchable and in range, nothing otherwise |
| QueryComposer.GlobalScanInOrder | Mvc.JQuery.Datatables/DataTablesFiltering.cs:17-31 | The non-null parts the global loop collects are exactly the columns' own clauses, each built on the parameters the earlier columns left, in column order |
| QueryComposer.GlobalScanParamsGrow | Mvc.JQuery.Datatables/DataTablesFiltering.cs:16-30 | The global loop shares one parameter list, and later columns only append to it |
| QueryComposer.GlobalSearchJoinsColumnClauses | Mvc.JQuery.Datatables/DataTablesFiltering.cs:13-33 | For a non-empty term, the global `Where` joins the columns' non-null clauses with ` or `, in column order, bound to the parameters the loop left |
| QueryComposer.ColumnSearchesSticky | Mvc.JQuery.Datatables/DataTablesFiltering.cs:34-50 | A fault ends the per-column loop |
| QueryComposer.ColumnSearchesStep | Mvc.JQuery.Datatables/DataTablesFiltering.cs:34-50 | One iteration of the per-column loop: an earlier fault is kept, the column's own fault ends the loop, otherwise the column's `Where`, if any, is appended |
| QueryComposer.ColumnSearchesAppend | Mvc.JQuery.Datatables/DataTablesFiltering.cs:34-50 | A successful iteration appends the column's `Where`, or nothing |
| QueryComposer.ColumnSearchesSucceed | Mvc.JQuery.Datatables/DataTablesFiltering.cs:34-50 | The per-column loop succeeds iff every column's search does |
| QueryComposer.ColumnSearchesInOrder | Mvc.JQuery.Datatables/DataTablesFiltering.cs:34-50 | The per-column `Where`s are exactly the columns' own contributions, in column order |
| QueryComposer.ColumnSearchesFirstFault | Mvc.JQuery.Datatables/DataTablesFiltering.cs:34-50 | A failing per-column loop fails with the fault of the first faulting column |
| QueryComposer.ColumnSearchesAreWheres | Mvc.JQuery.Datatables/DataTablesFiltering.cs:34-50 | The per-column loop applies only `Where`s |
| QueryComposer.SortEntry | Mvc.JQuery.Datatables/DataTablesFiltering.cs:54-60 | A directive yields an entry only when its column index and its direction are both present; over no columns every directive faults |
| QueryComposer.SortScan | Mvc.JQuery.Datatables/DataTablesFiltering.cs:52-61 | A successful sort loop read a column index and a direction for every directive; over no columns any directive makes it fault |
| QueryComposer.SortScanSticky | Mvc.JQuery.Datatables/DataTablesFiltering.cs:52-61 | A fault ends the sort loop |
| QueryComposer.SortScanSucceeds | Mvc.JQuery.Datatables/DataTablesFiltering.cs:52-61 | The sort loop succeeds iff every directive's column and direction can be read |
| QueryComposer.SortScanJoinsEntries | Mvc.JQuery.Datatables/DataTablesFiltering.cs:51-61 | The sort string is the directives' `name dir` entries joined by `, `, in directive order |
| QueryComposer.DefaultSortIsFirstColumn | Mvc.JQuery.Datatables/DataTablesFiltering.cs:62-65 | With no sort directives, the ordering is `columns[0]`'s name (a fault when there are no columns) |
| QueryComposer.SortExpression | Mvc.JQuery.Datatables/DataTablesFiltering.cs:51-65 | The ordering is a non-blank directive string or the first column's name; over no columns the request faults |
| QueryComposer.TwoKeySortExample | Mvc.JQuery.Datatables/DataTablesFiltering.cs:51-66 | Directives `(2, desc), (0, asc)` over columns A, B, C order by `C desc, A asc` |
| QueryComposer.UncategorisedContributesNothing | Mvc.JQuery.Datatables/DataTablesFiltering.cs:119-140 | Under the built-in filters, a column with no category has a null clause and binds nothing, whatever the term |
| QueryComposer.GlobalScanOneColumn | Mvc.JQuery.Datatables/DataTablesFiltering.cs:17-30 | When only column `K` contributes, the global parts are `K`'s clause alone, and the parameters are `K`'s |
| QueryComposer.GlobalScanPastKey | Mvc.JQuery.Datatables/DataTablesFiltering.cs:17-30 | Past the one contributing column `K`, the global parts are `K`'s clause alone and the parameters are `K`'s |
| QueryComposer.GlobalSearchOneColumn | Mvc.JQuery.Datatables/DataTablesFiltering.cs:13-33 | Then the global search is the single `Where` of `K`'s clause |
| QueryComposer.GlobalScanSilentRange | Mvc.JQuery.Datatables/DataTablesFiltering.cs:17-30 | Iterations over columns that contribute nothing leave the non-null parts and the parameters unchanged |
| QueryComposer.GlobalScanKeyStep | Mvc.JQuery.Datatables/DataTablesFiltering.cs:19-23 | The iteration over a searched column, with nothing collected yet, collects that column's clause and its parameters |
| QueryComposer.GlobalScanNothing | Mvc.JQuery.Datatables/DataTablesFiltering.cs:17-31 | When no column contributes, the global loop collects no clause and no parameter |
| QueryComposer.GlobalSearchWithoutClauses | Mvc.JQuery.Datatables/DataTablesFiltering.cs:31-32 | A non-empty global term with no clause still applies `Where("")`, with no parameters |
| QueryComposer.Apply | Mvc.JQuery.Datatables/DataTablesFiltering.cs:11-70 | A successful request strictly extends the input trace and ends with an `OrderBy`; over a type with no properties every request faults |
| QueryComposer.ApplyShape | Mvc.JQuery.Datatables/DataTablesFiltering.cs:11-70 | A successful request keeps the input trace as a prefix, then applies the global `Where` iff the global term is non-empty, then exactly the columns' own `Where`s in column order, and ends with exactly one `OrderBy` of the sort expression |
| QueryComposer.ApplyGlobalSearch | Mvc.JQuery.Datatables/DataTablesFiltering.cs:13-33 | The global-search loop computes the global search |
| QueryComposer.ApplyColumnSearches | Mvc.JQuery.Datatables/DataTablesFiltering.cs:34-50 | The per-column loop computes the per-column searches |
| QueryComposer.BuildSortString | Mvc.JQuery.Datatables/DataTablesFiltering.cs:51-65 | The sort loop and its default compute the sort expression |
| QueryComposer.ApplyFiltersAndSort | Mvc.JQuery.Datatables/DataTablesFiltering.cs:11-70 | The request's result is the global search, then the per-column searches, then the sort, with the first fault escaping |

## Left out

- The bodies of `TypeFilters.BoolFilter` … `TypeFilters.StringFilter`: TypeFilters.cs is not part
  of this model. The six filters are arbitrary function values (`FilterRules.TypeFilters`), so every
  result above holds whatever they answer.
- Dynamic LINQ: the `Where` and `OrderBy` strings are not parsed or executed. The queryable is the
  trace of the operations applied to it.
- Reflection: a column is its property name and a `ClrType`. `ClrType` distinguishes exactly what
  the classifiers test: type codes, `IsEnum`, `Nullable<>`, `IEnumerable<>` and type identity
  (an enum by its name, any other type by its name and kind). Other interfaces and generic types
  are `OtherType`, and no subtyping between them is modelled.
- The class hierarchy of `DataTablesPropertyInfo` (`FilterRules.DescriptorClassChain`): the model
  takes it to derive directly from `object` and to implement no interface. Its declaration is not
  part of this model; a base class or an interface of it would also satisfy `arg is T`.
- Exceptions raised inside a type filter are not modelled, because the filters are total functions
  here. The `catch` in the global search is therefore modelled for its one remaining cause,
  `columns[i]` out of range. `bSearchable[i]` is read outside the `try`, so reading it past its end
  is a fault.
- Null references: C#'s null strings are modelled as `""`. A null `columns` array, null request
  lists and null column descriptors, which would throw `NullReferenceException`, are not modelled.
  The numeric classifier's `type == null` branch cannot arise in the model.
- Thread safety: `RegisterFilter` mutates a process-wide static list without locking. Concurrent
  registration and reading are not modelled.
- `RegisterFilter<T>`'s type argument is passed as a `ClrType` value.
- FilterRules.FilterRegistry.RegisterFilter: it is modelled with the corrected guard, not the
  as-written `arg is T` (see Findings). The as-written guard is `FilterRules.RegisteredGuardAsWritten`.
- TypeClassifier.ClassifiersAgreeWithCategory: it requires a well-formed type, meaning one the CLR
  can construct. Examples are an enum over an integral type, or `Nullable<T>` of a value type that
  is not itself nullable. The classifiers themselves are defined on every `ClrType`.

## Findings

| source | as written | input that shows it | evidently intended | confidence | as-written member | corrected member |
|---|---|---|---|---|---|---|
| Mvc.JQuery.Datatables/DataTablesFiltering.cs:116 | The guard `arg => arg is T` tests the `DataTablesPropertyInfo` descriptor itself, not its `Type`. It holds only for the descriptor's own class and its ancestors (`object` and `DataTablesPropertyInfo`, when that class derives directly from `object`), and then for every column | `RegisterFilter<Money>(f)`, then a search on a column of type `Money`: `f` is never called and the clause is null. `RegisterFilter<object>(f)` catches every column the built-ins leave unresolved | The registered filter applies to columns declared with type `T`, like the built-in classifiers that test `propertyInfo.Type` | high; not executed | FilterRules.RegisteredFilterAsWrittenUnreachable | FilterRules.RegisteredFilterReachesItsType |
