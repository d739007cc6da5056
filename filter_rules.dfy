/** The ordered, guarded filter registry of DataTablesFiltering: each entry pairs a column
    classifier with a type filter; a search term is resolved by the first entry that returns
    a fragment, and `RegisterFilter` appends entries after the six built-ins. */
module FilterRules {
  import opened Wrappers
  import opened TypeClassifier

  /** A value bound to a placeholder (`@0`, `@1`, ...) of a generated predicate, recorded by its
      literal text. */
  datatype Param = Param(literal: string)

  /** What one filter call gives back: the predicate fragment (None for C#'s null) and the values
      it appended to the shared parameter list. */
  datatype Emit = Emit(fragment: Option<string>, appended: seq<Param>)

  /** The `ReturnedFilteredQueryForType` and `GuardedFilter` delegates: a filter receives the search
      term, the reference name to use for the column, the column, and the parameters bound so far
      (so that it can number its placeholders). */
  type Filter = (string, string, Column, seq<Param>) -> Emit

  /** The outcome of resolving one term: its fragment and the shared parameter list afterwards. */
  datatype Resolution = Resolution(fragment: Option<string>, params: seq<Param>)

  /** The type filters `TypeFilters.BoolFilter` ... `TypeFilters.StringFilter`. Their bodies parse
      the term for their type and are not part of this model. */
  datatype TypeFilters = TypeFilters(
    boolFilter: Filter,
    dateTimeFilter: Filter,
    dateTimeOffsetFilter: Filter,
    numericFilter: Filter,
    enumFilter: Filter,
    stringFilter: Filter)

  /** `Guard(guard, filter)`: a filter that answers null, binding nothing, for a column the guard
      rejects, and is exactly `filter` for a column the guard accepts. */
  function Guard(guard: Column -> bool, filter: Filter): (g: Filter)
    ensures forall q, c, t, ps :: !guard(t) ==> g(q, c, t, ps) == Emit(None, [])
    ensures forall q, c, t, ps :: guard(t) ==> g(q, c, t, ps) == filter(q, c, t, ps)
  {
    (q, c, t, ps) => if guard(t) then filter(q, c, t, ps) else Emit(None, [])
  }

  /** The static `Filters` list as initialised: six guarded type filters, every one of which
      declines a column whose type has no category. */
  function BuiltinFilters(tf: TypeFilters): (fs: seq<Filter>)
    ensures |fs| == 6
    ensures forall j, q, c, t: Column, ps :: 0 <= j < |fs| && CategoryOf(t.ty).None? ==> fs[j](q, c, t, ps) == Emit(None, [])
  {
    [ Guard(IsBoolType, tf.boolFilter),
      Guard(IsDateTimeType, tf.dateTimeFilter),
      Guard(IsDateTimeOffsetType, tf.dateTimeOffsetFilter),
      Guard(IsNumericType, tf.numericFilter),
      Guard(IsEnumType, tf.enumFilter),
      Guard(IsStringType, tf.stringFilter) ]
  }

  /** The type filter in charge of a category. */
  function FilterFor(tf: TypeFilters, k: Category): Filter
  {
    match k
    case BoolCategory => tf.boolFilter
    case DateTimeCategory => tf.dateTimeFilter
    case DateTimeOffsetCategory => tf.dateTimeOffsetFilter
    case NumericCategory => tf.numericFilter
    case EnumCategory => tf.enumFilter
    case StringCategory => tf.stringFilter
  }

  /** One filter call against the shared parameter list. */
  function Call(f: Filter, part: string, refName: string, col: Column, ps: seq<Param>): Resolution
  {
    var e := f(part, refName, col, ps);
    Resolution(e.fragment, ps + e.appended)
  }

  /** `Filters.Select(f => f(...)).FirstOrDefault(p => p != null)`: the filters are called in list
      order until one answers non-null; every filter called may bind parameters. */
  function Resolve(filters: seq<Filter>, part: string, refName: string, col: Column, ps: seq<Param>): (r: Resolution)
    ensures ps <= r.params
    ensures r.fragment.Some? ==> filters != []
  {
    if filters == [] then Resolution(None, ps)
    else
      var first := Call(filters[0], part, refName, col, ps);
      if first.fragment.Some? then first
      else Resolve(filters[1..], part, refName, col, first.params)
  }

  /** Resolution over a list extended at the end: the extension is consulted only when the
      original list resolves nothing, and then from the parameters the original list left. */
  lemma {:induction false} ResolveConcat(fs: seq<Filter>, gs: seq<Filter>, part: string, refName: string, col: Column, ps: seq<Param>)
    ensures var r := Resolve(fs, part, refName, col, ps);
            Resolve(fs + gs, part, refName, col, ps) ==
              if r.fragment.Some? then r else Resolve(gs, part, refName, col, r.params)
  {
    if fs == [] {
      assert fs + gs == gs;
    } else {
      assert (fs + gs)[0] == fs[0];
      assert (fs + gs)[1..] == fs[1..] + gs;
      var first := Call(fs[0], part, refName, col, ps);
      if first.fragment.None? {
        ResolveConcat(fs[1..], gs, part, refName, col, first.params);
      }
    }
  }

  /** Appending one filter, as `RegisterFilter` does, never changes how a term is resolved when
      the existing filters already resolve it. */
  lemma AppendKeepsResolved(fs: seq<Filter>, extra: Filter, part: string, refName: string, col: Column, ps: seq<Param>)
    requires Resolve(fs, part, refName, col, ps).fragment.Some?
    ensures Resolve(fs + [extra], part, refName, col, ps) == Resolve(fs, part, refName, col, ps)
  {
    ResolveConcat(fs, [extra], part, refName, col, ps);
  }

  /** A filter declines a term on a column when it answers null, binding nothing, whatever
      parameters are bound already. */
  ghost predicate Declines(f: Filter, part: string, refName: string, col: Column)
  {
    forall ps :: f(part, refName, col, ps) == Emit(None, [])
  }

  /** A list of filters that all decline resolves nothing and binds nothing. */
  lemma {:induction false} ResolveAllDecline(fs: seq<Filter>, part: string, refName: string, col: Column, ps: seq<Param>)
    requires forall i :: 0 <= i < |fs| ==> Declines(fs[i], part, refName, col)
    ensures Resolve(fs, part, refName, col, ps) == Resolution(None, ps)
  {
    if fs != [] {
      assert Declines(fs[0], part, refName, col);
      assert fs[0](part, refName, col, ps) == Emit(None, []);
      assert ps + [] == ps;
      ResolveAllDecline(fs[1..], part, refName, col, ps);
    }
  }

  /** When every filter but the `i`th declines, resolution is that one filter's call. */
  lemma ResolveOnlyAccepting(fs: seq<Filter>, i: nat, part: string, refName: string, col: Column, ps: seq<Param>)
    requires i < |fs|
    requires forall j :: 0 <= j < |fs| && j != i ==> Declines(fs[j], part, refName, col)
    ensures Resolve(fs, part, refName, col, ps) == Call(fs[i], part, refName, col, ps)
  {
    assert fs == fs[..i] + fs[i..];
    ResolveAllDecline(fs[..i], part, refName, col, ps);
    ResolveConcat(fs[..i], fs[i..], part, refName, col, ps);
    var tail := fs[i..];
    var first := Call(tail[0], part, refName, col, ps);
    assert tail[1..] == fs[i + 1..];
    ResolveAllDecline(tail[1..], part, refName, col, first.params);
  }

  /** The position of each category's filter in the built-in list. */
  function CategoryIndex(k: Category): (i: nat)
    ensures i < 6
  {
    match k
    case BoolCategory => 0
    case DateTimeCategory => 1
    case DateTimeOffsetCategory => 2
    case NumericCategory => 3
    case EnumCategory => 4
    case StringCategory => 5
  }

  /** Built-in dispatch: on a well-formed column the built-in list behaves exactly as the type
      filter of the column's category, or resolves nothing and binds nothing when the column has
      no category. The order Bool, DateTime, DateTimeOffset, Numeric, Enum, String never decides
      between two filters, because no column has two categories. */
  lemma ResolveBuiltins(tf: TypeFilters, part: string, refName: string, col: Column, ps: seq<Param>)
    requires WellFormed(col.ty)
    ensures Resolve(BuiltinFilters(tf), part, refName, col, ps) ==
            match CategoryOf(col.ty)
            case None => Resolution(None, ps)
            case Some(k) => Call(FilterFor(tf, k), part, refName, col, ps)
  {
    ClassifiersAgreeWithCategory(col);
    var fs := BuiltinFilters(tf);
    var guards: seq<Column -> bool> :=
      [IsBoolType, IsDateTimeType, IsDateTimeOffsetType, IsNumericType, IsEnumType, IsStringType];
    var filters := [tf.boolFilter, tf.dateTimeFilter, tf.dateTimeOffsetFilter, tf.numericFilter, tf.enumFilter, tf.stringFilter];
    assert forall j :: 0 <= j < 6 ==> fs[j] == Guard(guards[j], filters[j]);
    forall j | 0 <= j < 6 && !guards[j](col)
      ensures Declines(fs[j], part, refName, col)
    {
      assert fs[j] == Guard(guards[j], filters[j]);
    }
    match CategoryOf(col.ty)
    case None =>
      ResolveAllDecline(fs, part, refName, col, ps);
    case Some(k) =>
      var i := CategoryIndex(k);
      assert guards[i](col);
      assert filters[i] == FilterFor(tf, k);
      ResolveOnlyAccepting(fs, i, part, refName, col, ps);
  }

  /** A filter registered after the built-ins never overrides a built-in that resolves the term:
      built-in priority survives any number of registrations. */
  lemma BuiltinsTakePriority(fs: seq<Filter>, tf: TypeFilters, part: string, refName: string, col: Column, ps: seq<Param>)
    requires |fs| >= 6 && fs[..6] == BuiltinFilters(tf)
    requires WellFormed(col.ty) && CategoryOf(col.ty).Some?
    requires Call(FilterFor(tf, CategoryOf(col.ty).value), part, refName, col, ps).fragment.Some?
    ensures Resolve(fs, part, refName, col, ps) == Call(FilterFor(tf, CategoryOf(col.ty).value), part, refName, col, ps)
  {
    assert fs == fs[..6] + fs[6..];
    ResolveBuiltins(tf, part, refName, col, ps);
    ResolveConcat(fs[..6], fs[6..], part, refName, col, ps);
  }

  /** Built-in priority for a registry in any reachable state: a term that the column's built-in
      type filter resolves is resolved by that filter, whatever has been registered since. */
  lemma RegistryBuiltinsTakePriority(r: FilterRegistry, part: string, refName: string, col: Column, ps: seq<Param>)
    requires r.Valid()
    requires WellFormed(col.ty) && CategoryOf(col.ty).Some?
    requires Call(FilterFor(r.typeFilters, CategoryOf(col.ty).value), part, refName, col, ps).fragment.Some?
    ensures Resolve(r.filters, part, refName, col, ps) ==
            Call(FilterFor(r.typeFilters, CategoryOf(col.ty).value), part, refName, col, ps)
  {
    BuiltinsTakePriority(r.filters, r.typeFilters, part, refName, col, ps);
  }

  /** A registry in any reachable state resolves an uncategorised column only through the filters
      registered after the built-ins, starting from the parameters as they were. */
  lemma RegistryUncategorisedUsesRegistered(r: FilterRegistry, part: string, refName: string, col: Column, ps: seq<Param>)
    requires r.Valid()
    requires WellFormed(col.ty) && CategoryOf(col.ty).None?
    ensures Resolve(r.filters, part, refName, col, ps) == Resolve(r.filters[6..], part, refName, col, ps)
  {
    assert r.filters == r.filters[..6] + r.filters[6..];
    ResolveBuiltins(r.typeFilters, part, refName, col, ps);
    ResolveConcat(r.filters[..6], r.filters[6..], part, refName, col, ps);
  }

  /** The runtime class of every column descriptor, and its base class. */
  const PropertyInfoClass := OtherType("Mvc.JQuery.Datatables.DataTablesPropertyInfo", false)
  const SystemObject := OtherType("System.Object", false)

  /** The runtime class of a column descriptor followed by its base classes: every descriptor is a
      DataTablesPropertyInfo object, whatever type the column it describes is declared with. */
  function DescriptorClassChain(col: Column): seq<ClrType>
  {
    [PropertyInfoClass, SystemObject]
  }

  /** C#'s `obj is T` for a class `T`: the object's runtime class is `T` or derives from it. */
  predicate IsInstanceOf(classChain: seq<ClrType>, t: ClrType)
  {
    exists k :: 0 <= k < |classChain| && classChain[k] == t
  }

  /** The guard `RegisterFilter<T>` builds as written, `arg => arg is T`, where `arg` is the column
      descriptor itself. It holds for `T` = System.Object or DataTablesPropertyInfo and for no
      other type, and it answers the same for every column. */
  function RegisteredGuardAsWritten(t: ClrType): (guard: Column -> bool)
    ensures forall col :: guard(col) <==> t == SystemObject || t == PropertyInfoClass
    ensures forall c1, c2 :: guard(c1) == guard(c2)
  {
    assert forall col :: IsInstanceOf(DescriptorClassChain(col), t) <==> t == SystemObject || t == PropertyInfoClass by {
      forall col ensures IsInstanceOf(DescriptorClassChain(col), t) <==> t == SystemObject || t == PropertyInfoClass {
        DescriptorIsOnlyObjectAndItself(col, t);
      }
    }
    (col: Column) => IsInstanceOf(DescriptorClassChain(col), t)
  }

  /** A column descriptor is an instance of exactly its own class and System.Object. */
  lemma DescriptorIsOnlyObjectAndItself(col: Column, t: ClrType)
    ensures IsInstanceOf(DescriptorClassChain(col), t) <==> t == SystemObject || t == PropertyInfoClass
  {
    var chain := DescriptorClassChain(col);
    if t == PropertyInfoClass {
      assert chain[0] == t;
    } else if t == SystemObject {
      assert chain[1] == t;
    }
  }

  /** The guard `RegisterFilter<T>` evidently intends, in the style of the built-in classifiers:
      the column is declared with type `T`. */
  function RegisteredGuard(t: ClrType): (guard: Column -> bool)
    ensures forall col :: guard(col) <==> col.ty == t
  {
    (col: Column) => col.ty == t
  }

  /** As written, a filter registered for a custom column type is never reached for a column of
      that type, whatever it would answer. */
  lemma RegisteredFilterAsWrittenUnreachable(tf: TypeFilters, filter: Filter, part: string, ps: seq<Param>)
    ensures var money := OtherType("Money", true);
            var col := Column("Price", money);
            Resolve(BuiltinFilters(tf) + [Guard(RegisteredGuardAsWritten(money), filter)], part, col.name, col, ps)
              == Resolution(None, ps)
  {
    var money := OtherType("Money", true);
    var col := Column("Price", money);
    ResolveBuiltins(tf, part, col.name, col, ps);
    ResolveConcat(BuiltinFilters(tf), [Guard(RegisteredGuardAsWritten(money), filter)], part, col.name, col, ps);
    assert ps + [] == ps;
  }

  /** As written, a filter registered for `object` answers for every column the built-ins leave
      unresolved, whatever its type. */
  lemma RegisteredObjectFilterAsWrittenCatchesAll(tf: TypeFilters, filter: Filter, part: string, refName: string, col: Column, ps: seq<Param>)
    requires WellFormed(col.ty) && CategoryOf(col.ty).None?
    ensures Resolve(BuiltinFilters(tf) + [Guard(RegisteredGuardAsWritten(SystemObject), filter)], part, refName, col, ps)
              == Call(filter, part, refName, col, ps)
  {
    ResolveBuiltins(tf, part, refName, col, ps);
    ResolveConcat(BuiltinFilters(tf), [Guard(RegisteredGuardAsWritten(SystemObject), filter)], part, refName, col, ps);
    var e := filter(part, refName, col, ps);
    assert e.fragment.None? ==> Resolve([], part, refName, col, ps + e.appended) == Call(filter, part, refName, col, ps);
  }

  /** With the intended guard, a filter registered for a type outside the six categories is what
      resolves a term on a column of exactly that type. */
  lemma RegisteredFilterReachesItsType(tf: TypeFilters, t: ClrType, filter: Filter, part: string, refName: string, col: Column, ps: seq<Param>)
    requires WellFormed(t) && CategoryOf(t).None? && col.ty == t
    ensures Resolve(BuiltinFilters(tf) + [Guard(RegisteredGuard(t), filter)], part, refName, col, ps)
              == Call(filter, part, refName, col, ps)
  {
    ResolveBuiltins(tf, part, refName, col, ps);
    ResolveConcat(BuiltinFilters(tf), [Guard(RegisteredGuard(t), filter)], part, refName, col, ps);
    var e := filter(part, refName, col, ps);
    assert e.fragment.None? ==> Resolve([], part, refName, col, ps + e.appended) == Call(filter, part, refName, col, ps);
  }

  /** With the intended guard, a registered filter declines every column of another type. */
  lemma RegisteredFilterIgnoresOtherTypes(t: ClrType, filter: Filter, part: string, refName: string, col: Column)
    requires col.ty != t
    ensures Declines(Guard(RegisteredGuard(t), filter), part, refName, col)
  {
  }

  /** The process-wide `Filters` list: the six built-ins followed by the registered filters. */
  class FilterRegistry {
    const typeFilters: TypeFilters
    var filters: seq<Filter>

    ghost predicate Valid()
      reads this
    {
      |filters| >= 6 && filters[..6] == BuiltinFilters(typeFilters)
    }

    /** The static initialiser of `Filters`. */
    constructor (tf: TypeFilters)
      ensures Valid()
      ensures typeFilters == tf && filters == BuiltinFilters(tf)
    {
      typeFilters := tf;
      filters := BuiltinFilters(tf);
    }

    /** `RegisterFilter<T>(filter)`, with the intended guard: appends and changes nothing else. */
    method RegisterFilter(t: ClrType, filter: Filter)
      requires Valid()
      modifies this
      ensures Valid()
      ensures filters == old(filters) + [Guard(RegisteredGuard(t), filter)]
    {
      filters := filters + [Guard(RegisteredGuard(t), filter)];
      assert filters[..6] == old(filters)[..6];
    }
  }
}
