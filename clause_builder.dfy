/** `GetFilterClause`: one column's search string, split on `|` into alternative terms, each term
    resolved through the filter registry, the resolved fragments OR-ed together, and the result
    wrapped in `Name.Any(...)` for an `IEnumerable<>` column. */
module ClauseBuilder {
  import opened Wrappers
  import opened Strings
  import opened TypeClassifier
  import opened FilterRules

  /** A column clause (None for C#'s null) and the shared parameter list afterwards. */
  datatype Clause = Clause(text: Option<string>, params: seq<Param>)

  /** The non-empty fragments of a run of terms, and the shared parameter list afterwards. */
  datatype Fragments = Fragments(texts: seq<string>, params: seq<Param>)

  /** The alternation delimiter. */
  const Alternation: char := '|'

  /** The separator between OR-ed fragments. */
  const OrSeparator := ") OR ("

  predicate IsCollection(col: Column)
    ensures IsCollection(col) ==> col.ty.EnumerableOf? && CategoryOf(col.ty) == ElementCategory(col.ty.element)
  {
    col.ty.EnumerableOf?
  }

  /** The name the filters use for the column: the element variable `it` inside `Any` for a
      collection, the property name otherwise. */
  function ReferenceName(col: Column): (r: string)
    ensures IsCollection(col) ==> r == "it"
    ensures !IsCollection(col) ==> r == col.name
  {
    if IsCollection(col) then "it" else col.name
  }

  /** `queryParts.Select(filterClause).Where(fc => fc != "")`: each term resolved in order against
      the parameters its predecessors left, null mapped to "" by `??`, and empty fragments dropped. */
  function ResolveParts(filters: seq<Filter>, parts: seq<string>, refName: string, col: Column, ps: seq<Param>): (r: Fragments)
    ensures ps <= r.params
    ensures |r.texts| <= |parts|
    ensures forall f :: f in r.texts ==> f != ""
  {
    if parts == [] then Fragments([], ps)
    else
      var first := Resolve(filters, parts[0], refName, col, ps);
      var frag := first.fragment.GetOr("");
      var rest := ResolveParts(filters, parts[1..], refName, col, first.params);
      Fragments(if frag == "" then rest.texts else [frag] + rest.texts, rest.params)
  }

  /** The fragment the `i`th term resolves to ("" when it resolves to nothing), given the
      parameters bound while resolving the terms before it. */
  function PartFragment(filters: seq<Filter>, parts: seq<string>, i: nat, refName: string, col: Column, ps: seq<Param>): string
    requires i < |parts|
  {
    var before := ResolveParts(filters, parts[..i], refName, col, ps).params;
    Resolve(filters, parts[i], refName, col, before).fragment.GetOr("")
  }

  /** Every term's fragment, in term order. */
  function PartFragments(filters: seq<Filter>, parts: seq<string>, refName: string, col: Column, ps: seq<Param>): seq<string>
  {
    seq(|parts|, i requires 0 <= i < |parts| => PartFragment(filters, parts, i, refName, col, ps))
  }

  /** Resolving a run of terms split in two: the second half starts from the parameters the
      first half left, and its fragments follow the first half's. */
  lemma {:induction false} ResolvePartsConcat(filters: seq<Filter>, xs: seq<string>, ys: seq<string>, refName: string, col: Column, ps: seq<Param>)
    ensures var a := ResolveParts(filters, xs, refName, col, ps);
            var b := ResolveParts(filters, ys, refName, col, a.params);
            ResolveParts(filters, xs + ys, refName, col, ps) == Fragments(a.texts + b.texts, b.params)
  {
    if xs == [] {
      assert xs + ys == ys;
    } else {
      assert (xs + ys)[0] == xs[0];
      assert (xs + ys)[1..] == xs[1..] + ys;
      var first := Resolve(filters, xs[0], refName, col, ps);
      ResolvePartsConcat(filters, xs[1..], ys, refName, col, first.params);
    }
  }

  /** The `i + 1`th term's fragment is the `i`th fragment of the remaining terms, resolved from
      the parameters the first term left. */
  lemma PartFragmentShift(filters: seq<Filter>, parts: seq<string>, i: nat, refName: string, col: Column, ps: seq<Param>)
    requires i + 1 < |parts|
    ensures var first := Resolve(filters, parts[0], refName, col, ps);
            PartFragment(filters, parts, i + 1, refName, col, ps) ==
            PartFragment(filters, parts[1..], i, refName, col, first.params)
  {
    var pre := parts[..i + 1];
    assert pre[0] == parts[0];
    assert pre[1..] == parts[1..][..i];
    assert parts[i + 1] == parts[1..][i];
  }

  /** The resolved fragments are exactly the terms' fragments in term order, with the empty ones
      dropped: every term is resolved on its own, none is lost or reordered. */
  lemma {:induction false} ResolvePartsInOrder(filters: seq<Filter>, parts: seq<string>, refName: string, col: Column, ps: seq<Param>)
    ensures ResolveParts(filters, parts, refName, col, ps).texts ==
            DropEmpty(PartFragments(filters, parts, refName, col, ps))
  {
    var all := PartFragments(filters, parts, refName, col, ps);
    if parts != [] {
      var first := Resolve(filters, parts[0], refName, col, ps);
      var rest := PartFragments(filters, parts[1..], refName, col, first.params);
      ResolvePartsInOrder(filters, parts[1..], refName, col, first.params);
      assert parts[..0] == [];
      assert all[0] == first.fragment.GetOr("");
      forall i | 0 <= i < |rest| ensures all[1..][i] == rest[i] {
        PartFragmentShift(filters, parts, i, refName, col, ps);
      }
      assert all[1..] == rest;
    }
  }

  /** `GetFilterClause`: null when no term resolves to a non-empty fragment; otherwise the
      fragments OR-ed in parentheses, or for a collection column `Name.Any((...))` over the
      element reference `it`. A clause is never blank. */
  function GetFilterClause(filters: seq<Filter>, query: string, col: Column, ps: seq<Param>): (r: Clause)
    ensures ps <= r.params
    ensures r.text.Some? ==> !IsNullOrWhiteSpace(r.text.value)
  {
    var resolved := ResolveParts(filters, Split(query, Alternation), ReferenceName(col), col, ps);
    if |resolved.texts| > 0 then
      var joined := Join(OrSeparator, resolved.texts);
      var text := if IsCollection(col) then col.name + ".Any((" + joined + "))" else "(" + joined + ")";
      assert !IsWhiteSpace(text[|text| - 1]);
      Clause(Some(text), resolved.params)
    else
      Clause(None, resolved.params)
  }

  /** The clause in terms of the terms: null exactly when every `|`-separated term resolves to
      nothing or to "", and otherwise the non-empty fragments, in term order, joined by
      `) OR (` and wrapped according to the column kind. */
  lemma FilterClauseIsOrOfTerms(filters: seq<Filter>, query: string, col: Column, ps: seq<Param>)
    ensures var frags := DropEmpty(PartFragments(filters, Split(query, Alternation), ReferenceName(col), col, ps));
            var r := GetFilterClause(filters, query, col, ps);
            && (r.text.None? <==> frags == [])
            && (r.text.None? <==> forall f :: f in PartFragments(filters, Split(query, Alternation), ReferenceName(col), col, ps) ==> f == "")
            && (frags != [] && !IsCollection(col) ==> r.text == Some("(" + Join(") OR (", frags) + ")"))
            && (frags != [] && IsCollection(col) ==> r.text == Some(col.name + ".Any((" + Join(") OR (", frags) + "))"))
  {
    ResolvePartsInOrder(filters, Split(query, Alternation), ReferenceName(col), col, ps);
    var all := PartFragments(filters, Split(query, Alternation), ReferenceName(col), col, ps);
    var frags := DropEmpty(all);
    if frags != [] {
      assert frags[0] in frags;
    }
  }

  /** A resolution step that declines every term leaves the fragments empty and the parameters as
      they were. */
  lemma {:induction false} ResolvePartsNothing(filters: seq<Filter>, parts: seq<string>, refName: string, col: Column, ps: seq<Param>)
    requires forall q, qs :: Resolve(filters, q, refName, col, qs) == Resolution(None, qs)
    ensures ResolveParts(filters, parts, refName, col, ps) == Fragments([], ps)
  {
    if parts != [] {
      ResolvePartsNothing(filters, parts[1..], refName, col, ps);
    }
  }

  /** A filter that compares the reference name with the term, binding nothing. */
  function EqualsFilter(q: string, c: string, t: Column, ps: seq<Param>): Emit
  {
    Emit(Some(c + " == " + q), [])
  }

  lemma SplitTwoTerms()
    ensures Split("1|2", Alternation) == ["1", "2"]
  {
    assert Join([Alternation], ["1", "2"]) == "1|2";
    SplitJoin(["1", "2"], Alternation);
  }

  lemma ResolveTwoTerms(col: Column)
    ensures ResolveParts([EqualsFilter], ["1", "2"], "it", col, []) == Fragments(["it == 1", "it == 2"], [])
  {
    assert "it" + " == " + "1" == "it == 1";
    assert "it" + " == " + "2" == "it == 2";
    assert Resolve([EqualsFilter], "1", "it", col, []) == Resolution(Some("it == 1"), []);
    assert Resolve([EqualsFilter], "2", "it", col, []) == Resolution(Some("it == 2"), []);
    assert ["1", "2"][1..] == ["2"];
    assert ResolveParts([EqualsFilter], ["2"], "it", col, []) == Fragments(["it == 2"], []);
  }

  /** The clause of a collection column whose terms resolve to `texts`. */
  lemma CollectionClause(filters: seq<Filter>, query: string, col: Column, texts: seq<string>, qs: seq<Param>)
    requires IsCollection(col) && texts != []
    requires ResolveParts(filters, Split(query, Alternation), "it", col, []) == Fragments(texts, qs)
    ensures GetFilterClause(filters, query, col, []) == Clause(Some(col.name + ".Any((" + Join(OrSeparator, texts) + "))"), qs)
  {
  }

  /** The text of the example's clause: the two fragments OR-ed inside `Ages.Any((...))`. */
  lemma TwoFragmentClauseText()
    ensures "Ages" + ".Any((" + Join(OrSeparator, ["it == 1", "it == 2"]) + "))" == "Ages.Any((it == 1) OR (it == 2))"
  {
    assert ["it == 1", "it == 2"][1..] == ["it == 2"];
    assert Join(OrSeparator, ["it == 1", "it == 2"]) == "it == 1) OR (it == 2";
  }

  /** A collection column searched for "1|2": each term refers to the element as `it`, and the
      clause is `Ages.Any((it == 1) OR (it == 2))`. */
  lemma CollectionClauseExample(query: string, col: Column)
    requires query == "1|2" && col == Column("Ages", EnumerableOf(Primitive(Int32)))
    ensures GetFilterClause([EqualsFilter], query, col, []) == Clause(Some("Ages.Any((it == 1) OR (it == 2))"), [])
  {
    SplitTwoTerms();
    ResolveTwoTerms(col);
    CollectionClause([EqualsFilter], query, col, ["it == 1", "it == 2"], []);
    TwoFragmentClauseText();
  }
}
