/** The column-type classifiers of DataTablesFiltering: which of the six built-in filter
    categories (bool, DateTime, DateTimeOffset, numeric, enum, string) a column's declared
    type belongs to, where the type may be wrapped in `Nullable<>` or `IEnumerable<>`. */
module TypeClassifier {
  import opened Wrappers

  /** `System.TypeCode`. */
  datatype TypeCode =
    | Empty | Object | DBNull | Boolean | Char
    | SByte | Byte | Int16 | UInt16 | Int32 | UInt32 | Int64 | UInt64
    | Single | Double | Decimal | DateTime | String

  /** The CLR types a column can be declared with, reduced to what the classifiers observe. */
  datatype ClrType =
    | Primitive(code: TypeCode)             // bool, char, the integer and floating types, DateTime, string, DBNull
    | EnumType(enumName: string, underlying: TypeCode)  // an enum; Type.GetTypeCode reports its underlying integer code
    | DateTimeOffsetType                     // the System.DateTimeOffset struct
    | NullableOf(arg: ClrType)              // Nullable<arg>
    | EnumerableOf(element: ClrType)        // IEnumerable<element>
    | OtherType(name: string, isValueType: bool)  // any other class or struct

  /** A DataTablesPropertyInfo: the column's property name and its declared type. */
  datatype Column = Column(name: string, ty: ClrType)

  /** `Type.GetTypeCode`: enums report their underlying type's code, every type that is not
      one of the primitive types reports `Object`. */
  function GetTypeCode(t: ClrType): (c: TypeCode)
    ensures WellFormed(t) ==> (c == TypeCode.Object <==> !t.Primitive? && !t.EnumType?)
  {
    match t
    case Primitive(c) => c
    case EnumType(_, u) => u
    case _ => TypeCode.Object
  }

  predicate IsIntegralCode(c: TypeCode)
  {
    c == SByte || c == Byte || c == Int16 || c == UInt16 || c == Int32 || c == UInt32 || c == Int64 || c == UInt64
  }

  /** The eleven type codes the numeric switch accepts. */
  predicate IsNumericCode(c: TypeCode)
  {
    IsIntegralCode(c) || c == Single || c == Double || c == Decimal
  }

  predicate IsValueType(t: ClrType)
  {
    match t
    case Primitive(c) => c != TypeCode.Object && c != Empty && c != DBNull && c != String
    case EnumType(_, _) => true
    case DateTimeOffsetType => true
    case NullableOf(_) => true
    case EnumerableOf(_) => false
    case OtherType(_, v) => v
  }

  /** The types the CLR can actually construct: enums have an integral underlying type and
      `Nullable<T>` needs a value type `T` that is not itself nullable. */
  predicate WellFormed(t: ClrType)
  {
    match t
    case Primitive(c) => c != TypeCode.Object && c != Empty
    case EnumType(_, u) => IsIntegralCode(u)
    case DateTimeOffsetType => true
    case NullableOf(u) => WellFormed(u) && IsValueType(u) && !u.NullableOf?
    case EnumerableOf(e) => WellFormed(e)
    case OtherType(_, _) => true
  }

  /** The six filter categories, in the order the built-in filters are registered. */
  datatype Category = BoolCategory | DateTimeCategory | DateTimeOffsetCategory | NumericCategory | EnumCategory | StringCategory

  /** Reference classification of a primitive type code. */
  function CodeCategory(c: TypeCode): Option<Category>
  {
    if c == Boolean then Some(BoolCategory)
    else if c == DateTime then Some(DateTimeCategory)
    else if c == String then Some(StringCategory)
    else if IsNumericCode(c) then Some(NumericCategory)
    else None
  }

  /** Reference classification of a non-collection type: a nullable wrapper has the category of
      what it wraps, except that a nullable enum has none. */
  function ElementCategory(t: ClrType): Option<Category>
  {
    match t
    case Primitive(c) => CodeCategory(c)
    case EnumType(_, _) => Some(EnumCategory)
    case DateTimeOffsetType => Some(DateTimeOffsetCategory)
    case NullableOf(u) => if u.EnumType? then None else ElementCategory(u)
    case EnumerableOf(_) => None
    case OtherType(_, _) => None
  }

  /** Reference classification of a column type: an `IEnumerable<T>` is classified as its element `T`. */
  function CategoryOf(t: ClrType): Option<Category>
  {
    match t
    case EnumerableOf(e) => ElementCategory(e)
    case _ => ElementCategory(t)
  }

  /** The private `IsNumericType(Type)`: enums are rejected before their type code is looked at,
      and `Nullable<T>` is numeric when `T` is. */
  predicate IsNumericClrType(t: ClrType)
    ensures IsNumericClrType(t) ==> ElementCategory(t) == Some(NumericCategory)
  {
    if t.EnumType? then false
    else
      var code := GetTypeCode(t);
      if IsNumericCode(code) then true
      else if code == TypeCode.Object then t.NullableOf? && IsNumericClrType(t.arg)
      else false
  }

  /** The public `IsNumericType(DataTablesPropertyInfo)`: the type itself, or the element type of
      an `IEnumerable<>`, is numeric. */
  predicate IsNumericType(col: Column)
    ensures IsNumericType(col) ==> CategoryOf(col.ty) == Some(NumericCategory)
  {
    IsNumericClrType(col.ty) || (col.ty.EnumerableOf? && IsNumericClrType(col.ty.element))
  }

  predicate IsEnumType(col: Column)
    ensures IsEnumType(col) ==> CategoryOf(col.ty) == Some(EnumCategory)
  {
    col.ty.EnumType? || (col.ty.EnumerableOf? && col.ty.element.EnumType?)
  }

  predicate IsBoolType(col: Column)
    ensures IsBoolType(col) ==> CategoryOf(col.ty) == Some(BoolCategory)
  {
    || col.ty == Primitive(Boolean) || col.ty == NullableOf(Primitive(Boolean))
    || col.ty == EnumerableOf(Primitive(Boolean)) || col.ty == EnumerableOf(NullableOf(Primitive(Boolean)))
  }

  predicate IsDateTimeType(col: Column)
    ensures IsDateTimeType(col) ==> CategoryOf(col.ty) == Some(DateTimeCategory)
  {
    || col.ty == Primitive(DateTime) || col.ty == NullableOf(Primitive(DateTime))
    || col.ty == EnumerableOf(Primitive(DateTime)) || col.ty == EnumerableOf(NullableOf(Primitive(DateTime)))
  }

  predicate IsDateTimeOffsetType(col: Column)
    ensures IsDateTimeOffsetType(col) ==> CategoryOf(col.ty) == Some(DateTimeOffsetCategory)
  {
    || col.ty == DateTimeOffsetType || col.ty == NullableOf(DateTimeOffsetType)
    || col.ty == EnumerableOf(DateTimeOffsetType) || col.ty == EnumerableOf(NullableOf(DateTimeOffsetType))
  }

  predicate IsStringType(col: Column)
    ensures IsStringType(col) ==> CategoryOf(col.ty) == Some(StringCategory)
  {
    col.ty == Primitive(String) || col.ty == EnumerableOf(Primitive(String))
  }

  /** The numeric classifier never accepts an enum or a collection of enums, although every
      enum reports an integral type code. */
  lemma NumericRejectsEnums(col: Column)
    requires col.ty.EnumType? || (col.ty.EnumerableOf? && col.ty.element.EnumType?)
    ensures !IsNumericType(col)
  {
  }

  /** A well-formed scalar type is numeric exactly when it is one of the eleven numeric
      primitives or `Nullable<>` of one. */
  lemma NumericScalarShape(t: ClrType)
    requires WellFormed(t)
    ensures IsNumericClrType(t) <==>
            (t.Primitive? && IsNumericCode(t.code)) ||
            (t.NullableOf? && t.arg.Primitive? && IsNumericCode(t.arg.code))
  {
    if t.NullableOf? {
      assert !t.arg.NullableOf?;
    }
  }

  /** The numeric classifier accepts exactly the numeric primitives, their nullable wrappers, and
      `IEnumerable<>` of either. */
  lemma NumericColumnShape(col: Column)
    requires WellFormed(col.ty)
    ensures IsNumericType(col) <==>
            (col.ty.Primitive? && IsNumericCode(col.ty.code)) ||
            (col.ty.NullableOf? && col.ty.arg.Primitive? && IsNumericCode(col.ty.arg.code)) ||
            (col.ty.EnumerableOf? && col.ty.element.Primitive? && IsNumericCode(col.ty.element.code)) ||
            (col.ty.EnumerableOf? && col.ty.element.NullableOf? &&
               col.ty.element.arg.Primitive? && IsNumericCode(col.ty.element.arg.code))
  {
    NumericScalarShape(col.ty);
    if col.ty.EnumerableOf? {
      NumericScalarShape(col.ty.element);
    }
  }

  /** The classifiers' tests on a single (non-collection) type agree with the reference
      classification of that type. */
  lemma ElementTestsAgree(e: ClrType)
    requires WellFormed(e) && !e.EnumerableOf?
    ensures (e == Primitive(Boolean) || e == NullableOf(Primitive(Boolean))) <==> ElementCategory(e) == Some(BoolCategory)
    ensures (e == Primitive(DateTime) || e == NullableOf(Primitive(DateTime))) <==> ElementCategory(e) == Some(DateTimeCategory)
    ensures (e == DateTimeOffsetType || e == NullableOf(DateTimeOffsetType)) <==> ElementCategory(e) == Some(DateTimeOffsetCategory)
    ensures IsNumericClrType(e) <==> ElementCategory(e) == Some(NumericCategory)
    ensures e.EnumType? <==> ElementCategory(e) == Some(EnumCategory)
    ensures e == Primitive(String) <==> ElementCategory(e) == Some(StringCategory)
  {
    NumericScalarShape(e);
    if e.NullableOf? {
      var a := e.arg;
      assert !a.NullableOf? && !a.EnumerableOf? && IsValueType(a);
      assert ElementCategory(e) == (if a.EnumType? then None else ElementCategory(a));
      if a.Primitive? {
        assert ElementCategory(a) == CodeCategory(a.code);
      }
    }
  }

  /** Each built-in classifier accepts a well-formed column exactly when the reference
      classification gives that classifier's category. */
  lemma ClassifiersAgreeWithCategory(col: Column)
    requires WellFormed(col.ty)
    ensures IsBoolType(col) <==> CategoryOf(col.ty) == Some(BoolCategory)
    ensures IsDateTimeType(col) <==> CategoryOf(col.ty) == Some(DateTimeCategory)
    ensures IsDateTimeOffsetType(col) <==> CategoryOf(col.ty) == Some(DateTimeOffsetCategory)
    ensures IsNumericType(col) <==> CategoryOf(col.ty) == Some(NumericCategory)
    ensures IsEnumType(col) <==> CategoryOf(col.ty) == Some(EnumCategory)
    ensures IsStringType(col) <==> CategoryOf(col.ty) == Some(StringCategory)
  {
    var t := col.ty;
    if t.EnumerableOf? {
      var e := t.element;
      if e.EnumerableOf? {
        assert ElementCategory(e) == None;
        assert !IsNumericClrType(e);
      } else {
        ElementTestsAgree(e);
      }
      assert !IsNumericClrType(t);
    } else {
      ElementTestsAgree(t);
    }
  }

  /** Classification is exclusive: no well-formed column is claimed by two built-in classifiers,
      so the order of the built-in filters never decides between two of them. */
  lemma AtMostOneClassifier(col: Column)
    requires WellFormed(col.ty)
    ensures (if IsBoolType(col) then 1 else 0) + (if IsDateTimeType(col) then 1 else 0)
          + (if IsDateTimeOffsetType(col) then 1 else 0) + (if IsNumericType(col) then 1 else 0)
          + (if IsEnumType(col) then 1 else 0) + (if IsStringType(col) then 1 else 0) <= 1
  {
    ClassifiersAgreeWithCategory(col);
  }

  /** A `Nullable<>` enum column, or a collection of them, is claimed by no built-in classifier. */
  lemma NullableEnumUnclassified(col: Column)
    requires (col.ty.NullableOf? && col.ty.arg.EnumType?) ||
             (col.ty.EnumerableOf? && col.ty.element.NullableOf? && col.ty.element.arg.EnumType?)
    ensures !IsBoolType(col) && !IsDateTimeType(col) && !IsDateTimeOffsetType(col)
    ensures !IsNumericType(col) && !IsEnumType(col) && !IsStringType(col)
  {
    var n := if col.ty.NullableOf? then col.ty else col.ty.element;
    assert !IsNumericClrType(n.arg);
    assert !IsNumericClrType(n);
  }
}
