/**
 * The process-wide conversion tables: the runtime class of each native column type, the
 * classes that have an extractor, and what an extractor pulls from a row.
 */
module Conversions {
  import opened Wrappers
  import opened Fields
  import opened Stores

  /** The java.sql.Types codes the table lists. */
  const CHAR := 1
  const ARRAY := 2003
  const BIGINT := -5
  const VARCHAR := 12
  const BINARY := -2
  const BIT := -7
  const BLOB := 2004
  const LONGNVARCHAR := -16
  const LONGVARBINARY := -4
  const LONGVARCHAR := -1
  const TINYINT := -6
  const SMALLINT := 5
  const INTEGER := 4
  const FLOAT := 6
  const DOUBLE := 8
  const DECIMAL := 3
  const DATE := 91
  const TIMESTAMP := 93
  const TIME := 92

  /** Codes the table does not list, such as VARBINARY, NUMERIC, REAL and BOOLEAN. */
  const VARBINARY := -3
  const NUMERIC := 2
  const REAL := 7
  const BOOLEAN := 16

  /** `setUpField`: the runtime class a column of each listed native type holds. */
  function NativeTypes(): (r: map<int, TypeTag>)
    ensures forall c :: c in r ==> (r[c] in HandledTypes() <==> c != ARRAY)
  {
    map[CHAR := StringType, ARRAY := ObjectArrayType, BIGINT := BigDecimalType,
        VARCHAR := StringType, BINARY := ObjectType, BIT := ObjectType, BLOB := ObjectType,
        LONGNVARCHAR := StringType, LONGVARBINARY := ObjectType, LONGVARCHAR := StringType,
        TINYINT := IntegerType, SMALLINT := IntegerType, INTEGER := IntegerType,
        FLOAT := FloatType, DOUBLE := DoubleType, DECIMAL := BigDecimalType,
        DATE := DateType, TIMESTAMP := TimestampType, TIME := TimeType]
  }

  /** The `put` calls of `setupConversions`, in order (BIGINT and DATE are put twice). */
  function PutNative(m: map<int, TypeTag>): (r: map<int, TypeTag>)
    ensures r.Keys == m.Keys + NativeTypes().Keys
    ensures forall c :: c in NativeTypes() ==> r[c] == NativeTypes()[c]
    ensures forall c :: c in m && c !in NativeTypes() ==> r[c] == m[c]
  {
    m[CHAR := StringType][ARRAY := ObjectArrayType][BIGINT := BigDecimalType]
     [VARCHAR := StringType][BINARY := ObjectType][BIT := ObjectType][BLOB := ObjectType]
     [LONGNVARCHAR := StringType][LONGVARBINARY := ObjectType][LONGVARCHAR := StringType]
     [TINYINT := IntegerType][SMALLINT := IntegerType][INTEGER := IntegerType]
     [BIGINT := BigDecimalType][FLOAT := FloatType][DOUBLE := DoubleType]
     [DECIMAL := BigDecimalType][DATE := DateType][DATE := DateType]
     [TIMESTAMP := TimestampType][TIME := TimeType]
  }

  /** Running the puts over a table holding only their own entries gives the full table. */
  lemma PutNativeFills(m: map<int, TypeTag>)
    requires forall c :: c in m ==> c in NativeTypes() && m[c] == NativeTypes()[c]
    ensures PutNative(m) == NativeTypes()
  {
    assert forall c :: c in PutNative(m) <==> c in NativeTypes();
    assert forall c :: c in PutNative(m) ==> PutNative(m)[c] == NativeTypes()[c];
  }

  /** `setupFieldToFunction`: the classes that have an extractor; `Object[]` has none. */
  function HandledTypes(): (r: set<TypeTag>)
    ensures ObjectArrayType !in r
  {
    {StringType, IntegerType, BigDecimalType, FloatType, DoubleType, DateType,
     TimestampType, TimeType, ObjectType}
  }

  /** Every class but `Object[]` has an extractor. */
  lemma HandledTypesExactly(t: TypeTag)
    ensures t in HandledTypes() <==> t != ObjectArrayType
  {
    match t
    case ObjectArrayType =>
    case _ =>
  }

  /** `dBToField.get(code)`: the class of a column, or null for a code the table omits. */
  function Lookup(table: map<int, TypeTag>, code: int): (r: Option<TypeTag>)
    ensures r.Some? <==> code in table
    ensures r.Some? ==> r.value == table[code]
  {
    if code in table then Some(table[code]) else None
  }

  /**
   * What the extractor of class `t` pulls from column `col` of a row. A missing column
   * makes the getter throw, which the extractor turns into null. SQL NULL reads as 0 for
   * the primitive getters (`getInt`, `getFloat`, `getDouble`) and as null otherwise.
   * `getString` renders any value as text and `getObject` returns it as it is; the other
   * getters return a value of their own class and null for a value of another class.
   */
  function Extract(t: TypeTag, row: Row, col: string): (r: Option<Value>)
    ensures r.Some? ==> IsInstance(t, r.value)
    ensures col !in row ==> r == None
    ensures col in row && row[col].Some? && t == StringType ==> r == Some(Value(StringType, row[col].value.text))
    ensures col in row && t == ObjectType ==> r == row[col]
    ensures col in row && row[col].Some? && row[col].value.tag == t ==> r == row[col]
    ensures col in row && row[col].None? ==>
              (r.Some? <==> t == IntegerType || t == FloatType || t == DoubleType)
  {
    if col !in row then None
    else match row[col]
      case None =>
        if t == IntegerType then Some(Value(IntegerType, "0"))
        else if t == FloatType then Some(Value(FloatType, "0.0"))
        else if t == DoubleType then Some(Value(DoubleType, "0.0"))
        else None
      case Some(v) =>
        if t == StringType then Some(Value(StringType, v.text))
        else if t == ObjectType || v.tag == t then Some(v)
        else None
  }

  /**
   * What `fill` does to one slot of class `declared`: look up the extractor (a null class
   * or a class without one throws NullPointer), extract, and assign.
   */
  function FillAssign(declared: Option<TypeTag>, handlers: set<TypeTag>, row: Row, col: string)
    : (r: Result<Option<Value>>)
    ensures r.Err? ==> r.error == NullPointer
    ensures r.Ok? && r.value.Some? ==> declared.Some? && IsInstance(declared.value, r.value.value)
  {
    match declared
    case None => Err(NullPointer)
    case Some(t) => if t in handlers then Assign(declared, Extract(t, row, col)) else Err(NullPointer)
  }

  /**
   * A slot's `fill` throws NullPointer exactly when it has no class or no extractor; it
   * never throws ClassCast, because an extractor yields a value of its own class. A
   * String column holding the text "NULL" loads as null.
   */
  lemma FillAssignOutcome(declared: Option<TypeTag>, handlers: set<TypeTag>, row: Row, col: string)
    ensures var r := FillAssign(declared, handlers, row, col);
      && (r.Err? <==> declared.None? || declared.value !in handlers)
      && (r.Err? ==> r.error == NullPointer)
      && (r.Ok? ==> r.value == if Extract(declared.value, row, col) == Some(NullText) then None
                               else Extract(declared.value, row, col))
      && (r.Ok? && r.value.Some? ==> IsInstance(declared.value, r.value.value))
  {
  }

  /** The type table lists nineteen codes. */
  lemma NativeTypeCodes()
    ensures NativeTypes().Keys == {CHAR, ARRAY, BIGINT, VARCHAR, BINARY, BIT, BLOB, LONGNVARCHAR,
                                   LONGVARBINARY, LONGVARCHAR, TINYINT, SMALLINT, INTEGER, FLOAT,
                                   DOUBLE, DECIMAL, DATE, TIMESTAMP, TIME}
  {
  }

  /** The table is partial: VARBINARY, NUMERIC, REAL and BOOLEAN, among others, are not listed. */
  lemma NativeTypeOmits()
    ensures forall c :: c in NativeTypes() ==> c != VARBINARY && c != NUMERIC && c != REAL && c != BOOLEAN
  {
  }

  /**
   * The codes of each class: the small integer codes hold Integer, the character codes
   * String, BIGINT and DECIMAL BigDecimal, the binary codes and BIT Object, and ARRAY alone
   * Object[].
   */
  lemma NativeTypeClasses()
    ensures forall c :: c in NativeTypes() ==>
              (NativeTypes()[c] == IntegerType <==> c == TINYINT || c == SMALLINT || c == INTEGER)
    ensures forall c :: c in NativeTypes() ==>
              (NativeTypes()[c] == StringType <==> c == CHAR || c == VARCHAR || c == LONGVARCHAR || c == LONGNVARCHAR)
    ensures forall c :: c in NativeTypes() ==>
              (NativeTypes()[c] == BigDecimalType <==> c == BIGINT || c == DECIMAL)
    ensures forall c :: c in NativeTypes() ==>
              (NativeTypes()[c] == ObjectType <==> c == BINARY || c == BIT || c == BLOB || c == LONGVARBINARY)
    ensures forall c :: c in NativeTypes() ==> (NativeTypes()[c] == ObjectArrayType <==> c == ARRAY)
  {
  }

  /**
   * Once the tables are set up, a slot's `fill` throws exactly when its column is an ARRAY
   * (Object[] has no extractor) or has a code the table omits (a slot without a class), and
   * its `clear` throws exactly in the second case.
   */
  lemma SlotThrows(code: int, row: Row, col: string)
    ensures FillAssign(Lookup(NativeTypes(), code), HandledTypes(), row, col).Err? <==>
              code == ARRAY || code !in NativeTypes()
    ensures Assign(Lookup(NativeTypes(), code), None).Err? <==> code !in NativeTypes()
  {
    NativeTypeClasses();
    if code in NativeTypes() {
      assert NativeTypes()[code] in HandledTypes() <==> NativeTypes()[code] != ObjectArrayType;
    }
  }
}
