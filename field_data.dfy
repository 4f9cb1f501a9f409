/**
 * Typed value slots: a field keeps a declared runtime class fixed for its lifetime and
 * accepts only values of that class, the string "NULL" and null.
 */
module Fields {
  import opened Wrappers

  /**
   * The runtime classes the type table can declare for a column. As the class of a value,
   * ObjectType stands for any class not listed (Boolean, byte[], ...).
   */
  datatype TypeTag =
    | StringType | IntegerType | BigDecimalType | FloatType | DoubleType
    | DateType | TimestampType | TimeType | ObjectType | ObjectArrayType

  /** A non-null runtime value: its most specific listed class and its `toString()` text. */
  datatype Value = Value(tag: TypeTag, text: string)

  /** The String "NULL", which assignment turns into an absent value. */
  const NullText: Value := Value(StringType, "NULL")

  /** `declared.isInstance(v)`: every value is an Object, and otherwise the class must match. */
  predicate IsInstance(declared: TypeTag, v: Value)
  {
    declared == ObjectType || declared == v.tag
  }

  /**
   * The value a slot of class `declared` holds after assigning `x` (null is None), or the
   * exception the assignment throws. A null class (None) throws NullPointer for every
   * argument but "NULL", because `isInstance` is called before the null test.
   */
  function Assign(declared: Option<TypeTag>, x: Option<Value>): (r: Result<Option<Value>>)
    ensures x == Some(NullText) ==> r == Ok(None)
    ensures x != Some(NullText) && declared == None ==> r == Err(NullPointer)
    ensures declared != None && x == None ==> r == Ok(None)
    ensures declared != None && x.Some? && x != Some(NullText) ==>
              (r == Ok(x) <==> IsInstance(declared.value, x.value)) &&
              (r == Err(ClassCast) <==> !IsInstance(declared.value, x.value))
    ensures r.Ok? && r.value.Some? ==> declared.Some? && IsInstance(declared.value, r.value.value)
    ensures r.Ok? ==> r.value == None || r.value == x
    ensures r.Err? ==> r.error in {ClassCast, NullPointer}
  {
    if x == Some(NullText) then Ok(None)
    else match declared
      case None => Err(NullPointer)
      case Some(t) =>
        if x == None || IsInstance(t, x.value) then Ok(x) else Err(ClassCast)
  }

  /** Java's FieldData: a fixed declared class and one mutable value. */
  class FieldData {
    /** The runtime class; None models a slot built from an unmapped type code (null class). */
    const declared: Option<TypeTag>
    var value: Option<Value>

    /** A stored value is always an instance of the declared class. */
    ghost predicate Valid()
      reads this
    {
      value.Some? ==> declared.Some? && IsInstance(declared.value, value.value)
    }

    /** A fresh slot of the given class holding no value. */
    constructor (t: Option<TypeTag>)
      ensures Valid()
      ensures declared == t && value == None
    {
      declared := t;
      value := None;
    }

    /** `setRunTimeValue`: stores the assigned value, or throws and leaves the slot as it was. */
    method SetRunTimeValue(x: Option<Value>) returns (r: Outcome)
      requires Valid()
      modifies this
      ensures Valid()
      ensures Assign(declared, x).Ok? ==> r == Pass && value == Assign(declared, x).value
      ensures Assign(declared, x).Err? ==> r == Fail(Assign(declared, x).error) && value == old(value)
    {
      if x == Some(NullText) {
        value := None;
        r := Pass;
      } else if declared == None {
        r := Fail(NullPointer);
      } else if x == None || IsInstance(declared.value, x.value) {
        value := x;
        r := Pass;
      } else {
        r := Fail(ClassCast);
      }
    }

    /** `getRunTimeValue`: the stored value, which is always an instance of the declared class. */
    function RunTimeValue(): (r: Option<Value>)
      requires Valid()
      reads this
      ensures r.Some? ==> declared.Some? && IsInstance(declared.value, r.value)
    {
      value
    }

    /** `getRuntimeType`. */
    function RuntimeType(): (r: Option<TypeTag>)
      reads this
      ensures Valid() && value.Some? ==> r.Some? && IsInstance(r.value, value.value)
    {
      declared
    }

    /** `clone`: a new slot of the same class, without the value. */
    method Clone() returns (c: FieldData)
      ensures fresh(c) && c.Valid()
      ensures c.declared == declared && c.value == None
    {
      c := new FieldData(declared);
    }

    /**
     * `equals`: the same object, or the same class and equal values (both absent counts as
     * equal); comparing the class of a slot whose class is null throws NullPointer.
     */
    function Equals(other: FieldData): (r: Result<bool>)
      reads this, other
      ensures this == other ==> r == Ok(true)
      ensures r.Err? <==> this != other && declared == None
      ensures r.Err? ==> r.error == NullPointer
      ensures r.Ok? ==> (r.value <==> declared == other.declared && value == other.value)
    {
      if this == other then Ok(true)
      else if declared == None then Err(NullPointer)
      else Ok(declared == other.declared && value == other.value)
    }
  }

  /**
   * Assigning the value a slot holds after an accepted assignment is accepted again and
   * changes nothing (for a slot with a class; one without throws on null).
   */
  lemma AssignIdempotent(declared: Option<TypeTag>, x: Option<Value>)
    requires declared.Some? && Assign(declared, x).Ok?
    ensures Assign(declared, Assign(declared, x).value) == Assign(declared, x)
  {
  }
}
