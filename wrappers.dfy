/** Optional values, success/failure outcomes and the exceptions the persistence core throws. */
module Wrappers {

  /** Java's nullable reference: None stands for null. */
  datatype Option<+T> = None | Some(value: T)

  /** The exceptions the core raises, named by the Java class that carries them. */
  datatype Error =
    | ClassCast          // FieldData.setRunTimeValue given a value of the wrong class
    | NullPointer        // a null runtime type, a missing extractor, a missing field or a null key value
    | IllegalArgument    // Model.setField given an unknown field name
    | IndexOutOfBounds   // Model.find(key) on a model without primary keys
    | InvalidQueryState  // the RuntimeException QueryBuilder throws from a mode check
    | UncheckedSql       // the store rejected a submitted statement

  /** Result of an operation that returns nothing (Java `void`) but may throw. */
  datatype Outcome = Pass | Fail(error: Error)

  /** Result of an operation that returns a value or throws. */
  datatype Result<+T> = Ok(value: T) | Err(error: Error)
}
