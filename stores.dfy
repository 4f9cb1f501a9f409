/**
 * The relational store the core talks to, reduced to what the core observes of it: the
 * rows a statement yields, the column metadata and primary keys of a table, and the log
 * of every SQL text submitted.
 */
module Stores {
  import opened Wrappers
  import opened Fields

  /** One result row: column name to the cell a getter reads (None is SQL NULL). */
  type Row = map<string, Option<Value>>

  /** What executing a statement yields: its result rows, or a failure (an SQLException). */
  datatype Response = Rows(rows: seq<Row>) | Failed

  /** A column as the metadata query reports it: its name and its java.sql.Types code. */
  datatype Column = Column(name: string, code: int)

  class Store {
    /** The answer the store gives to each SQL text. */
    const answer: string -> Response
    /** The columns of each table, in the order the metadata reports them. */
    const columns: string -> seq<Column>
    /** The primary-key columns of each table, in the order the store reports them. */
    const keys: string -> seq<string>
    /** Every statement submitted so far, oldest first. */
    ghost var log: seq<string>

    constructor (answer: string -> Response, columns: string -> seq<Column>, keys: string -> seq<string>)
      ensures this.answer == answer && this.columns == columns && this.keys == keys
      ensures log == []
    {
      this.answer := answer;
      this.columns := columns;
      this.keys := keys;
      log := [];
    }

    /** `prepareStatement(sql).execute()`: records the statement and returns its answer. */
    method Submit(sql: string) returns (r: Response)
      modifies this
      ensures log == old(log) + [sql]
      ensures r == answer(sql)
    {
      log := log + [sql];
      r := answer(sql);
    }
  }
}
