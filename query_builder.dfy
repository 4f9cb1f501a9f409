/**
 * The query builder: a small state machine that accumulates selected columns, WHERE
 * comparisons and column/value modifications, commits to one statement kind, renders it
 * as SQL text and resets itself after a successful execution.
 */
module Queries {
  import opened Wrappers
  import opened Comparators
  import opened Stores

  /** The statement kind the builder is committed to; UNDECIDED until a call fixes one. */
  datatype QueryMode = UNDECIDED | SELECT | INSERT | UPDATE | DELETE

  /** The enum constant's `toString()`, which every rendering starts with. */
  function ModeName(m: QueryMode): string
  {
    match m
    case UNDECIDED => "UNDECIDED"
    case SELECT => "SELECT"
    case INSERT => "INSERT"
    case UPDATE => "UPDATE"
    case DELETE => "DELETE"
  }

  /** A pending modification: a column and its new value (None is Java null). */
  type Modifier = (string, Option<string>)

  /** The builder's state as a value: mode, selections, comparisons and modifiers. */
  datatype Query = Query(
    mode: QueryMode,
    selections: seq<string>,
    comparisons: seq<Comparator>,
    modifiers: seq<Modifier>)

  /** The state of a new or reset builder. */
  const Initial: Query := Query(UNDECIDED, [], [], [])

  // ---------------------------------------------------------------------------------------
  // Ordered stand-ins for HashSet<String> and HashMap<String, String>
  // ---------------------------------------------------------------------------------------

  predicate NoDuplicates<T(==)>(s: seq<T>)
  {
    forall i, j :: 0 <= i < j < |s| ==> s[i] != s[j]
  }

  /** The elements of a sequence, as a set. */
  function Elems(s: seq<string>): set<string>
  {
    set x | x in s
  }

  /** `HashSet.add`: appends a column not yet present, in insertion order. */
  function Add(s: seq<string>, x: string): (r: seq<string>)
    ensures Elems(r) == Elems(s) + {x}
    ensures NoDuplicates(s) ==> NoDuplicates(r)
    ensures x in s ==> r == s
  {
    if x in s then s else s + [x]
  }

  /** `HashSet.addAll`: adds every column of `xs`, front to back. */
  function AddAll(s: seq<string>, xs: seq<string>): (r: seq<string>)
    ensures Elems(r) == Elems(s) + Elems(xs)
    ensures NoDuplicates(s) ==> NoDuplicates(r)
  {
    if xs == [] then s else Add(AddAll(s, xs[..|xs| - 1]), xs[|xs| - 1])
  }

  /** The column names of a list of (column, entry) pairs, in order: a modifier list or a template. */
  function Columns<V>(m: seq<(string, V)>): (r: seq<string>)
    ensures |r| == |m|
  {
    seq(|m|, i requires 0 <= i < |m| => m[i].0)
  }

  /** The map a modifier list stands for; of two entries for one column the later wins. */
  function AsMap(m: seq<Modifier>): map<string, Option<string>>
  {
    if m == [] then map[] else AsMap(m[..|m| - 1])[m[|m| - 1].0 := m[|m| - 1].1]
  }

  /** Overwrites, in place, the value of column `k`, which is assumed present. */
  function Replace(m: seq<Modifier>, k: string, v: Option<string>): (r: seq<Modifier>)
  {
    if m == [] then []
    else if m[|m| - 1].0 == k then m[..|m| - 1] + [(k, v)]
    else Replace(m[..|m| - 1], k, v) + [m[|m| - 1]]
  }

  /** `HashMap.put`: overwrites the value of a present column in place, or appends the column. */
  function Put(m: seq<Modifier>, k: string, v: Option<string>): (r: seq<Modifier>)
  {
    if k in Columns(m) then Replace(m, k, v) else m + [(k, v)]
  }

  /** A `put` of every entry of `ps`, in order. */
  function PutAll(m: seq<Modifier>, ps: seq<Modifier>): (r: seq<Modifier>)
  {
    if ps == [] then m else Put(PutAll(m, ps[..|ps| - 1]), ps[|ps| - 1].0, ps[|ps| - 1].1)
  }

  /** Adding a one-column list is a single `add`. */
  lemma AddAllSingleton(s: seq<string>, x: string)
    ensures AddAll(s, [x]) == Add(s, x)
  {
    assert [x][..0] == [];
  }

  /** Putting a one-entry list is a single `put`. */
  lemma PutAllSingleton(m: seq<Modifier>, p: Modifier)
    ensures PutAll(m, [p]) == Put(m, p.0, p.1)
  {
    assert [p][..0] == [];
  }

  lemma AsMapSnoc(m: seq<Modifier>, x: Modifier)
    ensures AsMap(m + [x]) == AsMap(m)[x.0 := x.1]
  {
    assert (m + [x])[..|m|] == m;
  }

  lemma ColumnsSnoc(m: seq<Modifier>, x: Modifier)
    ensures Columns(m + [x]) == Columns(m) + [x.0]
  {
  }

  lemma {:induction false} ReplaceAsMap(m: seq<Modifier>, k: string, v: Option<string>)
    requires k in Columns(m)
    ensures AsMap(Replace(m, k, v)) == AsMap(m)[k := v]
  {
    var init, last := m[..|m| - 1], m[|m| - 1];
    assert m == init + [last];
    ColumnsSnoc(init, last);
    AsMapSnoc(init, last);
    if last.0 == k {
      AsMapSnoc(init, (k, v));
    } else {
      ReplaceAsMap(init, k, v);
      AsMapSnoc(Replace(init, k, v), last);
    }
  }

  lemma {:induction false} ReplaceColumns(m: seq<Modifier>, k: string, v: Option<string>)
    ensures Columns(Replace(m, k, v)) == Columns(m)
  {
    if m != [] {
      var init, last := m[..|m| - 1], m[|m| - 1];
      assert m == init + [last];
      ColumnsSnoc(init, last);
      if last.0 == k {
        ColumnsSnoc(init, (k, v));
      } else {
        ReplaceColumns(init, k, v);
        ColumnsSnoc(Replace(init, k, v), last);
      }
    }
  }

  /** After `put(k, v)` the map sends k to v and agrees with the old map elsewhere. */
  lemma PutAsMap(m: seq<Modifier>, k: string, v: Option<string>)
    ensures AsMap(Put(m, k, v)) == AsMap(m)[k := v]
  {
    if k in Columns(m) {
      ReplaceAsMap(m, k, v);
    } else {
      AsMapSnoc(m, (k, v));
    }
  }

  /** `put` keeps the column order, appending only a column that was absent. */
  lemma PutColumns(m: seq<Modifier>, k: string, v: Option<string>)
    ensures Columns(Put(m, k, v)) == if k in Columns(m) then Columns(m) else Columns(m) + [k]
  {
    if k in Columns(m) {
      ReplaceColumns(m, k, v);
    } else {
      ColumnsSnoc(m, (k, v));
    }
  }

  /** A later value for a column overwrites the earlier one: merging is map union. */
  lemma {:induction false} PutAllAsMap(m: seq<Modifier>, ps: seq<Modifier>)
    ensures AsMap(PutAll(m, ps)) == AsMap(m) + AsMap(ps)
  {
    if ps != [] {
      var init, last := ps[..|ps| - 1], ps[|ps| - 1];
      PutAllAsMap(m, init);
      PutAsMap(PutAll(m, init), last.0, last.1);
    }
  }

  /** Merging never lists a column twice. */
  lemma {:induction false} PutAllNoDuplicates(m: seq<Modifier>, ps: seq<Modifier>)
    requires NoDuplicates(Columns(m))
    ensures NoDuplicates(Columns(PutAll(m, ps)))
  {
    if ps != [] {
      var init, last := ps[..|ps| - 1], ps[|ps| - 1];
      PutAllNoDuplicates(m, init);
      PutColumns(PutAll(m, init), last.0, last.1);
    }
  }

  /** The map's columns are exactly the list's columns. */
  lemma {:induction false} AsMapKeys(m: seq<Modifier>)
    ensures AsMap(m).Keys == Elems(Columns(m))
  {
    if m != [] {
      var init, last := m[..|m| - 1], m[|m| - 1];
      assert m == init + [last];
      AsMapKeys(init);
      ColumnsSnoc(init, last);
    }
  }

  /** With distinct columns, entry i of the list is the map's value for column i. */
  lemma {:induction false} AsMapAt(m: seq<Modifier>, i: nat)
    requires NoDuplicates(Columns(m)) && i < |m|
    ensures m[i].0 in AsMap(m) && AsMap(m)[m[i].0] == m[i].1
  {
    var init, last := m[..|m| - 1], m[|m| - 1];
    assert m == init + [last];
    AsMapSnoc(init, last);
    if i < |m| - 1 {
      assert Columns(init) == Columns(m)[..|m| - 1];
      AsMapAt(init, i);
      assert m[i].0 != last.0 by { assert Columns(m)[i] != Columns(m)[|m| - 1]; }
    }
  }

  // ---------------------------------------------------------------------------------------
  // The builder calls as state transitions
  // ---------------------------------------------------------------------------------------

  /** `select()`: from UNDECIDED or SELECT, exactly `*` is selected. */
  function StepSelectAll(q: Query): (r: Result<Query>)
  {
    if q.mode == SELECT || q.mode == UNDECIDED then
      Ok(q.(mode := SELECT, selections := ["*"]))
    else Err(InvalidQueryState)
  }

  /**
   * `select(String[])` and `select(String)`: from UNDECIDED or SELECT the columns are added,
   * except that nothing changes once the first selected column is `*`.
   */
  function StepSelect(q: Query, cols: seq<string>): (r: Result<Query>)
  {
    if q.mode == SELECT || q.mode == UNDECIDED then
      if |q.selections| >= 1 && q.selections[0] == "*" then Ok(q)
      else Ok(q.(mode := SELECT, selections := AddAll(q.selections, cols)))
    else Err(InvalidQueryState)
  }

  /** `where`: legal in every mode; appends the comparisons in call order. */
  function StepWhere(q: Query, cs: seq<Comparator>): (r: Query)
  {
    q.(comparisons := q.comparisons + cs)
  }

  /** `insert`: UNDECIDED becomes INSERT; in INSERT or UPDATE the entries are merged. */
  function StepInsert(q: Query, ps: seq<Modifier>): (r: Result<Query>)
  {
    var mode := if q.mode == UNDECIDED then INSERT else q.mode;
    if mode == INSERT || mode == UPDATE then
      Ok(q.(mode := mode, modifiers := PutAll(q.modifiers, ps)))
    else Err(InvalidQueryState)
  }

  /** `update`: UNDECIDED becomes UPDATE, then the call proceeds as `insert`. */
  function StepUpdate(q: Query, ps: seq<Modifier>): (r: Result<Query>)
  {
    StepInsert(if q.mode == UNDECIDED then q.(mode := UPDATE) else q, ps)
  }

  /** `delete`: UNDECIDED becomes DELETE; legal again in DELETE and nowhere else. */
  function StepDelete(q: Query): (r: Result<Query>)
  {
    var mode := if q.mode == UNDECIDED then DELETE else q.mode;
    if mode == DELETE then Ok(q.(mode := DELETE)) else Err(InvalidQueryState)
  }

  /** The builder's invariant: the set and the map hold no duplicate column. */
  predicate WellFormed(q: Query)
  {
    NoDuplicates(q.selections) && NoDuplicates(Columns(q.modifiers))
  }

  /**
   * `equals` on two builders: same table, same set of selections, same comparisons in the
   * same order, same map of modifiers and same mode; the order of the set and the map does
   * not matter.
   */
  predicate Equivalent(ta: string, a: Query, tb: string, b: Query)
  {
    ta == tb && Elems(a.selections) == Elems(b.selections) && a.comparisons == b.comparisons
      && AsMap(a.modifiers) == AsMap(b.modifiers) && a.mode == b.mode
  }

  // ---------------------------------------------------------------------------------------
  // Rendering
  // ---------------------------------------------------------------------------------------

  /** The parts separated by ", ". */
  function Join(parts: seq<string>): string
  {
    if |parts| == 0 then ""
    else if |parts| == 1 then parts[0]
    else Join(parts[..|parts| - 1]) + ", " + parts[|parts| - 1]
  }

  lemma JoinOne(a: string)
    ensures Join([a]) == a
  {
  }

  lemma JoinTwo(a: string, b: string)
    ensures Join([a, b]) == a + ", " + b
  {
    assert [a, b][..1] == [a];
  }

  /** Every part followed by ", ": what the append loops build before the final trim. */
  function Terminated(parts: seq<string>): string
  {
    if parts == [] then "" else Terminated(parts[..|parts| - 1]) + parts[|parts| - 1] + ", "
  }

  lemma {:induction false} TerminatedIsJoin(parts: seq<string>)
    requires parts != []
    ensures Terminated(parts) == Join(parts) + ", "
  {
    if |parts| > 1 {
      TerminatedIsJoin(parts[..|parts| - 1]);
    } else {
      assert parts[..0] == [];
    }
  }

  lemma TerminatedStep(parts: seq<string>, i: nat)
    requires i < |parts|
    ensures Terminated(parts[..i + 1]) == Terminated(parts[..i]) + parts[i] + ", "
  {
    assert parts[..i + 1][..i] == parts[..i];
  }

  /** Deleting the last two characters of `x + ", "` leaves `x`. */
  lemma TrimSeparator(x: string)
    ensures (x + ", ")[..|x|] == x
  {
  }

  lemma AppendAssoc(a: string, b: string, c: string)
    ensures a + b + c == a + (b + c)
  {
  }

  /** One pass of a rendering loop: appending a part and ", " extends the terminated list by it. */
  lemma TerminatedAppend(head: string, parts: seq<string>, i: nat)
    requires i < |parts|
    ensures head + Terminated(parts[..i]) + parts[i] + ", " == head + Terminated(parts[..i + 1])
  {
    TerminatedStep(parts, i);
    AppendAssoc(head, Terminated(parts[..i]), parts[i]);
    AppendAssoc(head, Terminated(parts[..i]) + parts[i], ", ");
  }

  /** After a rendering loop: dropping the final ", " leaves the joined list. */
  lemma TrimTerminated(head: string, parts: seq<string>)
    requires parts != []
    ensures |head + Terminated(parts)| >= 2
    ensures (head + Terminated(parts))[..|head + Terminated(parts)| - 2] == head + Join(parts)
  {
    TerminatedIsJoin(parts);
    AppendAssoc(head, Join(parts), ", ");
    TrimSeparator(head + Join(parts));
  }

  function ComparisonTexts(cs: seq<Comparator>): (r: seq<string>)
    ensures |r| == |cs|
  {
    seq(|cs|, i requires 0 <= i < |cs| => ToString(cs[i]))
  }

  /** An INSERT value: quoted, and a null rendered as the quoted word NULL. */
  function InsertValue(v: Option<string>): string
  {
    "'" + (if v.Some? then v.value else "NULL") + "'"
  }

  function InsertValues(m: seq<Modifier>): (r: seq<string>)
    ensures |r| == |m|
  {
    seq(|m|, i requires 0 <= i < |m| => InsertValue(m[i].1))
  }

  /** An UPDATE assignment `c = 'v'`; a null is appended by StringBuilder as `null`. */
  function Assignment(x: Modifier): string
  {
    x.0 + " = '" + (if x.1.Some? then x.1.value else "null") + "'"
  }

  function Assignments(m: seq<Modifier>): (r: seq<string>)
    ensures |r| == |m|
  {
    seq(|m|, i requires 0 <= i < |m| => Assignment(m[i]))
  }

  /** The WHERE clause, omitted when there is no comparison; comparisons are joined by ", ". */
  function WhereSql(cs: seq<Comparator>): string
  {
    if cs == [] then "" else " WHERE " + Join(ComparisonTexts(cs))
  }

  /** The text `toSql` returns for state `q` and table `t`. */
  function Sql(t: string, q: Query): (r: string)
    ensures ModeName(q.mode) <= r
    ensures (q.mode == INSERT || q.mode == UPDATE) && q.modifiers == [] ==> r == ModeName(q.mode)
  {
    match q.mode
    case UNDECIDED => "UNDECIDED"
    case SELECT =>
      "SELECT" + (if q.selections == [] then "" else " " + Join(q.selections))
        + " FROM " + t + WhereSql(q.comparisons)
    case INSERT =>
      if q.modifiers == [] then "INSERT"
      else ("INSERT" + " INTO " + t + " (" + Join(Columns(q.modifiers)) + ") VALUES ("
        + Join(InsertValues(q.modifiers)) + ")")
    case UPDATE =>
      if q.modifiers == [] then "UPDATE"
      else "UPDATE" + " " + t + " SET " + Join(Assignments(q.modifiers)) + WhereSql(q.comparisons)
    case DELETE => "DELETE" + " FROM " + t + WhereSql(q.comparisons)
  }

  /** The state after `toSql`: INSERT or UPDATE without modifiers falls back to UNDECIDED. */
  function AfterSql(q: Query): Query
  {
    if (q.mode == INSERT || q.mode == UPDATE) && q.modifiers == [] then q.(mode := UNDECIDED)
    else q
  }

  // ---------------------------------------------------------------------------------------
  // The builder object
  // ---------------------------------------------------------------------------------------

  class QueryBuilder {
    const table: string
    var mode: QueryMode
    var selections: seq<string>
    var comparisons: seq<Comparator>
    var modifiers: seq<Modifier>

    ghost function State(): Query
      reads this
    {
      Query(mode, selections, comparisons, modifiers)
    }

    ghost predicate Valid()
      reads this
    {
      WellFormed(State())
    }

    /** A builder for `table`, UNDECIDED and with empty collections. */
    constructor (table: string)
      ensures Valid()
      ensures this.table == table && State() == Initial
    {
      this.table := table;
      mode := UNDECIDED;
      selections := [];
      comparisons := [];
      modifiers := [];
    }

    /** `equals`: the builders are the same object or hold equivalent states. */
    function Equals(other: QueryBuilder): (r: bool)
      reads this, other
      ensures this == other ==> r
      ensures r <==> Equivalent(table, State(), other.table, other.State())
    {
      this == other ||
        (table == other.table && Elems(selections) == Elems(other.selections)
          && comparisons == other.comparisons && AsMap(modifiers) == AsMap(other.modifiers)
          && mode == other.mode)
    }

    /** `toSql`: renders the state, dropping an INSERT or UPDATE without modifiers to UNDECIDED. */
    method ToSql() returns (sql: string)
      requires Valid()
      modifies this
      ensures Valid()
      ensures sql == Sql(table, old(State()))
      ensures State() == AfterSql(old(State()))
    {
      sql := ModeName(mode);
      if mode != UNDECIDED {
        if mode == SELECT {
          sql := AppendSelect(sql);
        }
        if mode == INSERT {
          sql := AppendInsert(sql);
        }
        if mode == UPDATE {
          sql := AppendUpdate(sql);
        }
        if mode == DELETE {
          sql := AppendDelete(sql);
        }
      }
    }

    /** `comparisonsSql`. */
    method AppendComparisons(sql: string) returns (out: string)
      ensures out == sql + WhereSql(comparisons)
    {
      out := sql;
      if |comparisons| != 0 {
        var head := out + " WHERE ";
        out := head;
        ghost var texts := ComparisonTexts(comparisons);
        var i := 0;
        while i < |comparisons|
          invariant 0 <= i <= |comparisons|
          invariant out == head + Terminated(texts[..i])
        {
          var text := ToString(comparisons[i]);
          assert text == texts[i];
          TerminatedAppend(head, texts, i);
          out := out + text + ", ";
          i := i + 1;
        }
        assert texts[..i] == texts;
        TrimTerminated(head, texts);
        out := out[..|out| - 2];
        AppendAssoc(sql, " WHERE ", Join(texts));
      }
    }

    /** `selectSql`. */
    method AppendSelect(sql: string) returns (out: string)
      ensures out == sql + (if selections == [] then "" else " " + Join(selections))
                    + " FROM " + table + WhereSql(comparisons)
    {
      out := sql;
      if |selections| != 0 {
        var head := out + " ";
        out := head;
        var i := 0;
        while i < |selections|
          invariant 0 <= i <= |selections|
          invariant out == head + Terminated(selections[..i])
        {
          TerminatedAppend(head, selections, i);
          out := out + selections[i] + ", ";
          i := i + 1;
        }
        assert selections[..i] == selections;
        TrimTerminated(head, selections);
        out := out[..|out| - 2];
        AppendAssoc(sql, " ", Join(selections));
      }
      out := out + " FROM " + table;
      out := AppendComparisons(out);
    }

    /** `insertSql`: the column list and the value list come from the same modifiers, in order. */
    method AppendInsert(sql: string) returns (out: string)
      requires Valid() && mode == INSERT
      modifies this
      ensures Valid()
      ensures modifiers == [] ==> out == sql && State() == old(State()).(mode := UNDECIDED)
      ensures modifiers != [] ==> (State() == old(State()) &&
        out == sql + " INTO " + table + " (" + Join(Columns(modifiers)) + ") VALUES ("
          + Join(InsertValues(modifiers)) + ")")
    {
      out := sql;
      if |modifiers| != 0 {
        out := AppendColumnList(out + " INTO " + table + " (");
        out := AppendValueList(out + ") VALUES (");
        out := out + ")";
      } else {
        mode := UNDECIDED;
      }
    }

    /** The column half of `insertSql`: each column and ", ", then the last separator dropped. */
    method AppendColumnList(head: string) returns (out: string)
      requires modifiers != []
      ensures out == head + Join(Columns(modifiers))
    {
      out := head;
      ghost var cols := Columns(modifiers);
      var i := 0;
      while i < |modifiers|
        invariant 0 <= i <= |modifiers|
        invariant out == head + Terminated(cols[..i])
      {
        assert cols[i] == modifiers[i].0;
        TerminatedAppend(head, cols, i);
        out := out + modifiers[i].0 + ", ";
        i := i + 1;
      }
      assert cols[..i] == cols;
      TrimTerminated(head, cols);
      out := out[..|out| - 2];
    }

    /** The value half of `insertSql`: each value quoted, a null written as `'NULL'`. */
    method AppendValueList(head: string) returns (out: string)
      requires modifiers != []
      ensures out == head + Join(InsertValues(modifiers))
    {
      out := head;
      ghost var vals := InsertValues(modifiers);
      var i := 0;
      while i < |modifiers|
        invariant 0 <= i <= |modifiers|
        invariant out == head + Terminated(vals[..i])
      {
        var x := if modifiers[i].1 == None then "NULL" else modifiers[i].1.value;
        var text := "'" + x + "'";
        assert text == vals[i];
        TerminatedAppend(head, vals, i);
        out := out + text + ", ";
        i := i + 1;
      }
      assert vals[..i] == vals;
      TrimTerminated(head, vals);
      out := out[..|out| - 2];
    }

    /** `updateSql`. */
    method AppendUpdate(sql: string) returns (out: string)
      requires Valid() && mode == UPDATE
      modifies this
      ensures Valid()
      ensures modifiers == [] ==> out == sql && State() == old(State()).(mode := UNDECIDED)
      ensures modifiers != [] ==> (State() == old(State()) &&
        out == sql + " " + table + " SET " + Join(Assignments(modifiers)) + WhereSql(comparisons))
    {
      out := sql;
      if |modifiers| != 0 {
        out := AppendAssignmentList(out + " " + table + " SET ");
        out := AppendComparisons(out);
      } else {
        mode := UNDECIDED;
      }
    }

    /** The SET list of `updateSql`: `column = 'value'` per entry, a null written as `'null'`. */
    method AppendAssignmentList(head: string) returns (out: string)
      requires modifiers != []
      ensures out == head + Join(Assignments(modifiers))
    {
      out := head;
      ghost var texts := Assignments(modifiers);
      var i := 0;
      while i < |modifiers|
        invariant 0 <= i <= |modifiers|
        invariant out == head + Terminated(texts[..i])
      {
        var x := if modifiers[i].1 == None then "null" else modifiers[i].1.value;
        var text := modifiers[i].0 + " = '" + x + "'";
        assert text == texts[i];
        TerminatedAppend(head, texts, i);
        out := out + text + ", ";
        i := i + 1;
      }
      assert texts[..i] == texts;
      TrimTerminated(head, texts);
      out := out[..|out| - 2];
    }

    /** `deleteSql`. */
    method AppendDelete(sql: string) returns (out: string)
      ensures out == sql + " FROM " + table + WhereSql(comparisons)
    {
      out := sql + " FROM " + table;
      out := AppendComparisons(out);
    }

    /** `select(String[])`. */
    method SelectColumns(cols: seq<string>) returns (r: Outcome)
      requires Valid()
      modifies this
      ensures Valid()
      ensures StepSelect(old(State()), cols).Ok? ==>
                r == Pass && State() == StepSelect(old(State()), cols).value
      ensures StepSelect(old(State()), cols).Err? ==>
                r == Fail(InvalidQueryState) && State() == old(State())
    {
      if mode == SELECT || mode == UNDECIDED {
        if |selections| >= 1 && selections[0] == "*" {
          return Pass;
        }
        mode := SELECT;
        selections := AddAll(selections, cols);
        r := Pass;
      } else {
        r := Fail(InvalidQueryState);
      }
    }

    /** `select(String)`. */
    method SelectColumn(col: string) returns (r: Outcome)
      requires Valid()
      modifies this
      ensures Valid()
      ensures StepSelect(old(State()), [col]).Ok? ==>
                r == Pass && State() == StepSelect(old(State()), [col]).value
      ensures StepSelect(old(State()), [col]).Err? ==>
                r == Fail(InvalidQueryState) && State() == old(State())
    {
      if mode == SELECT || mode == UNDECIDED {
        if |selections| >= 1 && selections[0] == "*" {
          return Pass;
        }
        mode := SELECT;
        assert AddAll(selections, [col]) == Add(selections, col) by {
          assert [col][..0] == [];
        }
        selections := Add(selections, col);
        r := Pass;
      } else {
        r := Fail(InvalidQueryState);
      }
    }

    /** `select()`. */
    method SelectAll() returns (r: Outcome)
      requires Valid()
      modifies this
      ensures Valid()
      ensures StepSelectAll(old(State())).Ok? ==>
                r == Pass && State() == StepSelectAll(old(State())).value
      ensures StepSelectAll(old(State())).Err? ==>
                r == Fail(InvalidQueryState) && State() == old(State())
    {
      if mode == SELECT || mode == UNDECIDED {
        mode := SELECT;
        selections := [];
        selections := Add(selections, "*");
        r := Pass;
      } else {
        r := Fail(InvalidQueryState);
      }
    }

    /** `get`: renders, submits, and resets only when the store accepted the statement. */
    method Get(store: Store) returns (r: Result<seq<Row>>)
      requires Valid()
      modifies this, store
      ensures Valid()
      ensures store.log == old(store.log) + [Sql(table, old(State()))]
      ensures store.answer(Sql(table, old(State()))).Rows? ==>
                r == Ok(store.answer(Sql(table, old(State()))).rows) && State() == Initial
      ensures store.answer(Sql(table, old(State()))).Failed? ==>
                r == Err(UncheckedSql) && State() == AfterSql(old(State()))
    {
      var sql := ToSql();
      var response := store.Submit(sql);
      if response.Failed? {
        return Err(UncheckedSql);
      }
      Reset();
      r := Ok(response.rows);
    }

    /** `execute`: as `get`, without returning rows. */
    method Execute(store: Store) returns (r: Outcome)
      requires Valid()
      modifies this, store
      ensures Valid()
      ensures store.log == old(store.log) + [Sql(table, old(State()))]
      ensures store.answer(Sql(table, old(State()))).Rows? ==> r == Pass && State() == Initial
      ensures store.answer(Sql(table, old(State()))).Failed? ==>
                r == Fail(UncheckedSql) && State() == AfterSql(old(State()))
    {
      var sql := ToSql();
      var response := store.Submit(sql);
      if response.Failed? {
        return Fail(UncheckedSql);
      }
      Reset();
      r := Pass;
    }

    /** `where(Comparator)`. */
    method Where(c: Comparator)
      requires Valid()
      modifies this
      ensures Valid()
      ensures State() == StepWhere(old(State()), [c])
    {
      comparisons := comparisons + [c];
    }

    /** `where(Comparator[])`. */
    method WhereAll(cs: seq<Comparator>)
      requires Valid()
      modifies this
      ensures Valid()
      ensures State() == StepWhere(old(State()), cs)
    {
      comparisons := comparisons + cs;
    }

    /** `where(String, String)`: an equality comparison. */
    method WhereEq(lhs: string, rhs: string)
      requires Valid()
      modifies this
      ensures Valid()
      ensures State() == StepWhere(old(State()), [EQ(lhs, rhs)])
    {
      Where(EQ(lhs, rhs));
    }

    /** `reset`: empty collections and UNDECIDED. */
    method Reset()
      modifies this
      ensures Valid()
      ensures State() == Initial
    {
      selections := [];
      modifiers := [];
      comparisons := [];
      mode := UNDECIDED;
    }

    /** `insert(Map)`: merges every entry, in the map's order. */
    method InsertAll(ps: seq<Modifier>) returns (r: Outcome)
      requires Valid()
      modifies this
      ensures Valid()
      ensures StepInsert(old(State()), ps).Ok? ==>
                r == Pass && State() == StepInsert(old(State()), ps).value
      ensures StepInsert(old(State()), ps).Err? ==>
                r == Fail(InvalidQueryState) && State() == old(State())
    {
      if mode == UNDECIDED {
        mode := INSERT;
      }
      if mode == INSERT || mode == UPDATE {
        var i := 0;
        while i < |ps|
          invariant 0 <= i <= |ps|
          invariant modifiers == PutAll(old(modifiers), ps[..i])
          invariant NoDuplicates(Columns(modifiers))
          invariant mode == StepInsert(old(State()), ps).value.mode
          invariant selections == old(selections) && comparisons == old(comparisons)
        {
          assert ps[..i + 1][..i] == ps[..i];
          PutAllNoDuplicates(old(modifiers), ps[..i + 1]);
          modifiers := Put(modifiers, ps[i].0, ps[i].1);
          i := i + 1;
        }
        assert ps[..i] == ps;
        r := Pass;
      } else {
        r := Fail(InvalidQueryState);
      }
    }

    /** `insert(String, String)`. */
    method Insert(column: string, value: Option<string>) returns (r: Outcome)
      requires Valid()
      modifies this
      ensures Valid()
      ensures StepInsert(old(State()), [(column, value)]).Ok? ==>
                r == Pass && State() == StepInsert(old(State()), [(column, value)]).value
      ensures StepInsert(old(State()), [(column, value)]).Err? ==>
                r == Fail(InvalidQueryState) && State() == old(State())
    {
      if mode == UNDECIDED {
        mode := INSERT;
      }
      if mode == INSERT || mode == UPDATE {
        assert PutAll(modifiers, [(column, value)]) == Put(modifiers, column, value) by {
          assert [(column, value)][..0] == [];
        }
        PutAllNoDuplicates(modifiers, [(column, value)]);
        modifiers := Put(modifiers, column, value);
        r := Pass;
      } else {
        r := Fail(InvalidQueryState);
      }
    }

    /** `update(String, String)`. */
    method Update(column: string, value: Option<string>) returns (r: Outcome)
      requires Valid()
      modifies this
      ensures Valid()
      ensures StepUpdate(old(State()), [(column, value)]).Ok? ==>
                r == Pass && State() == StepUpdate(old(State()), [(column, value)]).value
      ensures StepUpdate(old(State()), [(column, value)]).Err? ==>
                r == Fail(InvalidQueryState) && State() == old(State())
    {
      if mode == UNDECIDED {
        mode := UPDATE;
      }
      r := Insert(column, value);
    }

    /** `update(Map)`. */
    method UpdateAll(ps: seq<Modifier>) returns (r: Outcome)
      requires Valid()
      modifies this
      ensures Valid()
      ensures StepUpdate(old(State()), ps).Ok? ==>
                r == Pass && State() == StepUpdate(old(State()), ps).value
      ensures StepUpdate(old(State()), ps).Err? ==>
                r == Fail(InvalidQueryState) && State() == old(State())
    {
      if mode == UNDECIDED {
        mode := UPDATE;
      }
      r := InsertAll(ps);
    }

    /** `delete()`. */
    method Delete() returns (r: Outcome)
      requires Valid()
      modifies this
      ensures Valid()
      ensures StepDelete(old(State())).Ok? ==>
                r == Pass && State() == StepDelete(old(State())).value
      ensures StepDelete(old(State())).Err? ==>
                r == Fail(InvalidQueryState) && State() == old(State())
    {
      if mode == UNDECIDED {
        mode := DELETE;
      }
      if mode != DELETE {
        return Fail(InvalidQueryState);
      }
      r := Pass;
    }
  }
}
