/**
 * Laws of the query builder, stated on its state transitions and its rendering: which calls
 * are legal in which mode, how `select()` overrides and absorbs column selections, how
 * modifications merge, which orders of calls give equal builders, and the SQL texts of the
 * builder's own usage examples.
 */
module QueryLaws {
  import opened Wrappers
  import opened Comparators
  import opened Queries

  /** A column selection is legal exactly while the builder is undecided or selecting. */
  lemma SelectLegality(q: Query, cols: seq<string>)
    ensures StepSelect(q, cols).Ok? <==> q.mode == UNDECIDED || q.mode == SELECT
    ensures StepSelectAll(q).Ok? <==> q.mode == UNDECIDED || q.mode == SELECT
    ensures StepSelect(q, cols).Ok? ==>
              StepSelect(q, cols).value.mode == SELECT || StepSelect(q, cols).value == q
  {
  }

  /** Modifications are legal while undecided, inserting or updating, and nowhere else. */
  lemma ModifyLegality(q: Query, ps: seq<Modifier>)
    ensures StepInsert(q, ps).Ok? <==> q.mode in {UNDECIDED, INSERT, UPDATE}
    ensures StepUpdate(q, ps).Ok? <==> q.mode in {UNDECIDED, INSERT, UPDATE}
    ensures StepInsert(q, ps).Ok? && q.mode == UNDECIDED ==> StepInsert(q, ps).value.mode == INSERT
    ensures StepUpdate(q, ps).Ok? && q.mode == UNDECIDED ==> StepUpdate(q, ps).value.mode == UPDATE
  {
  }

  /** `delete()` is legal while undecided or already deleting. */
  lemma DeleteLegality(q: Query)
    ensures StepDelete(q).Ok? <==> q.mode == UNDECIDED || q.mode == DELETE
    ensures StepDelete(q).Ok? ==> StepDelete(q).value == q.(mode := DELETE)
  {
  }

  /**
   * A decided mode sticks: no accepted call changes it, and a call that would need a
   * different mode is refused. Only `reset` (and `toSql` on an empty INSERT or UPDATE)
   * returns the builder to UNDECIDED.
   */
  lemma CommittedModeSticks(q: Query, cols: seq<string>, cs: seq<Comparator>, ps: seq<Modifier>)
    requires q.mode != UNDECIDED
    ensures StepSelect(q, cols).Ok? ==> StepSelect(q, cols).value.mode == q.mode
    ensures StepSelectAll(q).Ok? ==> StepSelectAll(q).value.mode == q.mode
    ensures StepWhere(q, cs).mode == q.mode
    ensures StepInsert(q, ps).Ok? ==> StepInsert(q, ps).value.mode == q.mode
    ensures StepUpdate(q, ps).Ok? ==> StepUpdate(q, ps).value.mode == q.mode
    ensures StepDelete(q).Ok? ==> StepDelete(q).value.mode == q.mode
  {
  }

  /** `where` adds comparisons and touches nothing else, in every mode. */
  lemma WhereOnlyAppends(q: Query, cs: seq<Comparator>)
    ensures StepWhere(q, cs).comparisons[..|q.comparisons|] == q.comparisons
    ensures StepWhere(q, cs).comparisons[|q.comparisons|..] == cs
    ensures StepWhere(q, cs).(comparisons := q.comparisons) == q
  {
  }

  /** Once `*` is selected, further column selections change nothing. */
  lemma SelectAllAbsorbs(q: Query, cols: seq<string>)
    requires StepSelectAll(q).Ok?
    ensures StepSelect(StepSelectAll(q).value, cols) == StepSelectAll(q)
    ensures StepSelectAll(StepSelectAll(q).value) == StepSelectAll(q)
  {
  }

  /** `select()` discards columns selected before it. */
  lemma SelectAllOverrides(q: Query, cols: seq<string>)
    requires StepSelect(q, cols).Ok?
    ensures StepSelectAll(StepSelect(q, cols).value) == StepSelectAll(q)
  {
  }

  /** A column selection adds its columns to the set, each column once. */
  lemma SelectAddsColumns(q: Query, cols: seq<string>)
    requires StepSelect(q, cols).Ok? && WellFormed(q)
    requires q.selections == [] || q.selections[0] != "*"
    ensures Elems(StepSelect(q, cols).value.selections) == Elems(q.selections) + Elems(cols)
    ensures NoDuplicates(StepSelect(q, cols).value.selections)
  {
  }

  /** Adding columns that are all selected already changes nothing. */
  lemma {:induction false} AddAllPresent(s: seq<string>, xs: seq<string>)
    requires forall i :: 0 <= i < |xs| ==> xs[i] in s
    ensures AddAll(s, xs) == s
  {
    if xs != [] {
      AddAllPresent(s, xs[..|xs| - 1]);
    }
  }

  /** Selecting the same columns twice is selecting them once (set semantics). */
  lemma {:induction false} SelectTwice(q: Query, cols: seq<string>)
    requires StepSelect(q, cols).Ok?
    ensures StepSelect(StepSelect(q, cols).value, cols) == StepSelect(q, cols)
  {
    if !(|q.selections| >= 1 && q.selections[0] == "*") {
      var once := AddAll(q.selections, cols);
      forall i | 0 <= i < |cols|
        ensures cols[i] in once
      {
        assert cols[i] in Elems(cols);
      }
      AddAllPresent(once, cols);
    }
  }

  /**
   * `insert` and `update` merge like `Map.put`: the new map is the old one overridden by the
   * given entries, and no column is listed twice.
   */
  lemma {:induction false} ModifyMerges(q: Query, ps: seq<Modifier>)
    requires StepInsert(q, ps).Ok? && WellFormed(q)
    ensures AsMap(StepInsert(q, ps).value.modifiers) == AsMap(q.modifiers) + AsMap(ps)
    ensures WellFormed(StepInsert(q, ps).value)
  {
    PutAllAsMap(q.modifiers, ps);
    PutAllNoDuplicates(q.modifiers, ps);
  }

  /** Every accepted call keeps the builder's collections free of duplicate columns. */
  lemma {:induction false} StepsKeepWellFormed(q: Query, cols: seq<string>, cs: seq<Comparator>, ps: seq<Modifier>)
    requires WellFormed(q)
    ensures StepSelect(q, cols).Ok? ==> WellFormed(StepSelect(q, cols).value)
    ensures StepSelectAll(q).Ok? ==> WellFormed(StepSelectAll(q).value)
    ensures WellFormed(StepWhere(q, cs))
    ensures StepInsert(q, ps).Ok? ==> WellFormed(StepInsert(q, ps).value)
    ensures StepUpdate(q, ps).Ok? ==> WellFormed(StepUpdate(q, ps).value)
    ensures StepDelete(q).Ok? ==> WellFormed(StepDelete(q).value)
    ensures WellFormed(AfterSql(q))
  {
    if StepInsert(q, ps).Ok? {
      PutAllNoDuplicates(q.modifiers, ps);
    }
    if StepUpdate(q, ps).Ok? {
      PutAllNoDuplicates(q.modifiers, ps);
    }
  }

  /** `equals` is an equivalence relation. */
  lemma EquivalentIsEquivalence(ta: string, a: Query, tb: string, b: Query, tc: string, c: Query)
    ensures Equivalent(ta, a, ta, a)
    ensures Equivalent(ta, a, tb, b) ==> Equivalent(tb, b, ta, a)
    ensures Equivalent(ta, a, tb, b) && Equivalent(tb, b, tc, c) ==> Equivalent(ta, a, tc, c)
  {
  }

  /**
   * Selecting two columns one after the other gives an equal builder in either order, as
   * long as neither is `*` (a first `*` makes the second selection a no-op).
   */
  lemma {:induction false} SelectOrderIrrelevant(t: string, q: Query, x: string, y: string)
    requires StepSelect(q, [x]).Ok? && x != "*" && y != "*"
    ensures StepSelect(StepSelect(q, [x]).value, [y]).Ok?
    ensures StepSelect(StepSelect(q, [y]).value, [x]).Ok?
    ensures Equivalent(t, StepSelect(StepSelect(q, [x]).value, [y]).value,
                       t, StepSelect(StepSelect(q, [y]).value, [x]).value)
  {
    if q.selections == [] || q.selections[0] != "*" {
      SelectOne(q, x);
      SelectOne(q, y);
      var qx, qy := StepSelect(q, [x]).value, StepSelect(q, [y]).value;
      SelectOne(qx, y);
      SelectOne(qy, x);
      var qxy, qyx := StepSelect(qx, [y]).value, StepSelect(qy, [x]).value;
      assert Elems(qxy.selections) == Elems(q.selections) + {x} + {y};
      assert Elems(qyx.selections) == Elems(q.selections) + {y} + {x};
    }
  }

  /** One selected column other than `*`, while no `*` leads: an `add` that keeps `*` out of front. */
  lemma SelectOne(q: Query, x: string)
    requires q.mode == SELECT || q.mode == UNDECIDED
    requires q.selections == [] || q.selections[0] != "*"
    requires x != "*"
    ensures StepSelect(q, [x]) == Ok(q.(mode := SELECT, selections := Add(q.selections, x)))
    ensures StepSelect(q, [x]).value.selections != []
    ensures StepSelect(q, [x]).value.selections[0] != "*"
  {
    AddAllSingleton(q.selections, x);
    if q.selections == [] {
      assert Add([], x) == [x];
    }
  }

  /**
   * Modifying two different columns one after the other gives an equal builder in either
   * order: the map does not remember which entry came first.
   */
  lemma {:induction false} InsertOrderIrrelevant(t: string, q: Query, a: Modifier, b: Modifier)
    requires StepInsert(q, [a]).Ok? && a.0 != b.0
    ensures StepInsert(StepInsert(q, [a]).value, [b]).Ok?
    ensures StepInsert(StepInsert(q, [b]).value, [a]).Ok?
    ensures Equivalent(t, StepInsert(StepInsert(q, [a]).value, [b]).value,
                       t, StepInsert(StepInsert(q, [b]).value, [a]).value)
  {
    var qab := StepInsert(StepInsert(q, [a]).value, [b]).value;
    var qba := StepInsert(StepInsert(q, [b]).value, [a]).value;
    assert qab.modifiers == PutAll(PutAll(q.modifiers, [a]), [b]);
    assert qba.modifiers == PutAll(PutAll(q.modifiers, [b]), [a]);
    SwapPuts(q.modifiers, a, b);
  }

  /** Two puts of different columns leave the same map in either order. */
  lemma SwapPuts(m: seq<Modifier>, a: Modifier, b: Modifier)
    requires a.0 != b.0
    ensures AsMap(PutAll(PutAll(m, [a]), [b])) == AsMap(PutAll(PutAll(m, [b]), [a]))
  {
    PutAllSingleton(m, a);
    PutAllSingleton(m, b);
    PutAllSingleton(Put(m, a.0, a.1), b);
    PutAllSingleton(Put(m, b.0, b.1), a);
    PutAsMap(m, a.0, a.1);
    PutAsMap(m, b.0, b.1);
    PutAsMap(Put(m, a.0, a.1), b.0, b.1);
    PutAsMap(Put(m, b.0, b.1), a.0, a.1);
    MapSwap(AsMap(m), a.0, a.1, b.0, b.1);
  }

  /** Updates of two different keys commute. */
  lemma MapSwap<K, V>(m: map<K, V>, x: K, u: V, y: K, w: V)
    requires x != y
    ensures m[x := u][y := w] == m[y := w][x := u]
  {
  }

  /** A fresh builder renders as its mode's name alone. */
  lemma FreshRendering(t: string)
    ensures Sql(t, Initial) == "UNDECIDED"
    ensures AfterSql(Initial) == Initial
  {
  }

  /** `select()` on a fresh (or reset) builder selects every column of the table. */
  lemma SelectAllRendering(t: string)
    ensures StepSelectAll(Initial).Ok?
    ensures Sql(t, StepSelectAll(Initial).value) == "SELECT * FROM " + t
  {
  }

  /** Replacing both literal halves around the table name by their spelled-out texts. */
  lemma SpellOut(head: string, head': string, tail: string, tail': string, t: string)
    requires head == head' && tail == tail'
    ensures head + t + tail == head' + t + tail'
  {
  }

  /** Moving a right-nested clause onto a left-nested text. */
  lemma Regroup(x: string, w: string, a: string, s: string, b: string)
    ensures x + (w + (a + s + b)) == x + w + a + s + b
  {
    AppendAssoc(x, w, a + s + b);
    AppendAssoc(x + w, a + s, b);
    AppendAssoc(x + w, a, s);
  }

  /** `select("test1").select("test2")` lists both columns in call order. */
  lemma {:induction false} RepeatSelectRendering(t: string)
    ensures StepSelect(Initial, ["test1"]).Ok?
    ensures StepSelect(StepSelect(Initial, ["test1"]).value, ["test2"]).Ok?
    ensures Sql(t, StepSelect(StepSelect(Initial, ["test1"]).value, ["test2"]).value)
              == "SELECT test1, test2 FROM " + t
  {
    RepeatSelectState();
    TwoColumnSelectSql(t);
  }

  lemma RepeatSelectState()
    ensures StepSelect(Initial, ["test1"]).Ok?
    ensures StepSelect(StepSelect(Initial, ["test1"]).value, ["test2"])
              == Ok(Query(SELECT, ["test1", "test2"], [], []))
  {
    OneColumnSelectState();
    AddAllSingleton(["test1"], "test2");
    assert Add(["test1"], "test2") == ["test1", "test2"];
  }

  lemma TwoColumnSelectSql(t: string)
    ensures Sql(t, Query(SELECT, ["test1", "test2"], [], [])) == "SELECT test1, test2 FROM " + t
  {
    JoinTwo("test1", "test2");
    var head := "SELECT" + " " + "test1, test2" + " FROM ";
    assert Sql(t, Query(SELECT, ["test1", "test2"], [], [])) == head + t + "";
    SelectTexts();
    SpellOut(head, "SELECT test1, test2 FROM ", "", "", t);
  }

  /** The literal pieces of the two-column example, spelled out. */
  lemma SelectTexts()
    ensures "SELECT" + " " + "test1, test2" + " FROM " == "SELECT test1, test2 FROM "
  {
  }

  /** `select("test1")` on a fresh builder renders the one column. */
  lemma {:induction false} SingleSelectRendering(t: string)
    ensures StepSelect(Initial, ["test1"]).Ok?
    ensures Sql(t, StepSelect(Initial, ["test1"]).value) == "SELECT test1 FROM " + t
  {
    OneColumnSelectState();
    JoinOne("test1");
    var head := "SELECT" + " " + "test1" + " FROM ";
    assert Sql(t, Query(SELECT, ["test1"], [], [])) == head + t + "";
    SingleSelectText();
    SpellOut(head, "SELECT test1 FROM ", "", "", t);
  }

  /** The literal pieces of the one-column example, spelled out. */
  lemma SingleSelectText()
    ensures "SELECT" + " " + "test1" + " FROM " == "SELECT test1 FROM "
  {
  }

  /** `select("test1")` on a fresh builder. */
  lemma OneColumnSelectState()
    ensures StepSelect(Initial, ["test1"]) == Ok(Query(SELECT, ["test1"], [], []))
  {
    AddAllSingleton([], "test1");
    assert Add([], "test1") == ["test1"];
  }

  /** One selected column and two comparisons, for any comparisons. */
  lemma TwoComparisonSql(t: string, a: Comparator, b: Comparator)
    ensures Sql(t, Query(SELECT, ["test1"], [a, b], []))
              == "SELECT test1 FROM " + t + " WHERE " + ToString(a) + ", " + ToString(b)
  {
    assert ComparisonTexts([a, b]) == [ToString(a), ToString(b)];
    JoinTwo(ToString(a), ToString(b));
    JoinOne("test1");
    var head := "SELECT" + (" " + "test1") + " FROM ";
    assert head == "SELECT test1 FROM ";
    Regroup(head + t, " WHERE ", ToString(a), ", ", ToString(b));
  }

  lemma LikeText()
    ensures ToString(LIKE("test1", "%v*vrienden%")) == "test1 LIKE '%v*vrienden%'"
  {
    LikeHalves();
    AppendAssoc("test1 LIKE '", "%v*vrienden%", "'");
  }

  lemma LikeHalves()
    ensures "test1" + " LIKE '" == "test1 LIKE '"
    ensures "%v*vrienden%" + "'" == "%v*vrienden%'"
    ensures "test1 LIKE '" + "%v*vrienden%'" == "test1 LIKE '%v*vrienden%'"
  {
  }

  lemma GreaterText()
    ensures ToString(GT("test2", "abc")) == "test2 > 'abc'"
  {
  }

  /** Comparisons render in call order after WHERE, separated by ", ". */
  lemma {:induction false} SelectByRepeatCompareRendering(t: string)
    ensures StepSelect(Initial, ["test1"]).Ok?
    ensures Sql(t, StepWhere(StepSelect(Initial, ["test1"]).value,
                            [LIKE("test1", "%v*vrienden%"), GT("test2", "abc")]))
              == "SELECT test1 FROM " + t + " WHERE " + "test1 LIKE '%v*vrienden%'" + ", " + "test2 > 'abc'"
  {
    OneColumnSelectState();
    var a, b := LIKE("test1", "%v*vrienden%"), GT("test2", "abc");
    assert StepWhere(Query(SELECT, ["test1"], [], []), [a, b]) == Query(SELECT, ["test1"], [a, b], []);
    TwoComparisonSql(t, a, b);
    LikeText();
    GreaterText();
  }

  /** A fresh builder after one `insert` or one `update` of a single entry. */
  lemma OneModifierState(p: Modifier)
    ensures StepInsert(Initial, [p]) == Ok(Query(INSERT, [], [], [p]))
    ensures StepUpdate(Initial, [p]) == Ok(Query(UPDATE, [], [], [p]))
  {
    PutAllSingleton([], p);
    assert Put([], p.0, p.1) == [p];
  }

  /** A one-entry INSERT, for any entry. */
  lemma OneInsertSql(t: string, p: Modifier)
    ensures Sql(t, Query(INSERT, [], [], [p]))
              == "INSERT INTO " + t + " (" + p.0 + ") VALUES (" + InsertValue(p.1) + ")"
  {
    assert Columns([p]) == [p.0];
    assert InsertValues([p]) == [InsertValue(p.1)];
    JoinOne(p.0);
    JoinOne(InsertValue(p.1));
    assert "INSERT" + " INTO " == "INSERT INTO ";
  }

  /** A one-entry UPDATE without comparisons, for any entry. */
  lemma OneUpdateSql(t: string, p: Modifier)
    ensures Sql(t, Query(UPDATE, [], [], [p])) == "UPDATE " + t + " SET " + Assignment(p)
  {
    assert Assignments([p]) == [Assignment(p)];
    JoinOne(Assignment(p));
    assert "UPDATE" + " " == "UPDATE ";
  }

  /** `insert("test1", "Hallo")` renders a one-column INSERT with the value quoted. */
  lemma {:induction false} SimpleInsertionRendering(t: string)
    ensures StepInsert(Initial, [("test1", Some("Hallo"))]).Ok?
    ensures Sql(t, StepInsert(Initial, [("test1", Some("Hallo"))]).value)
              == "INSERT INTO " + t + " (" + "test1" + ") VALUES (" + "'Hallo'" + ")"
  {
    OneModifierState(("test1", Some("Hallo")));
    OneInsertSql(t, ("test1", Some("Hallo")));
    assert InsertValue(Some("Hallo")) == "'Hallo'";
  }

  /** A null INSERT value is written as the quoted word NULL, but a null UPDATE value as `'null'`. */
  lemma {:induction false} NullRendering(t: string)
    ensures StepInsert(Initial, [("test1", None)]).Ok?
    ensures Sql(t, StepInsert(Initial, [("test1", None)]).value)
              == "INSERT INTO " + t + " (" + "test1" + ") VALUES (" + "'NULL'" + ")"
    ensures StepUpdate(Initial, [("test1", None)]).Ok?
    ensures Sql(t, StepUpdate(Initial, [("test1", None)]).value)
              == "UPDATE " + t + " SET " + "test1 = 'null'"
  {
    OneModifierState(("test1", None));
    OneInsertSql(t, ("test1", None));
    OneUpdateSql(t, ("test1", None));
    assert InsertValue(None) == "'NULL'";
    assert Assignment(("test1", None)) == "test1 = 'null'";
  }

  /** `update("test1", "new value").where("test1", "hallo")`. */
  lemma {:induction false} UpdateAndCompareRendering(t: string)
    ensures StepUpdate(Initial, [("test1", Some("new value"))]).Ok?
    ensures Sql(t, StepWhere(StepUpdate(Initial, [("test1", Some("new value"))]).value,
                            [EQ("test1", "hallo")]))
              == "UPDATE " + t + " SET " + "test1 = 'new value'" + " WHERE " + "test1 = 'hallo'"
  {
    var p, c := ("test1", Some("new value")), EQ("test1", "hallo");
    OneModifierState(p);
    assert StepWhere(Query(UPDATE, [], [], [p]), [c]) == Query(UPDATE, [], [c], [p]);
    UpdateWhereSql(t, p, c);
    UpdateExampleTexts();
  }

  lemma UpdateExampleTexts()
    ensures Assignment(("test1", Some("new value"))) == "test1 = 'new value'"
    ensures ToString(EQ("test1", "hallo")) == "test1 = 'hallo'"
  {
  }

  /** A one-entry UPDATE with one comparison, for any entry and comparison. */
  lemma UpdateWhereSql(t: string, p: Modifier, c: Comparator)
    ensures Sql(t, Query(UPDATE, [], [c], [p]))
              == "UPDATE " + t + " SET " + Assignment(p) + " WHERE " + ToString(c)
  {
    assert Assignments([p]) == [Assignment(p)];
    JoinOne(Assignment(p));
    assert ComparisonTexts([c]) == [ToString(c)];
    JoinOne(ToString(c));
    assert "UPDATE" + " " == "UPDATE ";
  }

  /** An INSERT or UPDATE without modifiers renders as the bare mode name and falls back. */
  lemma EmptyModificationRendering(t: string, q: Query)
    requires (q.mode == INSERT || q.mode == UPDATE) && q.modifiers == []
    ensures Sql(t, q) == ModeName(q.mode)
    ensures AfterSql(q).mode == UNDECIDED && Sql(t, AfterSql(q)) == "UNDECIDED"
  {
  }

  /** A DELETE after a reset removes every row of the table. */
  lemma DeleteRendering(t: string)
    ensures StepDelete(Initial).Ok?
    ensures Sql(t, StepDelete(Initial).value) == "DELETE FROM " + t
  {
  }
}
