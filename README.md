# VIVESbike persistence facades in Dafny

This project models the persistence engine of VIVESbike (`src/facades`), a small
active-record layer over a relational store. It has four parts:

- **Comparator**. An immutable WHERE-clause predicate `lval op 'rval'`. Six factories fix
  the operator.
- **FieldData**. A typed value slot. Its declared runtime class never changes. This class
  accepts only instances of that class, null, and the string `"NULL"`, which clears the
  slot.
- **QueryBuilder**. A state machine with five modes (UNDECIDED, SELECT, INSERT, UPDATE,
  DELETE). It accumulates:
  - a selection set;
  - an ordered comparison list;
  - a column→value modifier map.

  It renders its state as SQL text and resets itself after a statement has executed.
- **Model**. An active record: one typed slot per column. Each class's schema is learned
  once and then copied from a process-wide cache. `find`, `get`, `store`, `update` and
  `delete` are built from builder calls.

The store (JDBC) is replaced by the `Stores.Store` class, which has:

- a fixed answer for each SQL text: result rows, or a failure that stands for an
  `SQLException`;
- the column metadata and primary-key list of each table;
- a ghost log of every statement submitted.

A result row is a map from column name to cell. Java's `HashSet`/`HashMap` become
sequences without duplicate keys, in insertion order. `Queries.Elems` and `Queries.AsMap`
give their set and map views. Java `null` is `Wrappers.Option.None`. Every exception the
core throws is a `Wrappers.Error` returned through `Outcome` or `Result`.

The process-wide static maps `dBToField`, `fieldToFunction` and `cache` become the fields
of one `Models.Registry` object. Every model is constructed against it. A model's class
token becomes a string that keys the cache.

Files:

- `wrappers.dfy`: option, outcome and result types, and the exceptions.
- `comparator.dfy`: the `Comparators` module.
- `field_data.dfy`: the `Fields` module.
- `stores.dfy`: the abstract store.
- `conversions.dfy`: the type table and the extractors.
- `query_builder.dfy`: the `Queries` module, with the builder class and its state functions.
- `query_laws.dfy`: laws of the builder, and the unit tests' expected strings.
- `models.dfy`: the schema cache and the `Model` class.

Behaviours of the code a reader may not expect:

- A null INSERT value renders quoted, as `'NULL'`, not as a bare `NULL`
  (src/facades/QueryBuilder.java:113-116).
- `get`/`execute` reset the builder only after the statement executed. When the store
  fails, the builder keeps the state `toSql` left (src/facades/QueryBuilder.java:201-206,
  213-217).
- `find(key)` with no matching row returns the same model with its fields untouched, not a
  fresh empty instance (src/facades/Model.java:117-123).
- `delete()` is accepted again in DELETE mode (src/facades/QueryBuilder.java:342-345).
- A native type code missing from the type table gives a slot whose class is null. There
  is no default "opaque" class. Such a slot throws `NullPointerException` on every
  assignment except `"NULL"` (src/facades/Model.java:296, src/facades/FieldData.java:30).
- An `Object[]` (ARRAY) column has no extractor, so `fill` throws NullPointer on it
  (src/facades/Model.java:570-571).
- `get` adds the primary-key columns with `select(keys)`. This does nothing once `*` is
  selected, and it throws in INSERT, UPDATE or DELETE mode (src/facades/Model.java:194-195,
  src/facades/QueryBuilder.java:152-153).

## Model

| member | source | states |
|---|---|---|
| Comparators.EQ | src/facades/Comparator.java:25-28 | keeps both operands, and the operator is `=`: the text is `lval = 'rval'` |
| Comparators.LT | src/facades/Comparator.java:30-33 | keeps both operands, and the operator is `<`: the text is `lval < 'rval'` |
| Comparators.GT | src/facades/Comparator.java:35-38 | keeps both operands, and the operator is `>`: the text is `lval > 'rval'` |
| Comparators.GET | src/facades/Comparator.java:40-43 | keeps both operands, and the operator is `>=`: the text is `lval >= 'rval'` |
| Comparators.LET | src/facades/Comparator.java:45-48 | keeps both operands, and the operator is `<=`: the text is `lval <= 'rval'` |
| Comparators.LIKE | src/facades/Comparator.java:50-53 | keeps both operands, and the operator is `LIKE`: the text is `lval LIKE 'rval'` |
| Comparators.ToString | src/facades/Comparator.java:20-23 | the text starts with the column and ends with a quote, and is four characters longer than column, operator and literal together |
| Comparators.ToStringLayout | src/facades/Comparator.java:20-23 | the text is the column and a space, then the operator, then a space and a quote, then the literal copied verbatim, then a closing quote; its length is the sum of the three parts plus 4 |
| Comparators.ParseToString | src/facades/Comparator.java:20-23 | when the column and the operator have no space, reading the text back gives the comparator again, for any literal (quotes and spaces included) |
| Comparators.ToStringInjective | src/facades/Comparator.java:20-23 | two factory-built comparators with space-free columns render the same text only if they are equal |
| Comparators.OperatorsHaveNoSpace | src/facades/Comparator.java:25-53 | every operator a factory fixes is a single word |
| Comparators.Equals | src/facades/Comparator.java:55-65 | true exactly when operator, left operand and right operand are all equal |
| Fields.Assign | src/facades/FieldData.java:26-34 | `"NULL"` always clears the slot. Otherwise a slot without a class throws NullPointer. Null is accepted. Any other value is stored exactly when it is an instance of the declared class, else ClassCast. A stored value is always an instance of the class |
| Fields.AssignIdempotent | src/facades/FieldData.java:26-34 | assigning the value an accepted assignment left is accepted again and changes nothing |
| Fields.FieldData.constructor | src/facades/FieldData.java:21-24 | a new slot has the given class and no value |
| Fields.FieldData.SetRunTimeValue | src/facades/FieldData.java:26-34 | an accepted assignment stores the assigned value; a throwing one returns its exception and leaves the value as it was; the slot invariant is kept |
| Fields.FieldData.RunTimeValue | src/facades/FieldData.java:36-39 | the value returned is absent or an instance of the declared class |
| Fields.FieldData.RuntimeType | src/facades/FieldData.java:41-44 | the class returned is non-null whenever the slot holds a value, and that value is an instance of it |
| Fields.FieldData.Clone | src/facades/FieldData.java:48-51 | a fresh slot with the same class and no value |
| Fields.FieldData.Equals | src/facades/FieldData.java:54-63 | the same object is equal to itself. Comparing from a slot without a class throws NullPointer. Otherwise slots are equal exactly when their classes and values are equal, and two absent values count as equal |
| Stores.Store.Submit | src/facades/QueryBuilder.java:201-202 | the statement is appended to the log and the store's answer to exactly that text is returned |
| Conversions.NativeTypes | src/facades/Model.java:316-339 | the type table `setUpField` builds: every listed class has an extractor except the one for ARRAY |
| Conversions.PutNative | src/facades/Model.java:316-339 | the puts of `setUpField` add exactly the nineteen codes, each with its class from the table, and keep the entries of any other code |
| Conversions.PutNativeFills | src/facades/Model.java:316-339 | the puts of `setUpField`, over a table that holds only their own entries, give exactly the type table (so running them again changes nothing) |
| Conversions.NativeTypeCodes | src/facades/Model.java:316-339 | the table lists exactly the nineteen codes CHAR, ARRAY, BIGINT, VARCHAR, BINARY, BIT, BLOB, LONGNVARCHAR, LONGVARBINARY, LONGVARCHAR, TINYINT, SMALLINT, INTEGER, FLOAT, DOUBLE, DECIMAL, DATE, TIMESTAMP and TIME |
| Conversions.NativeTypeOmits | src/facades/Model.java:316-339 | the table is partial: VARBINARY, NUMERIC, REAL and BOOLEAN are not listed |
| Conversions.NativeTypeClasses | src/facades/Model.java:316-339 | Integer for exactly TINYINT/SMALLINT/INTEGER; String for exactly CHAR/VARCHAR/LONGVARCHAR/LONGNVARCHAR; BigDecimal for exactly BIGINT/DECIMAL; Object for exactly BINARY/BIT/BLOB/LONGVARBINARY; Object[] for ARRAY alone |
| Conversions.HandledTypes | src/facades/Model.java:345-387 | the key set of `setupFieldToFunction`: `Object[]` has no extractor |
| Conversions.HandledTypesExactly | src/facades/Model.java:345-387 | every class other than `Object[]` has an extractor |
| Conversions.Lookup | src/facades/Model.java:296 | `dBToField.get(code)`: the class listed for the code, or null exactly when the code is not listed |
| Conversions.Extract | src/facades/Model.java:351-386 | an extractor returns null or an instance of its own class. A missing column (a getter's SQLException) gives null. `getString` returns the cell's text. `getObject` returns the cell as it is. A cell of the extractor's own class is returned unchanged. SQL NULL gives a value exactly for the Integer, Float and Double extractors |
| Conversions.FillAssign | src/facades/Model.java:567-572 | one pass of `fill`'s loop throws only NullPointer, and a value it stores is an instance of the slot's class |
| Conversions.FillAssignOutcome | src/facades/Model.java:567-572 | filling one slot throws exactly when the slot has no class or its class has no extractor, and then only NullPointer; otherwise the slot takes the extracted value, with the text `"NULL"` read as null; never ClassCast |
| Conversions.SlotThrows | src/facades/Model.java:316-386 | once the tables are set up, filling a slot throws exactly when its column is ARRAY or has an unlisted code, and clearing it throws exactly for an unlisted code |
| Queries.Add | src/facades/QueryBuilder.java:176 | the set gains the column, stays free of duplicates, and is unchanged when the column is present |
| Queries.AddAll | src/facades/QueryBuilder.java:159 | the set becomes the union with the given columns and stays free of duplicates |
| Queries.PutAsMap | src/facades/QueryBuilder.java:294 | after `put(k, v)` the map sends k to v and agrees with the old map elsewhere |
| Queries.PutColumns | src/facades/QueryBuilder.java:294 | `put` keeps the column order and appends a column only when it was absent |
| Queries.PutAllAsMap | src/facades/QueryBuilder.java:269-270 | putting every entry gives the old map overridden by the entries, a later value for a column winning |
| Queries.PutAllNoDuplicates | src/facades/QueryBuilder.java:269-270 | merging never lists a column twice |
| Queries.AsMapKeys | src/facades/QueryBuilder.java:28 | the map's key set is exactly the listed columns |
| Queries.AsMapAt | src/facades/QueryBuilder.java:109-117 | with distinct columns, the i-th listed value is the map's value for the i-th listed column, so INSERT value i belongs to column i |
| Queries.TrimTerminated | src/facades/QueryBuilder.java:141-143 | appending every part followed by `", "` and then deleting the last two characters leaves the parts joined by `", "` |
| Queries.QueryBuilder.constructor | src/facades/QueryBuilder.java:56-61 | a new builder is UNDECIDED with empty collections, on the given table |
| Queries.QueryBuilder.Equals | src/facades/QueryBuilder.java:424-435 | true exactly when table, set of selections, comparison list, map of modifiers and mode agree (the order of set and map does not matter) |
| Queries.Sql | src/facades/QueryBuilder.java:67-147 | the text `toSql` produces: it starts with the mode's name, and an INSERT or UPDATE without modifiers is that name alone |
| Queries.QueryBuilder.ToSql | src/facades/QueryBuilder.java:67-82 | returns the rendering of the old state; afterwards an INSERT or UPDATE without modifiers is UNDECIDED and every other state is unchanged |
| Queries.QueryBuilder.AppendComparisons | src/facades/QueryBuilder.java:125-134 | appends nothing without comparisons, else `" WHERE "` and the comparison texts joined by `", "` |
| Queries.QueryBuilder.AppendSelect | src/facades/QueryBuilder.java:136-147 | appends a space and the selections joined by `", "` (nothing when empty), then `" FROM "`, the table and the WHERE clause |
| Queries.QueryBuilder.AppendInsert | src/facades/QueryBuilder.java:104-123 | with modifiers appends ` INTO t (columns) VALUES (values)`, both lists from the same modifiers in the same order; without, appends nothing and sets UNDECIDED |
| Queries.QueryBuilder.AppendColumnList | src/facades/QueryBuilder.java:108-111 | appends the modifier columns joined by `", "` |
| Queries.QueryBuilder.AppendValueList | src/facades/QueryBuilder.java:112-118 | appends the modifier values, each quoted and a null as `'NULL'`, joined by `", "` |
| Queries.QueryBuilder.AppendUpdate | src/facades/QueryBuilder.java:90-102 | with modifiers appends ` t SET` the assignments and the WHERE clause; without, appends nothing and sets UNDECIDED |
| Queries.QueryBuilder.AppendAssignmentList | src/facades/QueryBuilder.java:94-97 | appends `c = 'v'` per modifier, a null written as `'null'`, joined by `", "` |
| Queries.QueryBuilder.AppendDelete | src/facades/QueryBuilder.java:84-88 | appends `" FROM "`, the table and the WHERE clause |
| Queries.QueryBuilder.SelectColumns | src/facades/QueryBuilder.java:151-164 | from UNDECIDED or SELECT: SELECT with the columns added, or no change once `*` leads; otherwise InvalidQueryState and no change |
| Queries.QueryBuilder.SelectColumn | src/facades/QueryBuilder.java:168-181 | as `SelectColumns` for one column |
| Queries.QueryBuilder.SelectAll | src/facades/QueryBuilder.java:185-196 | from UNDECIDED or SELECT: SELECT with exactly `*` selected; otherwise InvalidQueryState and no change |
| Queries.QueryBuilder.Get | src/facades/QueryBuilder.java:198-208 | submits exactly the rendering of the old state. When the store answers, returns its rows and resets. When it fails, throws UncheckedSql and keeps the state `toSql` left |
| Queries.QueryBuilder.Execute | src/facades/QueryBuilder.java:210-219 | as `Get`, without the rows |
| Queries.QueryBuilder.Where | src/facades/QueryBuilder.java:222-226 | appends the comparison; nothing else changes |
| Queries.QueryBuilder.WhereAll | src/facades/QueryBuilder.java:229-233 | appends the comparisons in order; nothing else changes |
| Queries.QueryBuilder.WhereEq | src/facades/QueryBuilder.java:237-240 | appends `EQ(lhs, rhs)` |
| Queries.QueryBuilder.Reset | src/facades/QueryBuilder.java:245-251 | the state is the initial one: UNDECIDED with empty collections |
| Queries.QueryBuilder.InsertAll | src/facades/QueryBuilder.java:263-275 | UNDECIDED becomes INSERT; in INSERT or UPDATE every entry is put in order; otherwise InvalidQueryState and no change |
| Queries.QueryBuilder.Insert | src/facades/QueryBuilder.java:288-299 | as `InsertAll` for one entry |
| Queries.QueryBuilder.Update | src/facades/QueryBuilder.java:312-317 | UNDECIDED becomes UPDATE, then as `Insert` |
| Queries.QueryBuilder.UpdateAll | src/facades/QueryBuilder.java:329-334 | UNDECIDED becomes UPDATE, then as `InsertAll` |
| Queries.QueryBuilder.Delete | src/facades/QueryBuilder.java:340-347 | UNDECIDED becomes DELETE, DELETE stays DELETE; otherwise InvalidQueryState and no change |
| QueryLaws.SelectLegality | src/facades/QueryBuilder.java:151-196 | every select is legal exactly in UNDECIDED and SELECT, and leaves SELECT or changes nothing |
| QueryLaws.ModifyLegality | src/facades/QueryBuilder.java:263-334 | insert and update are legal exactly in UNDECIDED, INSERT and UPDATE; from UNDECIDED they fix INSERT and UPDATE respectively |
| QueryLaws.DeleteLegality | src/facades/QueryBuilder.java:340-347 | delete is legal exactly in UNDECIDED and DELETE and then only sets DELETE |
| QueryLaws.CommittedModeSticks | src/facades/QueryBuilder.java:151-347 | once a mode is decided, no accepted call changes it |
| QueryLaws.WhereOnlyAppends | src/facades/QueryBuilder.java:222-233 | `where` keeps the old comparisons as a prefix, adds the new ones after them, and changes nothing else, in every mode |
| QueryLaws.SelectAllAbsorbs | src/facades/QueryBuilder.java:155-156 | after `select()` further column selections and `select()` change nothing |
| QueryLaws.SelectAllOverrides | src/facades/QueryBuilder.java:189-191 | `select()` after column selections gives the same state as `select()` alone |
| QueryLaws.SelectAddsColumns | src/facades/QueryBuilder.java:158-159 | selecting columns adds exactly them to the set, each once |
| QueryLaws.AddAllPresent | src/facades/QueryBuilder.java:159 | adding columns that are all present changes nothing |
| QueryLaws.SelectTwice | src/facades/QueryBuilder.java:151-164 | selecting the same columns twice is selecting them once |
| QueryLaws.ModifyMerges | src/facades/QueryBuilder.java:263-275 | insert/update leave the old map overridden by the entries, without duplicate columns |
| QueryLaws.StepsKeepWellFormed | src/facades/QueryBuilder.java:151-347 | every accepted call and `toSql` keep the set and the map free of duplicate columns |
| QueryLaws.EquivalentIsEquivalence | src/facades/QueryBuilder.java:424-435 | builder equality is reflexive, symmetric and transitive |
| QueryLaws.SelectOne | src/facades/QueryBuilder.java:168-181 | selecting one column other than `*`, while `*` does not lead, adds it and keeps `*` out of the lead |
| QueryLaws.SelectOrderIrrelevant | src/facades/QueryBuilder.java:168-181 | selecting two non-`*` columns in either order gives equal builders |
| QueryLaws.SwapPuts | src/facades/QueryBuilder.java:288-299 | two puts of different columns leave the same map in either order |
| QueryLaws.InsertOrderIrrelevant | test/facades/QueryBuilderTest.java:107-110 | inserting two different columns in either order gives equal builders |
| QueryLaws.FreshRendering | test/facades/QueryBuilderTest.java:91-95 | a fresh builder renders `UNDECIDED` and stays as it is |
| QueryLaws.SelectAllRendering | test/facades/QueryBuilderTest.java:73-77 | `select()` on a fresh builder renders `SELECT * FROM t` |
| QueryLaws.SingleSelectRendering | test/facades/QueryBuilderTest.java:29-34 | `select("test1")` renders `SELECT test1 FROM t` |
| QueryLaws.OneColumnSelectState | test/facades/QueryBuilderTest.java:32 | `select("test1")` on a fresh builder leaves SELECT with exactly `test1` selected |
| QueryLaws.RepeatSelectState | test/facades/QueryBuilderTest.java:46 | `select("test1").select("test2")` leaves SELECT with `test1`, `test2` in call order |
| QueryLaws.TwoColumnSelectSql | src/facades/QueryBuilder.java:136-147 | two selected columns and no comparison render `SELECT test1, test2 FROM t` |
| QueryLaws.RepeatSelectRendering | test/facades/QueryBuilderTest.java:43-48 | `select("test1").select("test2")` renders `SELECT test1, test2 FROM t` |
| QueryLaws.TwoComparisonSql | src/facades/QueryBuilder.java:125-147 | one column and two comparisons render `SELECT test1 FROM t WHERE a, b` for any comparisons a, b |
| QueryLaws.LikeText | test/facades/QueryBuilderTest.java:60 | `LIKE("test1", "%v*vrienden%")` renders `test1 LIKE '%v*vrienden%'` |
| QueryLaws.GreaterText | test/facades/QueryBuilderTest.java:61 | `GT("test2", "abc")` renders `test2 > 'abc'` |
| QueryLaws.SelectByRepeatCompareRendering | test/facades/QueryBuilderTest.java:57-71 | the select with a LIKE and a GT comparison renders them after ` WHERE ` in call order, separated by `", "` |
| QueryLaws.OneModifierState | src/facades/QueryBuilder.java:288-317 | one insert (update) on a fresh builder leaves INSERT (UPDATE) with exactly that entry |
| QueryLaws.OneInsertSql | src/facades/QueryBuilder.java:104-123 | one entry renders `INSERT INTO t (c) VALUES (v)` with the value quoted |
| QueryLaws.OneUpdateSql | src/facades/QueryBuilder.java:90-102 | one entry and no comparison render `UPDATE t SET c = 'v'` |
| QueryLaws.SimpleInsertionRendering | test/facades/QueryBuilderTest.java:97-102 | `insert("test1", "Hallo")` renders `INSERT INTO t (test1) VALUES ('Hallo')` |
| QueryLaws.NullRendering | src/facades/QueryBuilder.java:90-123 | a null value renders as `'NULL'` in an INSERT and as `'null'` in an UPDATE |
| QueryLaws.UpdateExampleTexts | test/facades/QueryBuilderTest.java:172-173 | the assignment `test1 = 'new value'` and the comparison `test1 = 'hallo'` |
| QueryLaws.UpdateWhereSql | src/facades/QueryBuilder.java:90-102 | one entry and one comparison render `UPDATE t SET c = 'v' WHERE cmp` |
| QueryLaws.UpdateAndCompareRendering | test/facades/QueryBuilderTest.java:169-174 | `update("test1", "new value").where("test1", "hallo")` renders `UPDATE t SET test1 = 'new value' WHERE test1 = 'hallo'` |
| QueryLaws.EmptyModificationRendering | src/facades/QueryBuilder.java:92-122 | INSERT or UPDATE without modifiers renders the bare mode name and falls back to UNDECIDED |
| QueryLaws.DeleteRendering | src/facades/QueryBuilder.java:84-88 | a delete on a fresh builder renders `DELETE FROM t` |
| Models.FirstError | src/facades/Model.java:567-573 | the loops over the fields stop at the first slot that throws: every slot before it succeeds and it fails |
| Models.KeyValues | src/facades/Model.java:550-556 | one value per primary key, in key order; a key that is not a field throws NullPointer |
| Models.EqualityComparators | src/facades/Model.java:602-604 | `EQ(key i, text of value i)` for every i, with as many comparators as keys; a null value throws NullPointer |
| Models.PrimaryComparators | src/facades/Model.java:599-606 | `EQ(key i, text of its field)` for every primary key in order; a missing field or a null value throws NullPointer |
| Models.EntryComparators | src/facades/Model.java:142-148 | one `EQ(column, text)` per map entry, in order; a null value throws NullPointer |
| Models.Registry.constructor | src/facades/Model.java:46-52 | the tables and the cache start empty |
| Models.Registry.SetupConversions | src/facades/Model.java:303-310 | afterward the type table is the full table, the extractor classes are all listed classes except Object[], and the cache is untouched |
| Models.Registry.IsCached | src/facades/Model.java:433-439 | true exactly when the class has an entry and it is buffered |
| Models.Registry.CacheInspection | src/facades/Model.java:456-464 | the class gets a new, not yet buffered entry holding the keys and the template; the tables are untouched |
| Models.Registry.MarkBuffered | src/facades/Model.java:78 | the class's entry is marked buffered, and nothing else changes |
| Models.NewSlots | src/facades/Model.java:289-298 | one fresh empty slot per template entry, in order, each of the entry's class |
| Models.InspectFields | src/facades/Model.java:397-400 | for an uncached class: submits the two introspection statements, takes the columns with their classes and the keys from the store, and caches them as a buffered entry |
| Models.Inspect | src/facades/Model.java:392-408 | introspection happens exactly when the class is not cached; a cached class gets the cached template and keys, with no statement submitted and the cache unchanged |
| Models.Model.constructor | src/facades/Model.java:69-82 | the tables are set up, the fields are empty slots laid out as the schema (introspected or cached), with the keys; the class's entry is buffered; the builder is fresh |
| Models.Model.IsEmpty | src/facades/Model.java:126-134 | true exactly when no field holds a value |
| Models.Model.Clear | src/facades/Model.java:218-222 | assigns null to every slot in order, stopping at the first slot that throws, with that exception |
| Models.Model.ClearedAllNull | src/facades/Model.java:218-222 | a `clear` that completes leaves no field with a value |
| Models.ClearEmpties | src/facades/Model.java:218-222 | `clear` completes exactly when every slot has a class, and each accepted slot is emptied |
| Models.ClearErrors | src/facades/Model.java:218-222 | `clear` throws only NullPointer |
| Models.Model.Fill | src/facades/Model.java:565-574 | fills every slot in order from the row through its class's extractor, stopping at the first slot that throws, with that exception |
| Models.FillErrors | src/facades/Model.java:565-574 | `fill` throws only NullPointer |
| Models.Model.AssignAt | src/facades/Model.java:572 | that slot takes the assigned value or throws and keeps its value; every other slot keeps its value |
| Models.Model.SetField | src/facades/Model.java:229-235 | an unknown name throws IllegalArgument and changes nothing; a known name changes only that field, by the assignment rule |
| Models.Model.GetField | src/facades/Model.java:515-518 | the field's value for a known name; an unknown name throws NullPointer |
| Models.Model.PrepareFields | src/facades/Model.java:581-592 | exactly the field names, in field order, each with its value's text or null |
| Models.PreparedMap | src/facades/Model.java:581-592 | the prepared list read as a map is the text of every field's value |
| Models.Model.SelectKey | src/facades/Model.java:113-114 | `select()`, then one EQ on the first primary key with the value's text; throws InvalidQueryState, IndexOutOfBounds (no keys) or NullPointer (null value) on the way |
| Models.Model.SubmitAndFill | src/facades/Model.java:115-118 | submits the built query; fills from the first row when there is one, and otherwise leaves the fields as they were |
| Models.Model.Find | src/facades/Model.java:111-124 | submits exactly `SELECT * ... WHERE key0 = 'v'`. The fields are filled from the first matching row, and without a match they keep their values. InvalidQueryState, IndexOutOfBounds (no primary key) and NullPointer (a null key value) are thrown before anything is submitted, and the fields are then untouched. A failed statement (UncheckedSql) has been submitted but fills nothing. A fill that throws NullPointer leaves the slots before the throwing one filled from the row |
| Models.Model.SelectEntries | src/facades/Model.java:142-149 | the EQ comparators first (a null value throws before any builder call), then `select()` and `where` |
| Models.Model.SubmitAndFillFromNoRow | src/facades/Model.java:149 | submits the built query and fills with no current row |
| Models.Model.FindComposite | src/facades/Model.java:140-151 | as written: submits the query with one EQ per entry, then fills with no current row |
| Models.FillFromNoRow | src/facades/Model.java:149 | a fill with no current row empties every slot that has an extractor, and throws otherwise |
| Models.NoRowFillLosesMatch | src/facades/Model.java:149 | a String column holding "Jan" loads "Jan" from the row but null with no current row |
| Models.Model.FindCompositeFirstRow | src/facades/Model.java:140-151 | corrected: as `FindComposite`, but fills from the first matching row and leaves the fields untouched without a match |
| Models.Model.SelectKeys | src/facades/Model.java:192-195 | the two `select(keys)` calls act as one |
| Models.Model.Sibling | src/facades/Model.java:205-207 | a fresh model of the same class, table and store, filled from the row, or NullPointer |
| Models.Model.Siblings | src/facades/Model.java:204-208 | one fresh sibling per row, in row order, or NullPointer |
| Models.Model.FillAll | src/facades/Model.java:200-208 | fills this model from the first row, then a new model from each further row; the result lists this model first and has one entry per row |
| Models.Model.Collect | src/facades/Model.java:196-209 | submits the built query and loads one model per row, this one first. A failed statement or no rows leaves the fields untouched |
| Models.Model.SelectAndCollect | src/facades/Model.java:192-209 | adds the primary keys to the selection (or throws InvalidQueryState with nothing submitted), then submits and collects |
| Models.Model.Get | src/facades/Model.java:189-216 | clears every field (stopping at a throwing slot), adds the keys, submits, and collects one model per row with this model first; without rows every field is empty. When `clear` throws, nothing is submitted, the builder is unchanged, and the slots before the throwing one are already null |
| Models.Model.Store | src/facades/Model.java:167-171 | submits an INSERT of the prepared fields. On success it returns the primary-key values as they were in memory and resets. A refused mode or a failed statement throws |
| Models.Model.Update | src/facades/Model.java:156-160 | submits an UPDATE of the prepared fields restricted by the primary-key comparators, built after the merge; a null key throws before anything is submitted |
| Models.Model.Delete | src/facades/Model.java:237-240 | submits a DELETE restricted by the comparisons gathered so far, or throws InvalidQueryState without submitting |
| Models.Model.Select | src/facades/Model.java:174-178 | forwards `select()` to the builder |
| Models.Model.SelectColumn | src/facades/Model.java:252-256 | forwards `select(column)` to the builder |
| Models.Model.SelectColumns | src/facades/Model.java:259-263 | forwards `select(columns)` to the builder |
| Models.Model.Where | src/facades/Model.java:266-270 | forwards `where(comparator)` to the builder |
| Models.Model.WhereAll | src/facades/Model.java:273-277 | forwards `where(comparators)` to the builder |
| Models.Model.WhereEq | src/facades/Model.java:181-185 | forwards `where(lhs, rhs)` to the builder as an EQ |
| Models.Model.Execute | src/facades/Model.java:280-283 | submits the rendering of the builder's state, and resets only on success |

## Left out

- JDBC: connections, prepared statements, result-set cursors and metadata are replaced by
  the abstract store. An `SQLException` from `next()` in `find`/`get`, and whatever a
  failed `find(key)` then constructs, are not modelled.
- Introspection failures, which throw `RuntimeException` from the constructor, are not
  modelled: the store always reports columns and keys.
- Reflection and type erasure (`constructModel`, `cast`, `class_`) are replaced by
  ordinary construction: a model's class is a string key.
- Concurrency: the static tables are one `Registry` object, used single-threaded.
- `Model.toString`, `Model.equals` and the `hashCode` methods are out of scope. They
  depend on `Object.toString`, on the connection's hash or on HashMap equality of slots.
- Float, Double, Date, Timestamp and Time values are opaque tagged values. For them,
  `Conversions.Extract` states only the class and the SQL NULL → 0 rule of the primitive
  getters, not how numbers convert or what text they take.
- Conversions.Extract: a getter applied to a cell of another class returns null in the
  model. JDBC may convert such a cell (for example `getInt` on a numeric string); these
  driver conversions are not modelled.
- `HashSet`/`HashMap` iteration order is taken to be insertion order. The builder's
  "first selected column is `*`" check is therefore on the first inserted column.
- Models.Model.Get: when the fill of the first row throws, the contract gives the
  exception but not which slots were already assigned. When a sibling's fill throws, it
  says nothing about the models built so far.
- Null strings: column names, selected columns and the operands of comparators and of
  `where` are taken to be non-null strings. Java accepts null there: `Comparator.toString`
  renders a null operand as `null`, and `Comparator.equals` throws NullPointer when this
  comparator's left operand is null and the operators match (src/facades/Comparator.java:22,
  62-64).
- Column metadata is assumed to name each column of a table once (`Models.WellShaped`). This is a
  precondition of Models.Model.constructor, Models.Inspect, Models.InspectFields,
  Models.Model.Sibling, Models.Model.Siblings, Models.Model.FillAll, Models.Model.Collect,
  Models.Model.Get and Models.Model.SelectAndCollect. Java's `allocateFields` accepts any
  metadata, and a repeated name would replace the earlier slot through `HashMap.put`
  (src/facades/Model.java:296). A SQL table cannot repeat a column name.
- Models.Model.Sibling: it does not state the store's log beyond growing. A sibling of a
  cached class submits nothing, but that is not stated here.
- Models.Model.constructor: `setupConversions` runs unconditionally, because the guard
  `fields.isEmpty()` always holds in a constructor.

## Findings

| source | as written | input that shows it | evidently intended | confidence | as-written member | corrected member |
|---|---|---|---|---|---|---|
| src/facades/Model.java:149 | `find(map)` passes the result set to `fill` without calling `next()`, so no row is current. Every getter throws, and every slot is filled with null | a class with a String column `name` and a row with `name` = "Jan" matching the map: the model loads null instead of "Jan" | fill from the first matching row, as `find(key)` does at lines 117-118 | not executed | Models.Model.FindComposite | Models.Model.FindCompositeFirstRow |

`Models.NoRowFillLosesMatch` shows the case above: the same slot gets "Jan" from the row
and null with no current row. `Models.FillFromNoRow` gives the general form.
