/**
 * The active-record facade: a model keeps one typed slot per column of its table, learns
 * the columns and primary keys of its class once (then copies them from a process-wide
 * cache), and turns find, get, store, update and delete into builder calls on the store.
 */
module Models {
  import opened Wrappers
  import opened Comparators
  import opened Fields
  import opened Stores
  import opened Queries
  import opened Conversions
  import QueryLaws

  // ---------------------------------------------------------------------------------------
  // Per-slot outcomes of the loops over all fields
  // ---------------------------------------------------------------------------------------

  /** The column names and classes of a model's fields, in iteration order. */
  type Template = seq<(string, Option<TypeTag>)>

  /** The outcome of assigning null to each slot, as `clear` does. */
  function ClearResults(tpl: Template): (r: seq<Result<Option<Value>>>)
    ensures |r| == |tpl|
  {
    seq(|tpl|, i requires 0 <= i < |tpl| => Assign(tpl[i].1, None))
  }

  /** The outcome of filling each slot from `row`, as `fill` does. */
  function FillResults(tpl: Template, handlers: set<TypeTag>, row: Row): (r: seq<Result<Option<Value>>>)
    ensures |r| == |tpl|
  {
    seq(|tpl|, i requires 0 <= i < |tpl| => FillAssign(tpl[i].1, handlers, row, tpl[i].0))
  }

  /** The position of the first failing slot; the loops stop there, with the exception. */
  function FirstError(rs: seq<Result<Option<Value>>>): (k: nat)
    ensures k <= |rs|
    ensures k < |rs| ==> rs[k].Err?
    ensures forall i :: 0 <= i < k ==> rs[i].Ok?
  {
    if rs == [] then 0 else if rs[0].Err? then 0 else 1 + FirstError(rs[1..])
  }

  /** The outcome of a loop whose slots fail first at `FirstError(rs)`. */
  function LoopOutcome(rs: seq<Result<Option<Value>>>): Outcome
  {
    var k := FirstError(rs);
    if k == |rs| then Pass else Fail(rs[k].error)
  }

  /** `toString` of a field's value for a query; null stays null. */
  function Text(v: Option<Value>): Option<string>
  {
    if v.Some? then Some(v.value.text) else None
  }

  /**
   * `loadPrimaryKeys`: the value of each primary-key field, in key order; a key that is
   * not a field makes `getField` throw NullPointer.
   */
  function KeyValues(keys: seq<string>, vals: map<string, Option<Value>>): (r: Result<seq<Option<Value>>>)
    ensures r.Ok? <==> forall i :: 0 <= i < |keys| ==> keys[i] in vals
    ensures r.Err? ==> r.error == NullPointer
    ensures r.Ok? ==> |r.value| == |keys| && forall i :: 0 <= i < |keys| ==> r.value[i] == vals[keys[i]]
  {
    if keys == [] then Ok([])
    else if keys[0] !in vals then Err(NullPointer)
    else match KeyValues(keys[1..], vals)
      case Err(e) => Err(e)
      case Ok(rest) => Ok([vals[keys[0]]] + rest)
  }

  /**
   * `getPrimaryComparators`: `EQ(key, value)` for every primary key, in key order; a key
   * that is not a field, or whose value is null, throws NullPointer.
   */
  function PrimaryComparators(keys: seq<string>, vals: map<string, Option<Value>>): (r: Result<seq<Comparator>>)
    ensures r.Ok? <==> forall i :: 0 <= i < |keys| ==> keys[i] in vals && vals[keys[i]].Some?
    ensures r.Err? ==> r.error == NullPointer
    ensures r.Ok? ==> (|r.value| == |keys| &&
              forall i :: 0 <= i < |keys| ==> r.value[i] == EQ(keys[i], vals[keys[i]].value.text))
  {
    match KeyValues(keys, vals)
    case Err(e) => Err(e)
    case Ok(vs) => EqualityComparators(keys, vs)
  }

  /** The comparators `EQ(keys[i], values[i].toString())`; a null value throws NullPointer. */
  function EqualityComparators(keys: seq<string>, vs: seq<Option<Value>>): (r: Result<seq<Comparator>>)
    requires |vs| == |keys|
    ensures r.Ok? <==> forall i :: 0 <= i < |vs| ==> vs[i].Some?
    ensures r.Err? ==> r.error == NullPointer
    ensures r.Ok? ==> (|r.value| == |keys| &&
              forall i :: 0 <= i < |keys| ==> r.value[i] == EQ(keys[i], vs[i].value.text))
  {
    if keys == [] then Ok([])
    else if vs[0].None? then Err(NullPointer)
    else match EqualityComparators(keys[1..], vs[1..])
      case Err(e) => Err(e)
      case Ok(rest) => Ok([EQ(keys[0], vs[0].value.text)] + rest)
  }

  /** The comparators `find(Map)` builds, one EQ per entry; a null value throws NullPointer. */
  function EntryComparators(primary: seq<(string, Option<Value>)>): (r: Result<seq<Comparator>>)
    ensures r.Ok? <==> forall i :: 0 <= i < |primary| ==> primary[i].1.Some?
    ensures r.Err? ==> r.error == NullPointer
    ensures r.Ok? ==> (|r.value| == |primary| &&
              forall i :: 0 <= i < |primary| ==> r.value[i] == EQ(primary[i].0, primary[i].1.value.text))
  {
    if primary == [] then Ok([])
    else if primary[0].1.None? then Err(NullPointer)
    else match EntryComparators(primary[1..])
      case Err(e) => Err(e)
      case Ok(rest) => Ok([EQ(primary[0].0, primary[0].1.value.text)] + rest)
  }

  /** The two statements an uncached construction submits to learn the table's shape. */
  function IntrospectionSql(table: string): seq<string>
  {
    ["SELECT * FROM " + table, "SHOW KEYS FROM " + table + " WHERE Key_name = 'PRIMARY'"]
  }

  /** The template `allocateFields` builds: each column with its class from the type table. */
  function ColumnTemplate(cols: seq<Column>, types: map<int, TypeTag>): (r: Template)
    ensures |r| == |cols|
  {
    seq(|cols|, i requires 0 <= i < |cols| => (cols[i].name, Lookup(types, cols[i].code)))
  }

  function ColumnNames(cols: seq<Column>): (r: seq<string>)
    ensures |r| == |cols|
  {
    seq(|cols|, i requires 0 <= i < |cols| => cols[i].name)
  }

  // ---------------------------------------------------------------------------------------
  // The process-wide tables and the schema cache
  // ---------------------------------------------------------------------------------------

  /**
   * A cache entry: whether it is complete, the primary keys and the field template.
   * `buffered == false` stands for Java's `Boolean isBuffered` while it is still null after
   * `new CachedClass()`. On such an entry Java's `isCached` would throw NullPointer when it
   * unboxes the flag; the model returns false instead. No reachable state has such an
   * entry when `isCached` runs, because the constructor marks the entry buffered right
   * after inspecting.
   */
  datatype CacheEntry = CacheEntry(buffered: bool, keys: seq<string>, template: Template)

  /** The static maps `dBToField`, `fieldToFunction` (by its key set) and `cache`. */
  class Registry {
    var dbToField: map<int, TypeTag>
    var handlers: set<TypeTag>
    /** Keyed by the model's class. */
    var cache: map<string, CacheEntry>

    /**
     * The tables only ever hold the entries the setup puts, and every cache entry is
     * complete and lists each column once.
     */
    ghost predicate Valid()
      reads this
    {
      ValidExcept(None)
    }

    /** Valid, except that the entry of `pending`, once the constructor registers it, may be incomplete. */
    ghost predicate ValidExcept(pending: Option<string>)
      reads this
    {
      (forall c :: c in dbToField ==> c in NativeTypes() && dbToField[c] == NativeTypes()[c])
      && handlers <= HandledTypes()
      && (forall cls :: cls in cache ==> NoDuplicates(Columns(cache[cls].template)))
      && (forall cls :: cls in cache && Some(cls) != pending ==> cache[cls].buffered)
    }

    /** The tables before the first model is constructed: all empty. */
    constructor ()
      ensures Valid()
      ensures dbToField == map[] && handlers == {} && cache == map[]
    {
      dbToField := map[];
      handlers := {};
      cache := map[];
    }

    /** `setUpField` followed by `setupFieldToFunction`, as `setupConversions` runs them. */
    method SetupConversions()
      requires Valid()
      modifies this
      ensures Valid()
      ensures dbToField == NativeTypes() && handlers == HandledTypes() && cache == old(cache)
    {
      PutNativeFills(dbToField);
      dbToField := PutNative(dbToField);
      handlers := handlers + {StringType, IntegerType, BigDecimalType, FloatType, DoubleType,
                              DateType, TimestampType, TimeType, ObjectType};
    }

    /** `isCached`: an entry exists for the class and it is marked buffered. */
    function IsCached(cls: string): (r: bool)
      reads this
      ensures r <==> cls in cache && cache[cls].buffered
    {
      if cls !in cache then false else cache[cls].buffered
    }

    /** `cacheInspection`: a new, not yet buffered entry holding the template and the keys. */
    method CacheInspection(cls: string, keys: seq<string>, template: Template)
      requires Valid() && NoDuplicates(Columns(template))
      modifies this
      ensures ValidExcept(Some(cls))
      ensures cache == old(cache)[cls := CacheEntry(false, keys, template)]
      ensures dbToField == old(dbToField) && handlers == old(handlers)
    {
      cache := cache[cls := CacheEntry(false, keys, template)];
    }

    /** The constructor's last step: the class's entry is marked buffered. */
    method MarkBuffered(cls: string)
      requires cls in cache && ValidExcept(Some(cls))
      modifies this
      ensures Valid()
      ensures cache == old(cache)[cls := old(cache)[cls].(buffered := true)]
      ensures old(cache)[cls].buffered ==> cache == old(cache)
      ensures dbToField == old(dbToField) && handlers == old(handlers)
    {
      if !cache[cls].buffered {
        cache := cache[cls := cache[cls].(buffered := true)];
      }
    }
  }

  /** Each table's metadata names a column once, as a SQL table does. */
  ghost predicate WellShaped(store: Store)
  {
    forall t :: NoDuplicates(ColumnNames(store.columns(t)))
  }

  /** One distinct slot per name, each name listed once. */
  ghost predicate Distinct(ns: seq<string>, fs: map<string, FieldData>)
  {
    NoDuplicates(ns)
    && (forall k :: k in fs <==> k in ns)
    && (forall a, b :: a in fs && b in fs && a != b ==> fs[a] != fs[b])
  }

  /** Every slot holds an instance of its class. */
  ghost predicate AllValid(fs: map<string, FieldData>)
    reads fs.Values
  {
    forall k :: k in fs ==> fs[k].Valid()
  }

  /** One distinct, valid slot per name, each name listed once. */
  ghost predicate Slots(ns: seq<string>, fs: map<string, FieldData>)
    reads fs.Values
  {
    Distinct(ns, fs) && AllValid(fs)
  }

  /** Slots for the template's entries, in its order, each of the entry's class and empty. */
  ghost predicate FreshSlots(tpl: Template, ns: seq<string>, fs: map<string, FieldData>)
    reads fs.Values
  {
    Slots(ns, fs)
    && |ns| == |tpl|
    && (forall i :: 0 <= i < |tpl| ==> ns[i] == tpl[i].0)
    && (forall i :: 0 <= i < |ns| ==> fs[ns[i]].declared == tpl[i].1)
    && (forall k :: k in fs ==> fs[k].value == None)
  }

  /** The names and classes of the slots, in the order of `ns`. */
  function SlotTemplate(ns: seq<string>, fs: map<string, FieldData>): (r: Template)
    ensures |r| == |ns|
  {
    seq(|ns|, i requires 0 <= i < |ns| => (ns[i], if ns[i] in fs then fs[ns[i]].declared else None))
  }

  /**
   * The slots `allocateFields` (one `new FieldData` per column) and `loadFromCache` (one
   * `clone` per cached slot) build: a fresh, empty slot of the listed class per entry.
   */
  method NewSlots(tpl: Template) returns (ns: seq<string>, fs: map<string, FieldData>)
    requires NoDuplicates(Columns(tpl))
    ensures FreshSlots(tpl, ns, fs) && SlotTemplate(ns, fs) == tpl
    ensures fresh(fs.Values)
  {
    ns := [];
    fs := map[];
    var i := 0;
    while i < |tpl|
      invariant 0 <= i <= |tpl|
      invariant |ns| == i && forall j :: 0 <= j < i ==> ns[j] == tpl[j].0
      invariant forall k :: k in fs <==> k in ns
      invariant forall a, b :: a in fs && b in fs && a != b ==> fs[a] != fs[b]
      invariant forall j :: 0 <= j < i ==> fs[ns[j]].declared == tpl[j].1
      invariant forall k :: k in fs ==> fs[k].value == None && fs[k].Valid() && fresh(fs[k])
    {
      var slot := new FieldData(tpl[i].1);
      assert tpl[i].0 !in ns by {
        assert Columns(tpl)[i] == tpl[i].0;
        assert forall j :: 0 <= j < i ==> ns[j] == Columns(tpl)[j];
      }
      ns := ns + [tpl[i].0];
      fs := fs[tpl[i].0 := slot];
      i := i + 1;
    }
    assert forall j :: 0 <= j < |ns| ==> ns[j] == Columns(tpl)[j];
    assert forall j :: 0 <= j < |ns| ==> SlotTemplate(ns, fs)[j] == tpl[j];
    forall v | v in fs.Values
      ensures fresh(v)
    {
      var k :| k in fs && fs[k] == v;
    }
  }

  /**
   * The schema of a model's class: for a class not cached yet, read from the store and
   * cached; for a cached class, the cached template and keys. Either way the class's entry
   * ends up buffered.
   */
  method Inspect(registry: Registry, store: Store, cls: string, table: string)
    returns (tpl: Template, ks: seq<string>)
    requires registry.Valid() && registry.dbToField == NativeTypes() && WellShaped(store)
    modifies registry, store
    ensures registry.Valid() && NoDuplicates(Columns(tpl))
    ensures registry.dbToField == old(registry.dbToField) && registry.handlers == old(registry.handlers)
    ensures old(registry.IsCached(cls)) ==>
              tpl == old(registry.cache[cls].template) && ks == old(registry.cache[cls].keys)
              && registry.cache == old(registry.cache) && store.log == old(store.log)
    ensures !old(registry.IsCached(cls)) ==>
              tpl == ColumnTemplate(store.columns(table), NativeTypes()) && ks == store.keys(table)
              && registry.cache == old(registry.cache)[cls := CacheEntry(true, ks, tpl)]
              && store.log == old(store.log) + IntrospectionSql(table)
  {
    if !registry.IsCached(cls) {
      tpl, ks := InspectFields(registry, store, cls, table);
    } else {
      tpl := registry.cache[cls].template;
      ks := registry.cache[cls].keys;
      registry.MarkBuffered(cls);
    }
  }

  /**
   * `inspectFields` and `allocatePrimaryKeys` for a class not cached yet: read the columns
   * and the keys from the store (two introspection statements), cache them, and mark the
   * entry buffered.
   */
  method InspectFields(registry: Registry, store: Store, cls: string, table: string)
    returns (tpl: Template, ks: seq<string>)
    requires registry.Valid() && registry.dbToField == NativeTypes() && WellShaped(store)
    requires !registry.IsCached(cls)
    modifies registry, store
    ensures registry.Valid() && NoDuplicates(Columns(tpl))
    ensures registry.dbToField == old(registry.dbToField) && registry.handlers == old(registry.handlers)
    ensures tpl == ColumnTemplate(store.columns(table), NativeTypes()) && ks == store.keys(table)
    ensures registry.cache == old(registry.cache)[cls := CacheEntry(true, ks, tpl)]
    ensures store.log == old(store.log) + IntrospectionSql(table)
  {
    var _ := store.Submit("SELECT * FROM " + table);
    tpl := ColumnTemplate(store.columns(table), registry.dbToField);
    assert Columns(tpl) == ColumnNames(store.columns(table));
    var _ := store.Submit("SHOW KEYS FROM " + table + " WHERE Key_name = 'PRIMARY'");
    ks := store.keys(table);
    registry.CacheInspection(cls, ks, tpl);
    registry.MarkBuffered(cls);
    Overwrite(old(registry.cache), cls, CacheEntry(false, ks, tpl), CacheEntry(true, ks, tpl));
  }

  /** A second update of one key replaces the first. */
  lemma Overwrite<K, V>(m: map<K, V>, k: K, u: V, w: V)
    ensures m[k := u][k := w] == m[k := w]
  {
  }

  /** Java's Model: one row of `table` as typed slots, its primary keys and its own builder. */
  class Model {
    /** The model's class, which keys the schema cache. */
    const cls: string
    const table: string
    const registry: Registry
    const store: Store
    const query: QueryBuilder
    /** The field names in the map's iteration order. */
    const names: seq<string>
    const fields: map<string, FieldData>
    /** The primary-key columns, in the order the store lists them. */
    const keys: seq<string>

    /**
     * One distinct, valid slot per name, each name once, and a valid builder on the
     * model's table.
     */
    ghost predicate Valid()
      reads this, fields.Values, query
    {
      Slots(names, fields) && query.Valid() && query.table == table
    }

    /** The value of every field. */
    function Values(): map<string, Option<Value>>
      reads this, fields.Values
    {
      map k | k in fields :: fields[k].value
    }

    /** The names and classes of the fields, in iteration order. */
    function Template(): (r: Template)
      reads this
      ensures |r| == |names|
    {
      SlotTemplate(names, fields)
    }

    /**
     * The slots hold what a loop over the fields leaves behind when slot j's assignment
     * outcome is `rs[j]`: the new values before the first failure, the old ones from there on.
     */
    ghost predicate Applied(rs: seq<Result<Option<Value>>>, before: map<string, Option<Value>>)
      requires |rs| == |names| && (forall k :: k in names ==> k in before && k in fields)
      reads this, fields.Values
    {
      forall j :: 0 <= j < |names| ==>
        fields[names[j]].value == if j < FirstError(rs) then rs[j].value else before[names[j]]
    }

    /**
     * Construction: set up the type tables; learn the columns and primary keys from the
     * store and cache them when the class is not cached yet, otherwise copy the cached
     * slots and keys; mark the class's entry buffered and create the builder.
     */
    constructor (cls: string, table: string, registry: Registry, store: Store)
      requires registry.Valid() && WellShaped(store)
      modifies registry, store
      ensures Valid() && registry.Valid()
      ensures this.cls == cls && this.table == table && this.registry == registry && this.store == store
      ensures fresh(query) && fresh(fields.Values)
      ensures query.State() == Initial
      ensures forall k :: k in fields ==> fields[k].value == None
      ensures registry.dbToField == NativeTypes() && registry.handlers == HandledTypes()
      ensures old(registry.IsCached(cls)) ==>
                Template() == old(registry.cache[cls].template) && keys == old(registry.cache[cls].keys)
                && registry.cache == old(registry.cache) && store.log == old(store.log)
      ensures !old(registry.IsCached(cls)) ==>
                Template() == ColumnTemplate(store.columns(table), NativeTypes())
                && keys == store.keys(table)
                && registry.cache == old(registry.cache)[cls := CacheEntry(true, keys, Template())]
                && store.log == old(store.log) + IntrospectionSql(table)
    {
      registry.SetupConversions();
      var tpl, ks := Inspect(registry, store, cls, table);
      var ns, fs := NewSlots(tpl);
      this.cls := cls;
      this.table := table;
      this.registry := registry;
      this.store := store;
      names := ns;
      fields := fs;
      keys := ks;
      query := new QueryBuilder(table);
    }

    /** No field holds a value. */
    ghost predicate AllNull()
      reads this, fields.Values
    {
      forall k :: k in Values() ==> Values()[k] == None
    }

    /** `isEmpty`: true exactly when no field holds a value. */
    method IsEmpty() returns (r: bool)
      requires Slots(names, fields)
      ensures r <==> AllNull()
    {
      var i := 0;
      while i < |names|
        invariant 0 <= i <= |names|
        invariant forall j :: 0 <= j < i ==> fields[names[j]].value == None
      {
        if fields[names[i]].RunTimeValue() != None {
          assert Values()[names[i]] != None;
          return false;
        }
        i := i + 1;
      }
      forall k | k in Values()
        ensures Values()[k] == None
      {
        var j :| 0 <= j < |names| && names[j] == k;
      }
      return true;
    }

    /** `clear`: assigns null to every field, stopping at the first slot that throws. */
    method Clear() returns (r: Outcome)
      requires Slots(names, fields)
      modifies fields.Values
      ensures Slots(names, fields)
      ensures r == LoopOutcome(ClearResults(Template()))
      ensures Applied(ClearResults(Template()), old(Values()))
    {
      ghost var rs := ClearResults(Template());
      var i := 0;
      while i < |names|
        invariant 0 <= i <= |names|
        invariant AllValid(fields)
        invariant forall j :: 0 <= j < i ==> rs[j].Ok?
        invariant forall j :: 0 <= j < |names| ==>
                    fields[names[j]].value == if j < i then rs[j].value else old(fields[names[j]].value)
      {
        assert rs[i] == Assign(fields[names[i]].declared, None);
        var o := AssignAt(i, None);
        if o.Fail? {
          FirstErrorAt(rs, i);
          return o;
        }
        i := i + 1;
      }
      FirstErrorNone(rs);
      r := Pass;
    }

    /** A `clear` that completes leaves every field without a value. */
    lemma ClearedAllNull(before: map<string, Option<Value>>)
      requires Slots(names, fields) && forall k :: k in names ==> k in before
      requires LoopOutcome(ClearResults(Template())) == Pass && Applied(ClearResults(Template()), before)
      ensures AllNull()
    {
      ClearEmpties(Template());
      forall k | k in Values()
        ensures Values()[k] == None
      {
        var j :| 0 <= j < |names| && names[j] == k;
      }
    }

    /** `fill`: every field from the row through its class's extractor, stopping at a throw. */
    method Fill(row: Row) returns (r: Outcome)
      requires Slots(names, fields)
      modifies fields.Values
      ensures Slots(names, fields)
      ensures r == LoopOutcome(FillResults(Template(), registry.handlers, row))
      ensures Applied(FillResults(Template(), registry.handlers, row), old(Values()))
    {
      ghost var rs := FillResults(Template(), registry.handlers, row);
      var i: nat := 0;
      while i < |names|
        invariant 0 <= i <= |names|
        invariant AllValid(fields)
        invariant forall j :: 0 <= j < i ==> rs[j].Ok?
        invariant forall j :: 0 <= j < |names| ==>
                    fields[names[j]].value == if j < i then rs[j].value else old(fields[names[j]].value)
      {
        assert rs[i] == FillAssign(fields[names[i]].declared, registry.handlers, row, names[i]);
        var t := fields[names[i]].RuntimeType();
        if t == None || t.value !in registry.handlers {
          FirstErrorAt(rs, i);
          return Fail(NullPointer);
        }
        var o := AssignAt(i, Extract(t.value, row, names[i]));
        if o.Fail? {
          FirstErrorAt(rs, i);
          return o;
        }
        i := i + 1;
      }
      FirstErrorNone(rs);
      r := Pass;
    }

    /** `setRunTimeValue` on the slot of the i-th name: that slot takes the assigned value, every other keeps its own. */
    method AssignAt(i: nat, x: Option<Value>) returns (o: Outcome)
      requires Slots(names, fields) && i < |names|
      modifies fields[names[i]]
      ensures Slots(names, fields)
      ensures o == (if Assign(fields[names[i]].declared, x).Ok? then Pass
                    else Fail(Assign(fields[names[i]].declared, x).error))
      ensures forall j :: 0 <= j < |names| ==>
                fields[names[j]].value == if j == i && o == Pass then Assign(fields[names[i]].declared, x).value
                                          else old(fields[names[j]].value)
    {
      o := fields[names[i]].SetRunTimeValue(x);
    }

    /** `setField`: an unknown name throws IllegalArgument; otherwise that slot alone is assigned. */
    method SetField(name: string, x: Option<Value>) returns (r: Outcome)
      requires Slots(names, fields)
      modifies fields.Values
      ensures Slots(names, fields)
      ensures name !in fields ==> r == Fail(IllegalArgument) && Values() == old(Values())
      ensures name in fields && Assign(fields[name].declared, x).Ok? ==>
                r == Pass && Values() == old(Values())[name := Assign(fields[name].declared, x).value]
      ensures name in fields && Assign(fields[name].declared, x).Err? ==>
                r == Fail(Assign(fields[name].declared, x).error) && Values() == old(Values())
    {
      if name !in fields {
        return Fail(IllegalArgument);
      }
      r := fields[name].SetRunTimeValue(x);
    }

    /** `getField`: the value of a field; an unknown name throws NullPointer. */
    function GetField(name: string): (r: Result<Option<Value>>)
      reads this, fields.Values
      ensures r.Ok? <==> name in Values()
      ensures r.Ok? ==> r.value == Values()[name]
      ensures r.Err? ==> r.error == NullPointer
    {
      if name in fields then Ok(fields[name].value) else Err(NullPointer)
    }

    /** `prepareFields`: every field with its value's text (null for no value), in field order. */
    function PrepareFields(): (r: seq<Modifier>)
      requires Slots(names, fields)
      reads this, fields.Values
      ensures Columns(r) == names
      ensures AsMap(r) == map k | k in Values() :: Text(Values()[k])
    {
      var vals := Values();
      var r := seq(|names|, i requires 0 <= i < |names| => (names[i], Text(vals[names[i]])));
      PreparedMap(names, vals, r);
      r
    }

    /** The fields hold what a `fill` from `row` that throws nothing leaves. */
    ghost predicate FilledFrom(handlers: set<TypeTag>, row: Row)
      reads this, fields.Values
    {
      var rs := FillResults(Template(), handlers, row);
      LoopOutcome(rs) == Pass
      && forall j :: 0 <= j < |names| ==> names[j] in fields && fields[names[j]].value == rs[j].value
    }

    /**
     * What a `find` leaves once its query `q` was submitted and answered: on a failure the
     * exception, the builder as `toSql` left it and the fields as they were; on success a
     * reset builder and, when a row matched, the fields filled from the first row.
     */
    ghost predicate Loaded(answer: Response, q: Query, r: Outcome, before: map<string, Option<Value>>)
      requires Valid() && before.Keys == fields.Keys
      reads this, fields.Values, query, registry
    {
      match answer
      case Failed => r == Fail(UncheckedSql) && query.State() == AfterSql(q) && Values() == before
      case Rows(rows) =>
        query.State() == Initial
        && (rows == [] ==> r == Pass && Values() == before)
        && (rows != [] ==>
              r == LoopOutcome(FillResults(Template(), registry.handlers, rows[0]))
              && Applied(FillResults(Template(), registry.handlers, rows[0]), before))
    }

    /** As `Loaded`, for a `fill` made while no row is current: every extractor reads nothing. */
    ghost predicate LoadedNoRow(answer: Response, q: Query, r: Outcome, before: map<string, Option<Value>>)
      requires Valid() && before.Keys == fields.Keys
      reads this, fields.Values, query, registry
    {
      match answer
      case Failed => r == Fail(UncheckedSql) && query.State() == AfterSql(q) && Values() == before
      case Rows(_) =>
        query.State() == Initial
        && r == LoopOutcome(FillResults(Template(), registry.handlers, map[]))
        && Applied(FillResults(Template(), registry.handlers, map[]), before)
    }

    /** The end of `find(key)`: submit the built query, then fill from the first row if any. */
    method SubmitAndFill() returns (r: Outcome)
      requires Valid()
      modifies query, store, fields.Values
      ensures Valid()
      ensures store.log == old(store.log) + [Sql(table, old(query.State()))]
      ensures Loaded(store.answer(Sql(table, old(query.State()))), old(query.State()), r, old(Values()))
    {
      var rows := query.Get(store);
      if rows.Err? {
        return Fail(rows.error);
      }
      if rows.value == [] {
        return Pass;
      }
      r := Fill(rows.value[0]);
    }

    /** The end of `find(map)`: submit the built query, then fill with no current row. */
    method SubmitAndFillFromNoRow() returns (r: Outcome)
      requires Valid()
      modifies query, store, fields.Values
      ensures Valid()
      ensures store.log == old(store.log) + [Sql(table, old(query.State()))]
      ensures LoadedNoRow(store.answer(Sql(table, old(query.State()))), old(query.State()), r, old(Values()))
    {
      var rows := query.Get(store);
      if rows.Err? {
        return Fail(rows.error);
      }
      r := Fill(map[]);
    }

    /**
     * `find(primary)`: select everything where the first primary key equals the value's
     * text, and fill from the first row; without a match the fields keep their values.
     */
    method Find(primary: Option<Value>) returns (r: Outcome)
      requires Valid()
      modifies query, store, fields.Values
      ensures Valid()
      ensures StepSelectAll(old(query.State())).Err? ==>
                r == Fail(InvalidQueryState) && query.State() == old(query.State())
                && store.log == old(store.log) && unchanged(fields.Values)
      ensures StepSelectAll(old(query.State())).Ok? && (keys == [] || primary == None) ==>
                r == Fail(if keys == [] then IndexOutOfBounds else NullPointer)
                && query.State() == StepSelectAll(old(query.State())).value
                && store.log == old(store.log) && unchanged(fields.Values)
      ensures StepSelectAll(old(query.State())).Ok? && keys != [] && primary.Some? ==>
                var q := StepWhere(StepSelectAll(old(query.State())).value, [EQ(keys[0], primary.value.text)]);
                store.log == old(store.log) + [Sql(table, q)]
                && Loaded(store.answer(Sql(table, q)), q, r, old(Values()))
    {
      r := SelectKey(primary);
      if r.Fail? {
        return;
      }
      r := SubmitAndFill();
    }

    /** The query `find(primary)` builds: everything, where the first primary key equals the value's text. */
    method SelectKey(primary: Option<Value>) returns (r: Outcome)
      requires Valid()
      modifies query
      ensures Valid()
      ensures StepSelectAll(old(query.State())).Err? ==>
                r == Fail(InvalidQueryState) && query.State() == old(query.State())
      ensures StepSelectAll(old(query.State())).Ok? && (keys == [] || primary == None) ==>
                r == Fail(if keys == [] then IndexOutOfBounds else NullPointer)
                && query.State() == StepSelectAll(old(query.State())).value
      ensures StepSelectAll(old(query.State())).Ok? && keys != [] && primary.Some? ==>
                r == Pass
                && query.State() == StepWhere(StepSelectAll(old(query.State())).value, [EQ(keys[0], primary.value.text)])
    {
      r := query.SelectAll();
      if r.Fail? {
        return;
      }
      if keys == [] {
        return Fail(IndexOutOfBounds);
      }
      if primary == None {
        return Fail(NullPointer);
      }
      query.WhereEq(keys[0], primary.value.text);
    }

    /** The query `find(primary)` builds for a composite key: everything, where each entry's column equals its text. */
    method SelectEntries(primary: seq<(string, Option<Value>)>) returns (r: Outcome)
      requires Valid()
      modifies query
      ensures Valid()
      ensures EntryComparators(primary).Err? ==> r == Fail(NullPointer) && query.State() == old(query.State())
      ensures EntryComparators(primary).Ok? && StepSelectAll(old(query.State())).Err? ==>
                r == Fail(InvalidQueryState) && query.State() == old(query.State())
      ensures EntryComparators(primary).Ok? && StepSelectAll(old(query.State())).Ok? ==>
                r == Pass
                && query.State() == StepWhere(StepSelectAll(old(query.State())).value, EntryComparators(primary).value)
    {
      var comps := EntryComparators(primary);
      if comps.Err? {
        return Fail(comps.error);
      }
      r := query.SelectAll();
      if r.Fail? {
        return;
      }
      query.WhereAll(comps.value);
    }

    /**
     * `find(primary)` for a composite key, as written: one EQ per entry and a `fill`
     * before the cursor is advanced, so every extractor reads no row.
     */
    method FindComposite(primary: seq<(string, Option<Value>)>) returns (r: Outcome)
      requires Valid()
      modifies query, store, fields.Values
      ensures Valid()
      ensures EntryComparators(primary).Err? ==>
                r == Fail(NullPointer) && query.State() == old(query.State())
                && store.log == old(store.log) && unchanged(fields.Values)
      ensures EntryComparators(primary).Ok? && StepSelectAll(old(query.State())).Err? ==>
                r == Fail(InvalidQueryState) && query.State() == old(query.State())
                && store.log == old(store.log) && unchanged(fields.Values)
      ensures EntryComparators(primary).Ok? && StepSelectAll(old(query.State())).Ok? ==>
                var q := StepWhere(StepSelectAll(old(query.State())).value, EntryComparators(primary).value);
                store.log == old(store.log) + [Sql(table, q)]
                && LoadedNoRow(store.answer(Sql(table, q)), q, r, old(Values()))
    {
      r := SelectEntries(primary);
      if r.Fail? {
        return;
      }
      r := SubmitAndFillFromNoRow();
    }

    /** `find(primary)` for a composite key, filling from the first matching row as `find(key)` does. */
    method FindCompositeFirstRow(primary: seq<(string, Option<Value>)>) returns (r: Outcome)
      requires Valid()
      modifies query, store, fields.Values
      ensures Valid()
      ensures EntryComparators(primary).Err? ==>
                r == Fail(NullPointer) && query.State() == old(query.State())
                && store.log == old(store.log) && unchanged(fields.Values)
      ensures EntryComparators(primary).Ok? && StepSelectAll(old(query.State())).Err? ==>
                r == Fail(InvalidQueryState) && query.State() == old(query.State())
                && store.log == old(store.log) && unchanged(fields.Values)
      ensures EntryComparators(primary).Ok? && StepSelectAll(old(query.State())).Ok? ==>
                var q := StepWhere(StepSelectAll(old(query.State())).value, EntryComparators(primary).value);
                store.log == old(store.log) + [Sql(table, q)]
                && Loaded(store.answer(Sql(table, q)), q, r, old(Values()))
    {
      r := SelectEntries(primary);
      if r.Fail? {
        return;
      }
      r := SubmitAndFill();
    }

    /** A further model `get` built for a row: a model of the same class, table and store, filled from it. */
    ghost predicate IsSibling(m: Model, row: Row)
      reads m, m.fields.Values, m.query
    {
      m.Valid() && m.cls == cls && m.table == table && m.registry == registry && m.store == store
      && m.query.State() == Initial && m.FilledFrom(HandledTypes(), row)
    }

    /** One pass of `get`'s loop: a new model of this class, filled from `row`. */
    method Sibling(row: Row) returns (m: Model, o: Outcome)
      requires registry.Valid() && WellShaped(store)
      modifies registry, store
      ensures registry.Valid() && old(store.log) <= store.log
      ensures fresh(m)
      ensures o.Fail? ==> o.error == NullPointer
      ensures o == Pass ==> IsSibling(m, row)
    {
      m := new Model(cls, table, registry, store);
      o := m.Fill(row);
      FillErrors(m.Template(), registry.handlers, row);
    }

    /** The loop of `get` over the rows after the first: a new model per row, filled from it. */
    method Siblings(rows: seq<Row>) returns (r: Result<seq<Model>>)
      requires registry.Valid() && WellShaped(store)
      modifies registry, store
      ensures registry.Valid() && old(store.log) <= store.log
      ensures r.Err? ==> r.error == NullPointer
      ensures r.Ok? ==> |r.value| == |rows|
      ensures r.Ok? ==> forall j :: 0 <= j < |rows| ==> fresh(r.value[j]) && IsSibling(r.value[j], rows[j])
    {
      var models: seq<Model> := [];
      var i := 0;
      while i < |rows|
        invariant 0 <= i <= |rows| && |models| == i
        invariant registry.Valid() && old(store.log) <= store.log
        invariant forall j :: 0 <= j < i ==> fresh(models[j]) && IsSibling(models[j], rows[j])
      {
        var m, o := Sibling(rows[i]);
        if o.Fail? {
          return Err(o.error);
        }
        models := models + [m];
        i := i + 1;
      }
      return Ok(models);
    }

    /**
     * The rows part of `get`: fill this model from the first row and a new model from each
     * further row, in row order.
     */
    method FillAll(rows: seq<Row>) returns (r: Result<seq<Model>>)
      requires rows != [] && Valid() && registry.Valid() && WellShaped(store)
      modifies fields.Values, store, registry
      ensures Valid() && registry.Valid() && old(store.log) <= store.log
      ensures LoopOutcome(FillResults(Template(), old(registry.handlers), rows[0])).Fail? ==>
                r == Err(LoopOutcome(FillResults(Template(), old(registry.handlers), rows[0])).error)
      ensures LoopOutcome(FillResults(Template(), old(registry.handlers), rows[0])) == Pass ==>
                FilledFrom(old(registry.handlers), rows[0])
      ensures r.Ok? ==> |r.value| == |rows| && r.value[0] == this
      ensures r.Ok? ==> forall j :: 0 <= j < |rows| - 1 ==>
                fresh(r.value[1..][j]) && IsSibling(r.value[1..][j], rows[1..][j])
      ensures r.Err? ==> r.error == NullPointer
    {
      ghost var handlers := registry.handlers;
      var o := Fill(rows[0]);
      if o.Fail? {
        FillErrors(Template(), handlers, rows[0]);
        return Err(o.error);
      }
      assert FilledFrom(handlers, rows[0]);
      var rest := Siblings(rows[1..]);
      if rest.Err? {
        return Err(rest.error);
      }
      r := Ok([this] + rest.value);
      assert r.value[1..] == rest.value;
    }

    /**
     * What submitting `q` leaves for `get`: the exception and the builder as `toSql` left it
     * when the statement fails; otherwise the builder reset, nothing for no rows, the first
     * row's fill outcome, and one model per row with this model first.
     */
    ghost predicate Answered(q: Query, handlers: set<TypeTag>, r: Result<seq<Model>>)
      reads this, fields.Values, query, store
    {
      var a := store.answer(Sql(table, q));
      && (a.Failed? ==> r == Err(UncheckedSql) && query.State() == AfterSql(q))
      && (a.Rows? ==> query.State() == Initial)
      && (a.Rows? && a.rows == [] ==> r == Ok([]))
      && (a.Rows? && a.rows != [] && LoopOutcome(FillResults(Template(), handlers, a.rows[0])).Fail? ==>
            r == Err(LoopOutcome(FillResults(Template(), handlers, a.rows[0])).error))
      && (a.Rows? && a.rows != [] && LoopOutcome(FillResults(Template(), handlers, a.rows[0])) == Pass ==>
            FilledFrom(handlers, a.rows[0]))
      && (r.Ok? ==> a.Rows? && |r.value| == |a.rows|)
      && (r.Ok? && a.rows != [] ==> r.value[0] == this)
    }

    /** The end of `get`: submit the built query, then one model per row with this model first. */
    method Collect() returns (r: Result<seq<Model>>)
      requires Valid() && registry.Valid() && WellShaped(store)
      modifies fields.Values, query, store, registry
      ensures Valid() && registry.Valid()
      ensures old(store.log) + [Sql(table, old(query.State()))] <= store.log
      ensures Answered(old(query.State()), old(registry.handlers), r)
      ensures var a := store.answer(Sql(table, old(query.State())));
        (a.Failed? || a.rows == []) ==> unchanged(fields.Values)
      ensures var a := store.answer(Sql(table, old(query.State())));
        r.Ok? ==> forall j :: 0 <= j < |a.rows| - 1 ==>
          fresh(r.value[1..][j]) && IsSibling(r.value[1..][j], a.rows[1..][j])
      ensures r.Err? ==> r.error in {NullPointer, UncheckedSql}
    {
      var rows := query.Get(store);
      if rows.Err? {
        return Err(rows.error);
      }
      if rows.value == [] {
        return Ok([]);
      }
      r := FillAll(rows.value);
    }

    /**
     * `get`: clear every field, add the primary-key columns to the selection (twice, as
     * written), then submit and collect one model per row with this model first.
     */
    method Get() returns (r: Result<seq<Model>>)
      requires Valid() && registry.Valid() && WellShaped(store)
      modifies fields.Values, query, store, registry
      ensures Valid() && registry.Valid()
      ensures LoopOutcome(ClearResults(Template())).Fail? ==>
                r == Err(LoopOutcome(ClearResults(Template())).error)
                && query.State() == old(query.State()) && store.log == old(store.log)
                && Applied(ClearResults(Template()), old(Values()))
      ensures LoopOutcome(ClearResults(Template())) == Pass && StepSelect(old(query.State()), keys).Err? ==>
                r == Err(InvalidQueryState) && query.State() == old(query.State()) && store.log == old(store.log)
                && AllNull()
      ensures LoopOutcome(ClearResults(Template())) == Pass && StepSelect(old(query.State()), keys).Ok? ==>
                var q := StepSelect(old(query.State()), keys).value;
                var a := store.answer(Sql(table, q));
                && old(store.log) + [Sql(table, q)] <= store.log
                && Answered(q, old(registry.handlers), r)
                && ((a.Failed? || a.rows == []) ==> AllNull())
                && (r.Ok? ==> forall j :: 0 <= j < |a.rows| - 1 ==>
                      fresh(r.value[1..][j]) && IsSibling(r.value[1..][j], a.rows[1..][j]))
      ensures r.Err? ==> r.error in {NullPointer, InvalidQueryState, UncheckedSql}
    {
      var c := Clear();
      if c.Fail? {
        ClearErrors(Template());
        return Err(c.error);
      }
      ClearedAllNull(old(Values()));
      r := SelectAndCollect();
    }

    /** `get` after the `clear`: select the primary keys, submit, and load the rows. */
    method SelectAndCollect() returns (r: Result<seq<Model>>)
      requires Valid() && registry.Valid() && WellShaped(store)
      modifies fields.Values, query, store, registry
      ensures Valid() && registry.Valid()
      ensures StepSelect(old(query.State()), keys).Err? ==>
                r == Err(InvalidQueryState) && query.State() == old(query.State()) && store.log == old(store.log)
                && unchanged(fields.Values)
      ensures StepSelect(old(query.State()), keys).Ok? ==>
                var q := StepSelect(old(query.State()), keys).value;
                var a := store.answer(Sql(table, q));
                && old(store.log) + [Sql(table, q)] <= store.log
                && Answered(q, old(registry.handlers), r)
                && ((a.Failed? || a.rows == []) ==> unchanged(fields.Values))
                && (r.Ok? ==> forall j :: 0 <= j < |a.rows| - 1 ==>
                      fresh(r.value[1..][j]) && IsSibling(r.value[1..][j], a.rows[1..][j]))
      ensures r.Err? ==> r.error in {NullPointer, InvalidQueryState, UncheckedSql}
    {
      var o := SelectKeys();
      if o.Fail? {
        return Err(o.error);
      }
      r := Collect();
    }

    /** The two `select(primaryKeys)` calls of `get`; the second changes nothing. */
    method SelectKeys() returns (r: Outcome)
      requires Valid()
      modifies query
      ensures Valid()
      ensures Stepped(StepSelect(old(query.State()), keys), old(query.State()), query.State(), r)
    {
      r := query.SelectColumns(keys);
      if r.Fail? {
        return;
      }
      QueryLaws.SelectTwice(old(query.State()), keys);
      r := query.SelectColumns(keys);
    }

    /**
     * What the submitted statement `q` leaves: on success the builder reset, on a failure
     * the exception and the builder as `toSql` left it.
     */
    ghost predicate Executed(q: Query, r: Outcome)
      reads this, query, store
    {
      (store.answer(Sql(table, q)).Rows? ==> r == Pass && query.State() == Initial)
      && (store.answer(Sql(table, q)).Failed? ==> r == Fail(UncheckedSql) && query.State() == AfterSql(q))
    }

    /**
     * `store`: submit an INSERT of every field's text, then return the primary-key values
     * as they are in memory.
     */
    method Store() returns (r: Result<seq<Option<Value>>>)
      requires Valid()
      modifies query, store
      ensures Valid()
      ensures StepInsert(old(query.State()), old(PrepareFields())).Err? ==>
                r == Err(InvalidQueryState) && query.State() == old(query.State()) && store.log == old(store.log)
      ensures StepInsert(old(query.State()), old(PrepareFields())).Ok? ==>
                var q := StepInsert(old(query.State()), old(PrepareFields())).value;
                store.log == old(store.log) + [Sql(table, q)]
                && (store.answer(Sql(table, q)).Failed? ==> r == Err(UncheckedSql) && query.State() == AfterSql(q))
                && (store.answer(Sql(table, q)).Rows? ==> r == KeyValues(keys, old(Values())) && query.State() == Initial)
    {
      var vals := Values();
      var o := query.InsertAll(PrepareFields());
      if o.Fail? {
        return Err(o.error);
      }
      o := query.Execute(store);
      if o.Fail? {
        return Err(o.error);
      }
      r := KeyValues(keys, vals);
    }

    /**
     * `update`: an UPDATE of every field's text, restricted by one EQ per primary key (built
     * after the modifiers were merged), then submitted.
     */
    method Update() returns (r: Outcome)
      requires Valid()
      modifies query, store
      ensures Valid()
      ensures StepUpdate(old(query.State()), old(PrepareFields())).Err? ==>
                r == Fail(InvalidQueryState) && query.State() == old(query.State()) && store.log == old(store.log)
      ensures StepUpdate(old(query.State()), old(PrepareFields())).Ok? && PrimaryComparators(keys, old(Values())).Err? ==>
                r == Fail(NullPointer) && query.State() == StepUpdate(old(query.State()), old(PrepareFields())).value
                && store.log == old(store.log)
      ensures StepUpdate(old(query.State()), old(PrepareFields())).Ok? && PrimaryComparators(keys, old(Values())).Ok? ==>
                var q := StepWhere(StepUpdate(old(query.State()), old(PrepareFields())).value,
                                   PrimaryComparators(keys, old(Values())).value);
                store.log == old(store.log) + [Sql(table, q)] && Executed(q, r)
    {
      var vals := Values();
      r := query.UpdateAll(PrepareFields());
      if r.Fail? {
        return;
      }
      var comps := PrimaryComparators(keys, vals);
      if comps.Err? {
        return Fail(comps.error);
      }
      query.WhereAll(comps.value);
      r := query.Execute(store);
    }

    /** `delete`: a DELETE restricted by the comparisons gathered so far, submitted. */
    method Delete() returns (r: Outcome)
      requires Valid()
      modifies query, store
      ensures Valid()
      ensures StepDelete(old(query.State())).Err? ==>
                r == Fail(InvalidQueryState) && query.State() == old(query.State()) && store.log == old(store.log)
      ensures StepDelete(old(query.State())).Ok? ==>
                var q := StepDelete(old(query.State())).value;
                store.log == old(store.log) + [Sql(table, q)] && Executed(q, r)
    {
      r := query.Delete();
      if r.Fail? {
        return;
      }
      r := query.Execute(store);
    }

    /** `select()`, forwarded to the builder. */
    method Select() returns (r: Outcome)
      requires Valid()
      modifies query
      ensures Valid()
      ensures Stepped(StepSelectAll(old(query.State())), old(query.State()), query.State(), r)
    {
      r := query.SelectAll();
    }

    /** `select(column)`, forwarded to the builder. */
    method SelectColumn(col: string) returns (r: Outcome)
      requires Valid()
      modifies query
      ensures Valid()
      ensures Stepped(StepSelect(old(query.State()), [col]), old(query.State()), query.State(), r)
    {
      r := query.SelectColumn(col);
    }

    /** `select(columns)`, forwarded to the builder. */
    method SelectColumns(cols: seq<string>) returns (r: Outcome)
      requires Valid()
      modifies query
      ensures Valid()
      ensures Stepped(StepSelect(old(query.State()), cols), old(query.State()), query.State(), r)
    {
      r := query.SelectColumns(cols);
    }

    /** `where(comparator)`, forwarded to the builder. */
    method Where(c: Comparator)
      requires Valid()
      modifies query
      ensures Valid()
      ensures query.State() == StepWhere(old(query.State()), [c])
    {
      query.Where(c);
    }

    /** `where(comparators)`, forwarded to the builder. */
    method WhereAll(cs: seq<Comparator>)
      requires Valid()
      modifies query
      ensures Valid()
      ensures query.State() == StepWhere(old(query.State()), cs)
    {
      query.WhereAll(cs);
    }

    /** `where(lhs, rhs)`, forwarded to the builder as an EQ comparison. */
    method WhereEq(lhs: string, rhs: string)
      requires Valid()
      modifies query
      ensures Valid()
      ensures query.State() == StepWhere(old(query.State()), [EQ(lhs, rhs)])
    {
      query.WhereEq(lhs, rhs);
    }

    /** `execute()`, forwarded to the builder. */
    method Execute() returns (r: Outcome)
      requires Valid()
      modifies query, store
      ensures Valid()
      ensures store.log == old(store.log) + [Sql(table, old(query.State()))]
      ensures Executed(old(query.State()), r)
    {
      r := query.Execute(store);
    }
  }

  /** What a builder call that is legal only in some modes leaves: the new state, or the exception and the old state. */
  ghost predicate Stepped(step: Result<Query>, before: Query, after: Query, r: Outcome)
  {
    (step.Ok? ==> r == Pass && after == step.value)
    && (step.Err? ==> r == Fail(InvalidQueryState) && after == before)
  }

  /**
   * `fill` throws only NullPointer, for a slot without a class or without an extractor: an
   * extractor always yields a value of its own class, so the assignment never throws ClassCast.
   */
  lemma FillErrors(tpl: Template, handlers: set<TypeTag>, row: Row)
    ensures LoopOutcome(FillResults(tpl, handlers, row)).Fail? ==>
              LoopOutcome(FillResults(tpl, handlers, row)).error == NullPointer
  {
    var rs := FillResults(tpl, handlers, row);
    var k := FirstError(rs);
    if k < |rs| {
      assert rs[k] == FillAssign(tpl[k].1, handlers, row, tpl[k].0);
      FillAssignOutcome(tpl[k].1, handlers, row, tpl[k].0);
    }
  }

  /** `clear` throws only NullPointer, for a slot without a class. */
  lemma ClearErrors(tpl: Template)
    ensures LoopOutcome(ClearResults(tpl)).Fail? ==> LoopOutcome(ClearResults(tpl)).error == NullPointer
  {
    var rs := ClearResults(tpl);
    var k := FirstError(rs);
    if k < |rs| {
      assert rs[k] == Assign(tpl[k].1, None);
    }
  }

  /**
   * `clear` completes exactly when every slot has a class, and then every slot is empty;
   * a slot without a class throws.
   */
  lemma ClearEmpties(tpl: Template)
    ensures LoopOutcome(ClearResults(tpl)) == Pass <==> forall i :: 0 <= i < |tpl| ==> tpl[i].1.Some?
    ensures forall i :: 0 <= i < |tpl| && ClearResults(tpl)[i].Ok? ==> ClearResults(tpl)[i].value == None
  {
    var rs := ClearResults(tpl);
    if forall i :: 0 <= i < |tpl| ==> tpl[i].1.Some? {
      assert forall i :: 0 <= i < |rs| ==> rs[i].Ok?;
      FirstErrorNone(rs);
    } else {
      var i :| 0 <= i < |tpl| && tpl[i].1.None?;
      assert rs[i].Err?;
    }
  }

  /**
   * With no current row every extractor reads nothing: a slot with a class and an extractor
   * is left without a value and every other slot throws.
   */
  lemma FillFromNoRow(tpl: Template, handlers: set<TypeTag>)
    ensures LoopOutcome(FillResults(tpl, handlers, map[])) == Pass <==>
              forall i :: 0 <= i < |tpl| ==> tpl[i].1.Some? && tpl[i].1.value in handlers
    ensures forall i :: 0 <= i < |tpl| && FillResults(tpl, handlers, map[])[i].Ok? ==>
              FillResults(tpl, handlers, map[])[i].value == None
  {
    var rs := FillResults(tpl, handlers, map[]);
    if forall i :: 0 <= i < |tpl| ==> tpl[i].1.Some? && tpl[i].1.value in handlers {
      assert forall i :: 0 <= i < |rs| ==> rs[i].Ok?;
      FirstErrorNone(rs);
    } else {
      var i :| 0 <= i < |tpl| && !(tpl[i].1.Some? && tpl[i].1.value in handlers);
      assert rs[i].Err?;
    }
  }

  /**
   * The row `find(map)` matched is lost: for a String column `name` whose matching row holds
   * "Jan", a fill from that row loads "Jan", while a fill with no current row loads null.
   */
  lemma NoRowFillLosesMatch()
    ensures var tpl := [("name", Some(StringType))];
      && FillResults(tpl, HandledTypes(), map["name" := Some(Value(StringType, "Jan"))])
           == [Ok(Some(Value(StringType, "Jan")))]
      && FillResults(tpl, HandledTypes(), map[]) == [Ok(None)]
  {
    var tpl := [("name", Some(StringType))];
    var row := map["name" := Some(Value(StringType, "Jan"))];
    assert Value(StringType, "Jan") != NullText by {
      assert "Jan"[0] != "NULL"[0];
    }
    assert FillResults(tpl, HandledTypes(), row)[0] == Ok(Some(Value(StringType, "Jan")));
    assert FillResults(tpl, HandledTypes(), map[])[0] == Ok(None);
  }

  /** The first failure is at `i` when every earlier outcome succeeded and outcome `i` failed. */
  lemma {:induction false} FirstErrorAt(rs: seq<Result<Option<Value>>>, i: nat)
    requires i < |rs| && rs[i].Err? && forall j :: 0 <= j < i ==> rs[j].Ok?
    ensures FirstError(rs) == i
  {
    if i > 0 {
      FirstErrorAt(rs[1..], i - 1);
    }
  }

  /** There is no failure when every outcome succeeded. */
  lemma {:induction false} FirstErrorNone(rs: seq<Result<Option<Value>>>)
    requires forall j :: 0 <= j < |rs| ==> rs[j].Ok?
    ensures FirstError(rs) == |rs|
  {
    if rs != [] {
      FirstErrorNone(rs[1..]);
    }
  }

  /** The prepared list, read as a map, is the text of every field's value. */
  lemma PreparedMap(ns: seq<string>, vals: map<string, Option<Value>>, r: seq<Modifier>)
    requires NoDuplicates(ns) && (forall k :: k in vals <==> k in ns)
    requires |r| == |ns| && forall i :: 0 <= i < |ns| ==> r[i] == (ns[i], Text(vals[ns[i]]))
    ensures Columns(r) == ns
    ensures AsMap(r) == map k | k in vals :: Text(vals[k])
  {
    assert Columns(r) == ns by {
      assert forall i :: 0 <= i < |ns| ==> Columns(r)[i] == ns[i];
    }
    AsMapKeys(r);
    forall i | 0 <= i < |r| {
      AsMapAt(r, i);
    }
  }
}
