/** The older ORM of orm.py. Its metaclass is the schema builder with
    `InsertStyle.ValuesOnly`, but its `Model` is declared without that metaclass, and its
    `getValueOrDefault` reads the mappings through the misspelt attribute `__mapings__`.
    Both are modelled as written. The module also holds the `?` to `%s` rewrite that
    `select`, `execute` and `log` apply before the SQL reaches the driver. */
module RootOrm {
  import opened Results
  import opened Strings
  import opened Fields
  import opened Schemas
  import opened Instances

  /** The members `Model` defines itself. */
  const Members: set<string> :=
    {"__init__", "__getattr__", "__setattr__", "getValue", "getValueOrDefault", "save"}

  /** The attribute `getValueOrDefault` subscripts; no code ever sets it. */
  const MisspeltMappings := "__mapings__"

  /** `class C(Model): ...` in this file: with no metaclass the body is kept as it is, so
      every `Field` stays a class attribute and no metadata is added. */
  function DeclareModel(body: Body): (cls: ModelClass)
    ensures cls.schema.None?
    ensures cls.attrs == body
  {
    ModelClass(body, None)
  }

  /** An instance of a model class of this file. */
  class Model {
    const cls: ModelClass
    var items: map<string, Value>
    /** The keys whose default producer has been called, in order. */
    ghost var invoked: seq<string>

    /** `Model(**kw)`. */
    constructor (cls: ModelClass, kw: map<string, Value>)
      ensures this.cls == cls && items == kw && invoked == []
    {
      this.cls := cls;
      items := kw;
      invoked := [];
    }

    /** `getValue(key)`: a class attribute of that name wins; otherwise the stored item,
        or `None`. */
    function GetValue(key: string): (g: Got)
      reads this
      ensures key in ClassNames(cls, Members) ==> g == ClassAttribute(key)
      ensures key !in ClassNames(cls, Members) && key in items ==> g == Stored(items[key])
      ensures key !in ClassNames(cls, Members) && key !in items ==> g == Stored(NoneValue)
    {
      AttrLookup(ClassNames(cls, Members), items, key)
    }

    /** `getValueOrDefault(key)` as written: an unset or `None` value makes it subscript
        `self.__mapings__`. */
    method GetValueOrDefault(key: string, produced: Value) returns (r: Result<Got, OrmError>)
      modifies this
      ensures match Resolve(cls.schema, ClassNames(cls, Members), MisspeltMappings, old(items), key, produced)
        case Ok(x) => r == Ok(x.got) && items == x.items
                      && invoked == old(invoked) + (if x.invoked then [key] else [])
        case Err(e) => r == Err(e) && items == old(items) && invoked == old(invoked)
    {
      var value := GetValue(key);
      if value == Stored(NoneValue) {
        // `self.__mapings__` is never a class attribute holding the mappings: either some
        // other value of that name is subscripted, or `__getattr__` raises.
        if MisspeltMappings in ClassNames(cls, Members) || MisspeltMappings in items {
          return Err(TypeError);
        }
        return Err(AttributeError(MisspeltMappings));
      }
      return Ok(value);
    }

    /** The statement `save` hands to `execute`, when the class carries metadata. */
    method Save(produce: string -> Value) returns (r: Result<Statement, OrmError>)
      modifies this
      ensures cls.schema.None? ==>
                r == Err(AttributeError("__fields__")) && items == old(items) && invoked == old(invoked)
      ensures cls.schema.Some? ==>
                var b := ResolveAll(cls.schema, ClassNames(cls, Members), MisspeltMappings, old(items), BoundKeys(cls.schema.value), produce);
                && items == b.items && invoked == old(invoked) + b.invoked
                && r == match b.result
                        case Ok(args) => Ok(Statement(cls.schema.value.insert, args))
                        case Err(e) => Err(e)
    {
      if cls.schema.None? {
        return Err(AttributeError("__fields__"));
      }
      var keys := cls.schema.value.fields + [cls.schema.value.primaryKey];
      var args: seq<Got> := [];
      var i := 0;
      while i < |keys|
        invariant 0 <= i <= |keys|
        invariant var b := ResolveAll(cls.schema, ClassNames(cls, Members), MisspeltMappings, old(items), keys[..i], produce);
                  b.result == Ok(args) && items == b.items && invoked == old(invoked) + b.invoked
      {
        ResolveAllStep(cls.schema, ClassNames(cls, Members), MisspeltMappings, old(items), keys, produce, i);
        var g := GetValueOrDefault(keys[i], produce(keys[i]));
        if g.Err? {
          ResolveAllStops(cls.schema, ClassNames(cls, Members), MisspeltMappings, old(items), keys, produce, i + 1);
          return Err(g.error);
        }
        args := args + [g.value];
        i := i + 1;
      }
      assert keys[..i] == keys;
      r := Ok(Statement(cls.schema.value.insert, args));
    }
  }

  // ---------------------------------------------------------------------------------
  // The consequences of the two slips.

  /** As written, `getValueOrDefault` never stores a default: a set value is returned
      unchanged, and an unset or `None` one raises `AttributeError` for `__mapings__`,
      whatever the class's metadata. */
  lemma DefaultNeverStored(cls: ModelClass, items: map<string, Value>, key: string, produced: Value)
    requires MisspeltMappings !in ClassNames(cls, Members) && MisspeltMappings !in items
    ensures var g := AttrLookup(ClassNames(cls, Members), items, key);
            Resolve(cls.schema, ClassNames(cls, Members), MisspeltMappings, items, key, produced)
              == if IsNone(g) then Err(AttributeError(MisspeltMappings)) else Ok(Resolution(g, items, false))
  {
    UnmappedResolve(cls.schema, ClassNames(cls, Members), MisspeltMappings, items, key, produced);
  }

  /** Hence `save` on a class with metadata stores nothing and calls no producer; it
      succeeds exactly when every bound key already holds a value, and then binds what
      `getValue` reads; otherwise it raises the `AttributeError`. */
  lemma SaveNeedsEveryValue(cls: ModelClass, items: map<string, Value>, produce: string -> Value)
    requires cls.schema.Some?
    requires MisspeltMappings !in ClassNames(cls, Members) && MisspeltMappings !in items
    ensures var keys := BoundKeys(cls.schema.value);
            var b := ResolveAll(cls.schema, ClassNames(cls, Members), MisspeltMappings, items, keys, produce);
            && b.items == items && b.invoked == []
            && (b.result.Ok? <==> forall i :: 0 <= i < |keys| ==> !IsNone(AttrLookup(ClassNames(cls, Members), items, keys[i])))
            && (b.result.Ok? ==> b.result.value == ReadAll(ClassNames(cls, Members), items, keys))
            && (b.result.Err? ==> b.result.error == AttributeError(MisspeltMappings))
  {
    UnmappedBatch(cls.schema, ClassNames(cls, Members), MisspeltMappings, items, BoundKeys(cls.schema.value), produce);
  }

  /** Without the metaclass every `Field` of a declared class stays a class attribute, so
      `getValue` of a field yields the `Field` object itself, never the instance's value. */
  lemma FieldsShadowItems(body: Body, items: map<string, Value>, i: nat)
    requires i < |body| && body[i].1.FieldAttr?
    ensures AttrLookup(ClassNames(DeclareModel(body), Members), items, body[i].0) == ClassAttribute(body[i].0)
  {
    assert body[i].0 in AttrNames(body);
  }

  // ---------------------------------------------------------------------------------
  // The placeholder rewrite.

  /** `sql.replace('?', '%s')`, applied before the SQL reaches the driver. */
  function DriverSql(sql: string): (r: string)
    ensures Count('?', r) == 0
    ensures Count('%', r) == Count('%', sql) + Count('?', sql)
    ensures |r| == |sql| + Count('?', sql)
  {
    assert Count('?', "%s") == 0 && Count('%', "%s") == 1;
    ReplaceCounts(sql, '?', "%s", '%');
    Replace(sql, '?', "%s")
  }

  /** The rewrite works piece by piece: each part of a template is rewritten on its own. */
  lemma DriverSqlConcat(a: string, b: string)
    ensures DriverSql(a + b) == DriverSql(a) + DriverSql(b)
  {
    ReplaceConcat(a, b, '?', "%s");
  }

  /** A template built from `?`-free names turns into one `%s` per placeholder: the
      rewrite leaves the insert template of this file as it is except for its
      placeholders, which become exactly `len(fields) + 1` of them. */
  lemma InsertTemplateForDriver(table: string, fields: seq<string>, pk: string)
    requires '?' !in table
    ensures DriverSql(InsertTemplate(ValuesOnly, table, fields, pk))
         == "insert into `" + table + "` VALUES (" + DriverSql(Placeholders(|fields| + 1)) + ")"
    ensures Count('?', DriverSql(InsertTemplate(ValuesOnly, table, fields, pk))) == 0
    ensures Count('%', DriverSql(InsertTemplate(ValuesOnly, table, fields, pk)))
         == Count('%', InsertTemplate(ValuesOnly, table, fields, pk)) + |fields| + 1
  {
    var prefix := "insert into `" + table + "` VALUES (";
    var ph := Placeholders(|fields| + 1);
    assert InsertTemplate(ValuesOnly, table, fields, pk) == prefix + ph + ")";
    DriverSqlConcat(prefix + ph, ")");
    DriverSqlConcat(prefix, ph);
    ReplaceAbsent(prefix, '?', "%s");
    ReplaceAbsent(")", '?', "%s");
    ValuesOnlyPlaceholders(table, fields, pk);
  }
}
