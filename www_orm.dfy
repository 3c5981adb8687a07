/** The ORM of www/orm.py: the `Model` base class (a `dict` whose classes are built by
    `ModelMetaclass` with `InsertStyle.ColumnList`), the argument lists of `save`,
    `update` and `remove`, and the SQL that `findAll`, `findNumber` and `find` hand to
    `select`. The database calls themselves are not modelled: a statement or query is
    the value passed to them, and returned rows are inputs. */
module WwwOrm {
  import opened Results
  import opened Strings
  import opened Fields
  import opened Schemas
  import opened Instances

  /** The members `Model` defines itself; they shadow items of the same name. */
  const Members: set<string> :=
    {"__init__", "__getattr__", "__setattr__", "getValue", "getValueOrDefault",
     "findAll", "findNumber", "find", "save", "update", "remove"}

  /** An instance of a model class: its class and its items (the `dict` contents). */
  class Model {
    const cls: ModelClass
    var items: map<string, Value>
    /** The keys whose default producer has been called, in order. */
    ghost var invoked: seq<string>

    /** `Model(**kw)`. */
    constructor (cls: ModelClass, kw: map<string, Value>)
      ensures this.cls == cls && items == kw && invoked == []
    {
      this.cls := cls;
      items := kw;
      invoked := [];
    }

    /** `getValue(key)`: a class attribute of that name wins; otherwise the stored item,
        or `None` when there is none. */
    function GetValue(key: string): (g: Got)
      reads this
      ensures key in ClassNames(cls, Members) ==> g == ClassAttribute(key)
      ensures key !in ClassNames(cls, Members) && key in items ==> g == Stored(items[key])
      ensures key !in ClassNames(cls, Members) && key !in items ==> g == Stored(NoneValue)
    {
      AttrLookup(ClassNames(cls, Members), items, key)
    }

    /** `__setattr__`: the value becomes an item, never an attribute. */
    method SetAttr(key: string, value: Value)
      modifies this
      ensures items == old(items)[key := value] && invoked == old(invoked)
    {
      items := items[key := value];
    }

    /** `getValueOrDefault(key)`; `produced` is what the field's default returns if it is
        a callable and gets called. */
    method GetValueOrDefault(key: string, produced: Value) returns (r: Result<Got, OrmError>)
      modifies this
      ensures match Resolve(cls.schema, ClassNames(cls, Members), "__mappings__", old(items), key, produced)
        case Ok(x) => r == Ok(x.got) && items == x.items
                      && invoked == old(invoked) + (if x.invoked then [key] else [])
        case Err(e) => r == Err(e) && items == old(items) && invoked == old(invoked)
    {
      var value := GetValue(key);
      if value == Stored(NoneValue) {
        if cls.schema.None? {
          if "__mappings__" in ClassNames(cls, Members) || "__mappings__" in items {
            return Err(TypeError);
          }
          return Err(AttributeError("__mappings__"));
        }
        var mappings := cls.schema.value.mappings;
        if key !in mappings {
          return Err(KeyError(key));
        }
        var field := mappings[key];
        if field.default != Literal(NoneValue) {
          match field.default {
            case Literal(v) =>
              value := Stored(v);
            case Producer(_) =>
              value := Stored(produced);
              invoked := invoked + [key];
          }
          SetAttr(key, value.value);
        }
      }
      return Ok(value);
    }

    /** The statement `save` hands to `execute`: the insert template and the values of
        `__fields__` then `__primary_key__`, each through `getValueOrDefault`;
        `produce(k)` is what the default producer of field `k` returns. */
    method Save(produce: string -> Value) returns (r: Result<Statement, OrmError>)
      modifies this
      ensures cls.schema.None? ==>
                r == Err(AttributeError("__fields__")) && items == old(items) && invoked == old(invoked)
      ensures cls.schema.Some? ==>
                var b := ResolveAll(cls.schema, ClassNames(cls, Members), "__mappings__", old(items), BoundKeys(cls.schema.value), produce);
                && items == b.items && invoked == old(invoked) + b.invoked
                && r == match b.result
                        case Ok(args) => Ok(Statement(cls.schema.value.insert, args))
                        case Err(e) => Err(e)
    {
      if cls.schema.None? {
        return Err(AttributeError("__fields__"));
      }
      var keys := cls.schema.value.fields + [cls.schema.value.primaryKey];
      var args: seq<Got> := [];
      var i := 0;
      while i < |keys|
        invariant 0 <= i <= |keys|
        invariant var b := ResolveAll(cls.schema, ClassNames(cls, Members), "__mappings__", old(items), keys[..i], produce);
                  b.result == Ok(args) && items == b.items && invoked == old(invoked) + b.invoked
      {
        ResolveAllStep(cls.schema, ClassNames(cls, Members), "__mappings__", old(items), keys, produce, i);
        var g := GetValueOrDefault(keys[i], produce(keys[i]));
        if g.Err? {
          ResolveAllStops(cls.schema, ClassNames(cls, Members), "__mappings__", old(items), keys, produce, i + 1);
          return Err(g.error);
        }
        args := args + [g.value];
        i := i + 1;
      }
      assert keys[..i] == keys;
      r := Ok(Statement(cls.schema.value.insert, args));
    }

    /** The statement `update` hands to `execute`: the update template and `getValue` of
        `__fields__` then `__primary_key__`, with no default stored. */
    function UpdateStatement(): (r: Result<Statement, OrmError>)
      reads this
      ensures cls.schema.None? <==> r == Err(AttributeError("__fields__"))
      ensures r.Ok? ==>
                && r.value.sql == cls.schema.value.update
                && |r.value.args| == |cls.schema.value.fields| + 1
                && r.value.args[|cls.schema.value.fields|] == GetValue(cls.schema.value.primaryKey)
                && forall i :: 0 <= i < |cls.schema.value.fields| ==>
                     r.value.args[i] == GetValue(cls.schema.value.fields[i])
    {
      if cls.schema.None? then Err(AttributeError("__fields__"))
      else Ok(Statement(cls.schema.value.update,
                        ReadAll(ClassNames(cls, Members), items, BoundKeys(cls.schema.value))))
    }

    /** The statement `remove` hands to `execute`: the delete template and the primary
        key's value alone. */
    function RemoveStatement(): (r: Result<Statement, OrmError>)
      reads this
      ensures cls.schema.None? <==> r == Err(AttributeError("__primary_key__"))
      ensures r.Ok? ==>
                r.value == Statement(cls.schema.value.delete, [GetValue(cls.schema.value.primaryKey)])
    {
      if cls.schema.None? then Err(AttributeError("__primary_key__"))
      else Ok(Statement(cls.schema.value.delete, [GetValue(cls.schema.value.primaryKey)]))
    }
  }

  /** With the delete template the metaclass builds from `?`-free names, `remove` binds
      its one argument to the template's one placeholder. */
  lemma RemovePlaceholders(m: Model)
    requires m.cls.schema.Some?
    requires var s := m.cls.schema.value;
             s.delete == DeleteTemplate(s.table, s.primaryKey) && '?' !in s.table && '?' !in s.primaryKey
    ensures m.RemoveStatement().Ok?
    ensures Count('?', m.RemoveStatement().value.sql) == |m.RemoveStatement().value.args| == 1
  {
    var s := m.cls.schema.value;
    DeletePlaceholders(s.table, s.primaryKey);
  }

  // ---------------------------------------------------------------------------------
  // save and update on a class built by the metaclass.

  /** For a class built from a body with distinct names, `save` never raises: it binds one
      value per insert placeholder, each the value `getValueOrDefault` gives for that key
      alone, non-key fields first and the primary key last. */
  lemma SaveBindsEveryColumn(name: string, body: Body, items: map<string, Value>, produce: string -> Value)
    requires NamedAttrs(body) && DistinctKeys(body)
    requires name != "Model" && |PkNames(body)| == 1
    ensures SchemaOf(ColumnList, name, body).Ok? && SchemaOf(ColumnList, name, body).value.schema.Some?
    ensures var cls := SchemaOf(ColumnList, name, body).value;
            var keys := BoundKeys(cls.schema.value);
            var b := ResolveAll(cls.schema, ClassNames(cls, Members), "__mappings__", items, keys, produce);
            && b.result.Ok?
            && |b.result.value| == |keys| == |cls.schema.value.fields| + 1
            && forall i :: 0 <= i < |keys| ==>
                 && Resolve(cls.schema, ClassNames(cls, Members), "__mappings__", items, keys[i], produce(keys[i])).Ok?
                 && b.result.value[i] == Resolve(cls.schema, ClassNames(cls, Members), "__mappings__", items, keys[i], produce(keys[i])).value.got
  {
    BuiltKeys(ColumnList, name, body);
    var cls := SchemaOf(ColumnList, name, body).value;
    assert BoundKeys(cls.schema.value) == cls.schema.value.fields + [cls.schema.value.primaryKey];
    SaveOnMappedKeys(cls, items, produce);
  }

  /** `save` on a class whose bound keys are distinct and mapped. */
  lemma SaveOnMappedKeys(cls: ModelClass, items: map<string, Value>, produce: string -> Value)
    requires cls.schema.Some?
    requires Distinct(BoundKeys(cls.schema.value))
    requires forall i :: 0 <= i < |BoundKeys(cls.schema.value)| ==> BoundKeys(cls.schema.value)[i] in cls.schema.value.mappings
    ensures var keys := BoundKeys(cls.schema.value);
            var b := ResolveAll(cls.schema, ClassNames(cls, Members), "__mappings__", items, keys, produce);
            && b.result.Ok?
            && |b.result.value| == |keys|
            && forall i :: 0 <= i < |keys| ==>
                 && Resolve(cls.schema, ClassNames(cls, Members), "__mappings__", items, keys[i], produce(keys[i])).Ok?
                 && b.result.value[i] == Resolve(cls.schema, ClassNames(cls, Members), "__mappings__", items, keys[i], produce(keys[i])).value.got
  {
    var keys := BoundKeys(cls.schema.value);
    forall i | 0 <= i < |keys|
      ensures Resolve(cls.schema, ClassNames(cls, Members), "__mappings__", items, keys[i], produce(keys[i])).Ok?
    {
      ResolveMappedKey(cls.schema, ClassNames(cls, Members), items, keys[i], produce(keys[i]));
    }
    ResolveAllPointwise(cls.schema, ClassNames(cls, Members), "__mappings__", items, keys, produce);
  }

  /** After `save` succeeds on a class built from a body with distinct names, `update`
      binds exactly the values `save` bound: the defaults `save` stored are read back. */
  lemma UpdateAfterSaveBindsSameValues(name: string, body: Body, items: map<string, Value>,
                                       produce: string -> Value)
    requires NamedAttrs(body) && DistinctKeys(body)
    requires name != "Model" && |PkNames(body)| == 1
    ensures SchemaOf(ColumnList, name, body).Ok? && SchemaOf(ColumnList, name, body).value.schema.Some?
    ensures var cls := SchemaOf(ColumnList, name, body).value;
            var keys := BoundKeys(cls.schema.value);
            var b := ResolveAll(cls.schema, ClassNames(cls, Members), "__mappings__", items, keys, produce);
            b.result.Ok? && ReadAll(ClassNames(cls, Members), b.items, keys) == b.result.value
  {
    SaveBindsEveryColumn(name, body, items, produce);
    BuiltKeys(ColumnList, name, body);
    var cls := SchemaOf(ColumnList, name, body).value;
    ResolveAllThenRead(cls.schema, ClassNames(cls, Members), "__mappings__", items, BoundKeys(cls.schema.value), produce);
  }

  /** When every bound key already holds a value, `save` stores nothing, calls no
      producer and binds what `update` would. */
  lemma SaveOfSetValuesIsRead(cls: ModelClass, items: map<string, Value>, produce: string -> Value)
    requires cls.schema.Some?
    requires forall i :: 0 <= i < |BoundKeys(cls.schema.value)| ==>
               !IsNone(AttrLookup(ClassNames(cls, Members), items, BoundKeys(cls.schema.value)[i]))
    ensures ResolveAll(cls.schema, ClassNames(cls, Members), "__mappings__", items, BoundKeys(cls.schema.value), produce)
         == Batch(Ok(ReadAll(ClassNames(cls, Members), items, BoundKeys(cls.schema.value))), items, [])
  {
    ResolveAllOfSetValues(cls.schema, ClassNames(cls, Members), "__mappings__", items, BoundKeys(cls.schema.value), produce);
  }

  // ---------------------------------------------------------------------------------
  // Queries.

  /** What a class method hands to `select`: the SQL, its arguments and the row limit. */
  datatype Query = Query(sql: string, args: seq<Value>, size: Option<nat>)

  /** A row as the driver returns it: column name to value. */
  type Row = map<string, Value>

  /** `isinstance(limit, int)` (a `bool` is an `int`) or a tuple of two. */
  predicate LimitAccepted(limit: Value)
  {
    limit.Int? || limit.Bool? || (limit.Tuple? && |limit.elems| == 2)
  }

  /** A ` keyword argument` clause, present exactly when the argument is truthy. */
  function Clause(keyword: string, arg: string): string
  {
    if arg != "" then " " + keyword + " " + arg else ""
  }

  /** The SQL of `findAll`, clause by clause: `where`, `order by` and `limit ?` each appear
      exactly when their argument is truthy. */
  function FindAllSql(select: string, where: string, orderBy: string, limit: Value): string
  {
    select + Clause("where", where) + Clause("order by", orderBy) + (if Truthy(limit) then " limit ?" else "")
  }

  /** Appending a keyword and its argument to the pieces when the argument is truthy adds
      the clause to the joined SQL. */
  lemma JoinClause(sql: seq<string>, keyword: string, arg: string)
    requires |sql| > 0
    ensures Join(" ", if arg != "" then sql + [keyword, arg] else sql) == Join(" ", sql) + Clause(keyword, arg)
  {
    if arg != "" {
      JoinSnoc2(" ", sql, keyword, arg);
    } else {
      assert Join(" ", sql) + "" == Join(" ", sql);
    }
  }

  /** `Model.findAll(where, args, orderBy=..., limit=...)` up to the `select` call; an
      absent `where`, `args` or `orderBy` is "", [] and "". */
  method FindAll(cls: ModelClass, where: string, args: seq<Value>, orderBy: string, limit: Value)
    returns (r: Result<Query, OrmError>)
    ensures cls.schema.None? ==> r == Err(AttributeError("__select__"))
    ensures cls.schema.Some? && Truthy(limit) && !LimitAccepted(limit) ==> r == Err(ValueError(limit))
    ensures cls.schema.Some? && (!Truthy(limit) || LimitAccepted(limit)) ==>
              r == Ok(Query(FindAllSql(cls.schema.value.select, where, orderBy, limit),
                            args + (if Truthy(limit) then [limit] else []), None))
  {
    if cls.schema.None? {
      return Err(AttributeError("__select__"));
    }
    var select := cls.schema.value.select;
    var sql := [select];
    JoinClause(sql, "where", where);
    if where != "" {
      sql := sql + ["where", where];
    }
    ghost var text := select + Clause("where", where);
    assert Join(" ", sql) == text;
    var params := args;
    JoinClause(sql, "order by", orderBy);
    if orderBy != "" {
      sql := sql + ["order by", orderBy];
    }
    text := text + Clause("order by", orderBy);
    assert Join(" ", sql) == text;
    JoinClause(sql, "limit", "?");
    if Truthy(limit) {
      if !LimitAccepted(limit) {
        return Err(ValueError(limit));
      }
      sql := sql + ["limit", "?"];
      params := params + [limit];
    } else {
      assert params == args + [];
    }
    LimitClause(text, limit);
    assert Join(" ", sql) == FindAllSql(select, where, orderBy, limit);
    r := Ok(Query(Join(" ", sql), params, None));
  }

  /** The ` limit ?` clause is the clause of keyword `limit` with argument `?`. */
  lemma LimitClause(prefix: string, limit: Value)
    ensures prefix + (if Truthy(limit) then Clause("limit", "?") else "")
         == prefix + (if Truthy(limit) then " limit ?" else "")
  {
  }

  /** A clause holds the placeholders of its argument and no other. */
  lemma ClauseCount(keyword: string, arg: string)
    requires '?' !in keyword
    ensures Count('?', Clause(keyword, arg)) == Count('?', arg)
  {
    if arg != "" {
      CountBetween('?', " " + keyword + " ", arg, "");
      assert Clause(keyword, arg) == " " + keyword + " " + arg + "";
    } else {
      assert Count('?', "") == 0;
    }
  }

  /** A `findAll` query carries one placeholder per argument whenever the `where` clause
      has one per caller argument and the template and `order by` clause have none. */
  lemma FindAllPlaceholders(select: string, where: string, args: seq<Value>, orderBy: string, limit: Value)
    requires Count('?', select) == 0 && Count('?', orderBy) == 0
    requires Count('?', where) == |args|
    ensures Count('?', FindAllSql(select, where, orderBy, limit))
         == |args + (if Truthy(limit) then [limit] else [])|
  {
    var w := Clause("where", where);
    var o := Clause("order by", orderBy);
    var l := if Truthy(limit) then " limit ?" else "";
    ClauseCount("where", where);
    ClauseCount("order by", orderBy);
    CountAbsent('?', " limit ");
    CountConcat('?', " limit ", "?");
    assert " limit ?" == " limit " + "?";
    assert Count('?', l) == if Truthy(limit) then 1 else 0;
    CountConcat('?', select, w);
    CountConcat('?', select + w, o);
    CountConcat('?', select + w + o, l);
  }

  /** The SQL of `findNumber`: the count column aliased `_num_`, then the `where` clause
      when it is truthy. */
  function FindNumberSql(selectField: string, table: string, where: string): string
  {
    "select " + selectField + " _num_ from `" + table + "`" + Clause("where", where)
  }

  /** `Model.findNumber(selectField, where, args)` up to the `select` call: the caller's
      arguments, and one row fetched. */
  method FindNumber(cls: ModelClass, selectField: string, where: string, args: seq<Value>)
    returns (r: Result<Query, OrmError>)
    ensures cls.schema.None? ==> r == Err(AttributeError("__table__"))
    ensures cls.schema.Some? ==>
              r == Ok(Query(FindNumberSql(selectField, cls.schema.value.table, where), args, Some(1)))
  {
    if cls.schema.None? {
      return Err(AttributeError("__table__"));
    }
    var base := "select " + selectField + " _num_ from `" + cls.schema.value.table + "`";
    var sql := [base];
    JoinClause(sql, "where", where);
    if where != "" {
      sql := sql + ["where", where];
    }
    assert Join(" ", sql) == base + Clause("where", where);
    r := Ok(Query(Join(" ", sql), args, Some(1)));
  }

  /** A `findNumber` query carries one placeholder per argument whenever the `where`
      clause has one per argument and the selected expression and table have none. */
  lemma FindNumberPlaceholders(selectField: string, table: string, where: string, args: seq<Value>)
    requires '?' !in selectField && '?' !in table
    requires Count('?', where) == |args|
    ensures Count('?', FindNumberSql(selectField, table, where)) == |args|
  {
    var head := "select " + selectField + " _num_ from `";
    var base := head + table + "`";
    CountAbsent('?', selectField);
    CountAbsent('?', table);
    CountBetween('?', "select ", selectField, " _num_ from `");
    CountConcat('?', head, table);
    CountAppendFree('?', head + table, "`");
    ClauseCount("where", where);
    CountConcat('?', base, Clause("where", where));
  }

  /** What `findNumber` returns from the rows `select` gave back: `None` for no row,
      else the first row's `_num_` column. */
  function NumberFromRows(rows: seq<Row>): (r: Result<Option<Value>, OrmError>)
    ensures |rows| == 0 <==> r == Ok(None)
    ensures |rows| > 0 && "_num_" in rows[0] <==> r.Ok? && r.value.Some?
    ensures r.Ok? && r.value.Some? ==> r.value.value == rows[0]["_num_"]
    ensures r.Err? ==> r.error == KeyError("_num_")
  {
    if |rows| == 0 then Ok(None)
    else if "_num_" in rows[0] then Ok(Some(rows[0]["_num_"]))
    else Err(KeyError("_num_"))
  }

  /** `Model.find(pk)` up to the `select` call: the select template restricted to the
      primary key, the key as the only argument, one row fetched. */
  function FindQuery(cls: ModelClass, pk: Value): (r: Result<Query, OrmError>)
    ensures cls.schema.None? <==> r.Err?
    ensures r.Err? ==> r.error == AttributeError("__select__")
    ensures r.Ok? ==> r.value.args == [pk] && r.value.size == Some(1)
    ensures r.Ok? ==> r.value.sql == cls.schema.value.select + " where `" + cls.schema.value.primaryKey + "`=?"
  {
    if cls.schema.None? then Err(AttributeError("__select__"))
    else Ok(Query(cls.schema.value.select + " where `" + cls.schema.value.primaryKey + "`=?", [pk], Some(1)))
  }

  /** `find` on a class built from a body with `?`-free names binds exactly one
      argument to exactly one placeholder. */
  lemma FindPlaceholders(cls: ModelClass, pk: Value)
    requires cls.schema.Some?
    requires Count('?', cls.schema.value.select) == 0 && '?' !in cls.schema.value.primaryKey
    ensures Count('?', FindQuery(cls, pk).value.sql) == |FindQuery(cls, pk).value.args| == 1
  {
    var s := cls.schema.value;
    CountAppendFree('?', s.select, " where `");
    CountAppendFree('?', s.select + " where `", s.primaryKey);
    CountConcat('?', s.select + " where `" + s.primaryKey, "`=?");
    assert Count('?', "`=?") == 1;
  }

  /** What `find` returns from the rows `select` gave back: `None`, or the items of the
      instance built from the first row. */
  function FoundItems(rows: seq<Row>): (r: Option<Row>)
    ensures r.None? <==> |rows| == 0
    ensures r.Some? ==> r.value == rows[0]
  {
    if |rows| == 0 then None else Some(rows[0])
  }
}
