/** What a model instance reads and writes. A `Model` is a `dict` subclass whose
    `__getattr__` falls back to its items and whose `__setattr__` writes an item, so
    `getattr(self, key, None)` sees class attributes first, then the instance's items, then
    `None`. This module states `getValue`, `getValueOrDefault` and the batches of them that
    `save` and `update` build, as functions of the class and the instance's items. */
module Instances {
  import opened Results
  import opened Fields
  import opened Schemas

  /** What `getattr(self, key, None)` yields: a stored item (or `None`), or a class-level
      attribute such as a method, a template or a class-level `Field`. */
  datatype Got = Stored(value: Value) | ClassAttribute(name: string)

  /** The exceptions the modelled code can raise. */
  datatype OrmError =
    | AttributeError(name: string)
    | KeyError(key: string)
    | TypeError
    | ValueError(limit: Value)

  /** The class attributes `ModelMetaclass` adds. */
  const MetadataNames: set<string> :=
    {"__mappings__", "__table__", "__primary_key__", "__fields__",
     "__select__", "__insert__", "__update__", "__delete__"}

  /** The public methods every `dict` subclass inherits. */
  const DictMethodNames: set<string> :=
    {"clear", "copy", "fromkeys", "get", "items", "keys", "pop", "popitem",
     "setdefault", "update", "values"}

  function AttrNames(body: Body): set<string>
  {
    set i | 0 <= i < |body| :: body[i].0
  }

  /** Every name found on the class before `__getattr__` is consulted: what is left of the
      class body, the metadata (if any), the base `Model`'s own members `own`, and the
      methods inherited from `dict`. */
  function ClassNames(cls: ModelClass, own: set<string>): set<string>
  {
    AttrNames(cls.attrs) + (if cls.schema.Some? then MetadataNames else {}) + own + DictMethodNames
  }

  /** `Model.__getattr__`: the item, or `AttributeError` when there is none. */
  function GetAttr(items: map<string, Value>, key: string): (r: Result<Value, OrmError>)
    ensures r.Ok? <==> key in items
    ensures r.Ok? ==> r.value == items[key]
    ensures r.Err? ==> r.error == AttributeError(key)
  {
    if key in items then Ok(items[key]) else Err(AttributeError(key))
  }

  /** `getattr(self, key, None)`, which is `getValue(key)`. */
  function AttrLookup(names: set<string>, items: map<string, Value>, key: string): Got
  {
    if key in names then ClassAttribute(key)
    else match GetAttr(items, key)
      case Ok(v) => Stored(v)
      case Err(_) => Stored(NoneValue)
  }

  predicate IsNone(g: Got)
  {
    g == Stored(NoneValue)
  }

  /** What `self.<attrName>` yields when it is then subscripted: the field mappings, a
      value that is not a mapping, or nothing. */
  datatype MappingAttr = Mapping(fields: map<string, Field>) | NotMapping | Missing(name: string)

  function MappingsAttr(schema: Option<Schema>, names: set<string>, items: map<string, Value>,
                        attrName: string): MappingAttr
  {
    if attrName == "__mappings__" && schema.Some? then Mapping(schema.value.mappings)
    else if attrName in names || attrName in items then NotMapping
    else Missing(attrName)
  }

  /** One `getValueOrDefault` call: the value returned, the items afterwards, and whether
      the default producer was invoked. */
  datatype Resolution = Resolution(got: Got, items: map<string, Value>, invoked: bool)

  /** `getValueOrDefault(key)` on an instance whose class has the metadata `schema` and
      the class-level names `names` (`ClassNames`), reading the mappings through the
      attribute `attrName`; `produced` is what the field's default producer returns if it
      is called. */
  function Resolve(schema: Option<Schema>, names: set<string>, attrName: string,
                   items: map<string, Value>, key: string, produced: Value): Result<Resolution, OrmError>
  {
    var got := AttrLookup(names, items, key);
    if !IsNone(got) then Ok(Resolution(got, items, false))
    else match MappingsAttr(schema, names, items, attrName)
      case Missing(n) => Err(AttributeError(n))
      case NotMapping => Err(TypeError)
      case Mapping(m) =>
        if key !in m then Err(KeyError(key))
        else match m[key].default
          case Literal(v) =>
            if v == NoneValue then Ok(Resolution(got, items, false))
            else Ok(Resolution(Stored(v), items[key := v], false))
          case Producer(_) => Ok(Resolution(Stored(produced), items[key := produced], true))
  }

  /** The outcome of resolving several keys in order, stopping at the first exception;
      the items keep whatever was stored before it. */
  datatype Batch = Batch(result: Result<seq<Got>, OrmError>, items: map<string, Value>, invoked: seq<string>)

  /** `list(map(self.getValueOrDefault, keys))`, with the class as for `Resolve`;
      `produce(k)` is what the producer of field `k` returns. */
  function ResolveAll(schema: Option<Schema>, names: set<string>, attrName: string,
                      items: map<string, Value>, keys: seq<string>, produce: string -> Value): Batch
    decreases |keys|
  {
    if |keys| == 0 then Batch(Ok([]), items, [])
    else
      var b := ResolveAll(schema, names, attrName, items, keys[..|keys| - 1], produce);
      var k := keys[|keys| - 1];
      if b.result.Err? then b
      else match Resolve(schema, names, attrName, b.items, k, produce(k))
        case Err(e) => Batch(Err(e), b.items, b.invoked)
        case Ok(x) => Batch(Ok(b.result.value + [x.got]), x.items, b.invoked + (if x.invoked then [k] else []))
  }

  /** `list(map(self.getValue, keys))`. */
  function ReadAll(names: set<string>, items: map<string, Value>, keys: seq<string>): (r: seq<Got>)
    ensures |r| == |keys|
  {
    seq(|keys|, i requires 0 <= i < |keys| => AttrLookup(names, items, keys[i]))
  }

  /** The SQL handed to `execute` or `select`, and its positional arguments. */
  datatype Statement = Statement(sql: string, args: seq<Got>)

  /** `__fields__` followed by `__primary_key__`: the keys `save` and `update` bind. */
  function BoundKeys(s: Schema): (r: seq<string>)
    ensures |r| == |s.fields| + 1 && r[|s.fields|] == s.primaryKey
    ensures forall i :: 0 <= i < |s.fields| ==> r[i] == s.fields[i]
  {
    s.fields + [s.primaryKey]
  }

  /** The two maps hold the same entry (or none) at `k`. */
  predicate Agree(a: map<string, Value>, b: map<string, Value>, k: string)
  {
    (k in a <==> k in b) && (k in a ==> a[k] == b[k])
  }

  // ---------------------------------------------------------------------------------
  // getValue and __setattr__.

  /** After `setattr(self, key, v)`, `getValue(key)` sees `v` unless a class attribute of
      that name shadows the item; other keys read as before. */
  lemma SetAttrThenGet(names: set<string>, items: map<string, Value>, key: string, v: Value, other: string)
    requires other != key
    ensures AttrLookup(names, items[key := v], key) == if key in names then ClassAttribute(key) else Stored(v)
    ensures AttrLookup(names, items[key := v], other) == AttrLookup(names, items, other)
  {
  }

  // ---------------------------------------------------------------------------------
  // getValueOrDefault.

  /** A value that is not `None` is returned as it is, nothing is stored and no producer
      is called. */
  lemma ResolveKeepsSetValue(schema: Option<Schema>, names: set<string>, attrName: string,
                             items: map<string, Value>, key: string, produced: Value)
    requires !IsNone(AttrLookup(names, items, key))
    ensures Resolve(schema, names, attrName, items, key, produced)
         == Ok(Resolution(AttrLookup(names, items, key), items, false))
  {
  }

  /** With the metadata present, an unset or `None` field whose default is not `None`
      gets the default (the producer's result when it is callable): it is stored and
      returned, and the producer is called exactly when the default is callable. */
  lemma ResolveMaterializes(schema: Option<Schema>, names: set<string>, items: map<string, Value>,
                            key: string, produced: Value)
    requires schema.Some? && key in schema.value.mappings
    requires key !in names
    requires key !in items || items[key] == NoneValue
    requires schema.value.mappings[key].default != Literal(NoneValue)
    ensures var v := match schema.value.mappings[key].default
                     case Literal(l) => l
                     case Producer(_) => produced;
            Resolve(schema, names, "__mappings__", items, key, produced)
              == Ok(Resolution(Stored(v), items[key := v], schema.value.mappings[key].default.Producer?))
  {
  }

  /** Whatever a call returns is what `getValue` reads afterwards. */
  lemma ResolveThenRead(schema: Option<Schema>, names: set<string>, attrName: string,
                        items: map<string, Value>, key: string, produced: Value)
    requires Resolve(schema, names, attrName, items, key, produced).Ok?
    ensures var x := Resolve(schema, names, attrName, items, key, produced).value;
            AttrLookup(names, x.items, key) == x.got
  {
  }

  /** A second call returns the value the first one returned, changes nothing and does
      not call the producer again, when that value is not `None`. */
  lemma ResolveCaches(schema: Option<Schema>, names: set<string>, attrName: string,
                      items: map<string, Value>, key: string, p1: Value, p2: Value)
    requires Resolve(schema, names, attrName, items, key, p1).Ok?
    requires !IsNone(Resolve(schema, names, attrName, items, key, p1).value.got)
    ensures var x := Resolve(schema, names, attrName, items, key, p1).value;
            Resolve(schema, names, attrName, x.items, key, p2) == Ok(Resolution(x.got, x.items, false))
  {
    ResolveThenRead(schema, names, attrName, items, key, p1);
  }

  /** A call stores at most the entry of its own key. */
  lemma ResolveFrame(schema: Option<Schema>, names: set<string>, attrName: string,
                     items: map<string, Value>, key: string, produced: Value, other: string)
    requires Resolve(schema, names, attrName, items, key, produced).Ok?
    requires other != key
    ensures Agree(Resolve(schema, names, attrName, items, key, produced).value.items, items, other)
  {
  }

  /** When the mappings attribute is a class attribute, a call depends on the instance's
      items only through the entry of its own key. */
  lemma ResolveLocal(schema: Option<Schema>, names: set<string>, attrName: string,
                     a: map<string, Value>, b: map<string, Value>, key: string, produced: Value)
    requires attrName in names
    requires Agree(a, b, key)
    ensures var ra := Resolve(schema, names, attrName, a, key, produced);
            var rb := Resolve(schema, names, attrName, b, key, produced);
            && ra.Ok? == rb.Ok?
            && (ra.Err? ==> ra.error == rb.error)
            && (ra.Ok? ==> ra.value.got == rb.value.got && ra.value.invoked == rb.value.invoked
                           && Agree(ra.value.items, rb.value.items, key))
  {
    assert AttrLookup(names, a, key) == AttrLookup(names, b, key);
    assert MappingsAttr(schema, names, a, attrName) == MappingsAttr(schema, names, b, attrName);
  }

  // ---------------------------------------------------------------------------------
  // Batches: the argument lists of save and update.

  /** A successful batch has one value per key. */
  lemma {:induction false} ResolveAllLength(schema: Option<Schema>, names: set<string>, attrName: string,
                                            items: map<string, Value>, keys: seq<string>, produce: string -> Value)
    ensures var b := ResolveAll(schema, names, attrName, items, keys, produce);
            b.result.Ok? ==> |b.result.value| == |keys|
    decreases |keys|
  {
    if |keys| > 0 {
      ResolveAllLength(schema, names, attrName, items, keys[..|keys| - 1], produce);
    }
  }

  /** A batch stores entries only at its own keys. */
  lemma {:induction false} ResolveAllFrame(schema: Option<Schema>, names: set<string>, attrName: string,
                                           items: map<string, Value>, keys: seq<string>,
                                           produce: string -> Value, other: string)
    requires other !in keys
    ensures Agree(ResolveAll(schema, names, attrName, items, keys, produce).items, items, other)
    decreases |keys|
  {
    if |keys| > 0 {
      var init := keys[..|keys| - 1];
      ResolveAllFrame(schema, names, attrName, items, init, produce, other);
      var b := ResolveAll(schema, names, attrName, items, init, produce);
      var k := keys[|keys| - 1];
      if b.result.Ok? && Resolve(schema, names, attrName, b.items, k, produce(k)).Ok? {
        ResolveFrame(schema, names, attrName, b.items, k, produce(k), other);
      }
    }
  }

  /** With distinct keys and the mappings read from the class, each key of a batch is
      resolved as if it were resolved alone on the original items: the batch succeeds
      exactly when every single call does, and then returns their values in key order. */
  lemma {:induction false} ResolveAllPointwise(schema: Option<Schema>, names: set<string>, attrName: string,
                                               items: map<string, Value>, keys: seq<string>,
                                               produce: string -> Value)
    requires attrName in names
    requires Distinct(keys)
    ensures var b := ResolveAll(schema, names, attrName, items, keys, produce);
            b.result.Ok? <==> forall i :: 0 <= i < |keys| ==> Resolve(schema, names, attrName, items, keys[i], produce(keys[i])).Ok?
    ensures var b := ResolveAll(schema, names, attrName, items, keys, produce);
            b.result.Ok? ==>
              && |b.result.value| == |keys|
              && forall i :: 0 <= i < |keys| ==>
                   b.result.value[i] == Resolve(schema, names, attrName, items, keys[i], produce(keys[i])).value.got
    decreases |keys|
  {
    if |keys| > 0 {
      var n := |keys| - 1;
      var init := keys[..n];
      var k := keys[n];
      assert keys[..n + 1] == keys;
      ResolveAllPointwise(schema, names, attrName, items, init, produce);
      ResolveAllFrame(schema, names, attrName, items, init, produce, k);
      ResolveAllStep(schema, names, attrName, items, keys, produce, n);
      var b := ResolveAll(schema, names, attrName, items, init, produce);
      ResolveLocal(schema, names, attrName, b.items, items, k, produce(k));
      if b.result.Ok? {
        ResolveAllLength(schema, names, attrName, items, init, produce);
        forall i | 0 <= i < n
          ensures keys[i] == init[i]
        {
        }
      } else {
        var j :| 0 <= j < n && !Resolve(schema, names, attrName, items, init[j], produce(init[j])).Ok?;
        assert keys[j] == init[j];
      }
    }
  }

  /** After a successful batch over distinct keys, reading each key back (`getValue`, as
      `update` does) gives exactly the value the batch returned for it. */
  lemma {:induction false} ResolveAllThenRead(schema: Option<Schema>, names: set<string>, attrName: string,
                                              items: map<string, Value>, keys: seq<string>,
                                              produce: string -> Value)
    requires Distinct(keys)
    requires ResolveAll(schema, names, attrName, items, keys, produce).result.Ok?
    ensures var b := ResolveAll(schema, names, attrName, items, keys, produce);
            ReadAll(names, b.items, keys) == b.result.value
    decreases |keys|
  {
    if |keys| > 0 {
      var init := keys[..|keys| - 1];
      var k := keys[|keys| - 1];
      var b := ResolveAll(schema, names, attrName, items, init, produce);
      ResolveAllThenRead(schema, names, attrName, items, init, produce);
      ResolveAllLength(schema, names, attrName, items, init, produce);
      ResolveThenRead(schema, names, attrName, b.items, k, produce(k));
      var x := Resolve(schema, names, attrName, b.items, k, produce(k)).value;
      var b' := ResolveAll(schema, names, attrName, items, keys, produce);
      forall i | 0 <= i < |keys|
        ensures AttrLookup(names, b'.items, keys[i]) == b'.result.value[i]
      {
        if i < |init| {
          assert keys[i] == init[i];
          ResolveFrame(schema, names, attrName, b.items, k, produce(k), keys[i]);
          assert AttrLookup(names, b'.items, keys[i]) == AttrLookup(names, b.items, init[i]);
        }
      }
    }
  }

  /** Reading keys only never calls a producer nor stores anything: with every value
      already set, a batch returns exactly what `getValue` reads. */
  lemma {:induction false} ResolveAllOfSetValues(schema: Option<Schema>, names: set<string>, attrName: string,
                                                 items: map<string, Value>, keys: seq<string>,
                                                 produce: string -> Value)
    requires forall i :: 0 <= i < |keys| ==> !IsNone(AttrLookup(names, items, keys[i]))
    ensures ResolveAll(schema, names, attrName, items, keys, produce)
         == Batch(Ok(ReadAll(names, items, keys)), items, [])
    decreases |keys|
  {
    if |keys| > 0 {
      var init := keys[..|keys| - 1];
      ResolveAllOfSetValues(schema, names, attrName, items, init, produce);
      assert ReadAll(names, items, keys)
          == ReadAll(names, items, init) + [AttrLookup(names, items, keys[|keys| - 1])];
    }
  }

  /** The batch over one more key: the batch so far, then that key resolved on the items
      it left, unless it already raised. */
  lemma ResolveAllStep(schema: Option<Schema>, names: set<string>, attrName: string,
                       items: map<string, Value>, keys: seq<string>, produce: string -> Value, i: nat)
    requires i < |keys|
    ensures var b := ResolveAll(schema, names, attrName, items, keys[..i], produce);
            var k := keys[i];
            b.result.Ok? ==>
              ResolveAll(schema, names, attrName, items, keys[..i + 1], produce)
              == match Resolve(schema, names, attrName, b.items, k, produce(k))
                 case Err(e) => Batch(Err(e), b.items, b.invoked)
                 case Ok(x) => Batch(Ok(b.result.value + [x.got]), x.items, b.invoked + (if x.invoked then [k] else []))
  {
    assert keys[..i + 1][..i] == keys[..i];
  }

  /** Once a key raises, the batch stops: later keys change nothing. */
  lemma {:induction false} ResolveAllStops(schema: Option<Schema>, names: set<string>, attrName: string,
                                           items: map<string, Value>, keys: seq<string>,
                                           produce: string -> Value, n: nat)
    requires n <= |keys|
    requires ResolveAll(schema, names, attrName, items, keys[..n], produce).result.Err?
    ensures ResolveAll(schema, names, attrName, items, keys, produce)
         == ResolveAll(schema, names, attrName, items, keys[..n], produce)
    decreases |keys|
  {
    if n < |keys| {
      var init := keys[..|keys| - 1];
      assert init[..n] == keys[..n];
      ResolveAllStops(schema, names, attrName, items, init, produce, n);
    } else {
      assert keys[..n] == keys;
    }
  }

  /** With the metadata present, `getValueOrDefault` never raises for a key of the
      mappings. */
  lemma ResolveMappedKey(schema: Option<Schema>, names: set<string>, items: map<string, Value>,
                         key: string, produced: Value)
    requires schema.Some? && key in schema.value.mappings
    ensures Resolve(schema, names, "__mappings__", items, key, produced).Ok?
  {
  }

  /** When the attribute read for the mappings is not `__mappings__` and names nothing,
      a call returns a set value unchanged and raises for an unset one. */
  lemma UnmappedResolve(schema: Option<Schema>, names: set<string>, attrName: string,
                        items: map<string, Value>, key: string, produced: Value)
    requires attrName != "__mappings__"
    requires attrName !in names && attrName !in items
    ensures var g := AttrLookup(names, items, key);
            Resolve(schema, names, attrName, items, key, produced)
              == if IsNone(g) then Err(AttributeError(attrName)) else Ok(Resolution(g, items, false))
  {
  }

  /** Under the same condition a batch stores nothing and calls no producer; it succeeds
      exactly when every key already holds a value, and then returns what `getValue`
      reads. */
  lemma {:induction false} UnmappedBatch(schema: Option<Schema>, names: set<string>, attrName: string,
                                         items: map<string, Value>, keys: seq<string>, produce: string -> Value)
    requires attrName != "__mappings__"
    requires attrName !in names && attrName !in items
    ensures var b := ResolveAll(schema, names, attrName, items, keys, produce);
            && b.items == items && b.invoked == []
            && (b.result.Ok? <==> forall i :: 0 <= i < |keys| ==> !IsNone(AttrLookup(names, items, keys[i])))
            && (b.result.Ok? ==> b.result.value == ReadAll(names, items, keys))
            && (b.result.Err? ==> b.result.error == AttributeError(attrName))
    decreases |keys|
  {
    if |keys| > 0 {
      var init := keys[..|keys| - 1];
      var last := keys[|keys| - 1];
      UnmappedBatch(schema, names, attrName, items, init, produce);
      UnmappedResolve(schema, names, attrName, items, last, produce(last));
      var b := ResolveAll(schema, names, attrName, items, init, produce);
      var g := AttrLookup(names, items, last);
      if b.result.Ok? {
        assert ReadAll(names, items, keys) == ReadAll(names, items, init) + [g];
        if IsNone(g) {
          assert keys[|init|] == last;
        }
      } else {
        var j :| 0 <= j < |init| && IsNone(AttrLookup(names, items, init[j]));
        assert keys[j] == init[j];
      }
    }
  }
}
