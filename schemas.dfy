/** The schema builder run by `ModelMetaclass.__new__` when a model class is declared:
    it collects the `Field` attributes of the class body, checks that exactly one of them is
    the primary key, removes them from the class namespace and synthesises the four SQL
    templates with `?` placeholders. Both ORM files share this code; they differ only in the
    shape of the insert template (`InsertStyle`). */
module Schemas {
  import opened Results
  import opened Strings
  import opened Fields

  /** One entry of a class body: a `Field` instance or any other attribute (a method, a
      string such as `__table__`), the latter kept as its `str()` rendering. */
  datatype Attr = FieldAttr(field: Field) | Plain(shown: string)

  /** A class body namespace in declaration order (a Python dict: keys are distinct). */
  type Body = seq<(string, Attr)>

  predicate DistinctKeys(body: Body)
  {
    forall i, j :: 0 <= i < j < |body| ==> body[i].0 != body[j].0
  }

  predicate Distinct(keys: seq<string>)
  {
    forall i, j :: 0 <= i < j < |keys| ==> keys[i] != keys[j]
  }

  /** Every attribute name is non-empty, as every Python identifier is. */
  predicate NamedAttrs(body: Body)
  {
    forall i :: 0 <= i < |body| ==> body[i].0 != ""
  }

  /** `ColumnList`: the insert of www/orm.py, which lists its columns;
      `ValuesOnly`: the insert of the older orm.py, which does not. */
  datatype InsertStyle = ColumnList | ValuesOnly

  datatype SchemaError = DuplicatePrimaryKey(key: string) | PrimaryKeyNotFound

  /** The class attributes the metaclass adds: `__table__`, `__mappings__`,
      `__primary_key__`, `__fields__` and the four templates. */
  datatype Schema = Schema(table: string, mappings: map<string, Field>, primaryKey: string,
                           fields: seq<string>, select: string, insert: string,
                           update: string, delete: string)

  /** A created class: what is left of its body namespace, and the metadata if the
      metaclass synthesised any. */
  datatype ModelClass = ModelClass(attrs: Body, schema: Option<Schema>)

  predicate IsKey(a: Attr)
  {
    a.FieldAttr? && a.field.primaryKey
  }

  predicate IsNonKey(a: Attr)
  {
    a.FieldAttr? && !a.field.primaryKey
  }

  /** Names of the `Field` attributes flagged primary key, in declaration order. */
  function PkNames(body: Body): seq<string>
    decreases |body|
  {
    if |body| == 0 then []
    else PkNames(body[..|body| - 1]) + (if IsKey(body[|body| - 1].1) then [body[|body| - 1].0] else [])
  }

  /** Names of the other `Field` attributes, in declaration order. */
  function NonKeyNames(body: Body): seq<string>
    decreases |body|
  {
    if |body| == 0 then []
    else NonKeyNames(body[..|body| - 1]) + (if IsNonKey(body[|body| - 1].1) then [body[|body| - 1].0] else [])
  }

  /** Attribute name to `Field`, for every `Field` attribute. */
  function FieldMap(body: Body): map<string, Field>
    decreases |body|
  {
    if |body| == 0 then map[]
    else
      var m := FieldMap(body[..|body| - 1]);
      var (k, a) := body[|body| - 1];
      if a.FieldAttr? then m[k := a.field] else m
  }

  /** The namespace without the entries whose key is in `keys`. */
  function Drop(body: Body, keys: set<string>): Body
    decreases |body|
  {
    if |body| == 0 then []
    else Drop(body[..|body| - 1], keys) + (if body[|body| - 1].0 in keys then [] else [body[|body| - 1]])
  }

  /** The entries that are not `Field` attributes, in declaration order. */
  function Rest(body: Body): Body
    decreases |body|
  {
    if |body| == 0 then []
    else Rest(body[..|body| - 1]) + (if body[|body| - 1].1.FieldAttr? then [] else [body[|body| - 1]])
  }

  /** `attrs.get(key)`. */
  function Get(body: Body, key: string): Option<Attr>
    decreases |body|
  {
    if |body| == 0 then None
    else if body[|body| - 1].0 == key then Some(body[|body| - 1].1)
    else Get(body[..|body| - 1], key)
  }

  /** `attrs.get('__table__', name)`, as it is rendered into the templates by `%s`. */
  function TableName(name: string, body: Body): string
  {
    match Get(body, "__table__")
    case None => name
    case Some(Plain(shown)) => shown
    case Some(FieldAttr(f)) => FieldStr(f)
  }

  /** The scan keeps the latest primary-key name and raises at a primary-key field met while
      that name is truthy (non-empty): the first such field's name, if any. */
  function FirstDuplicate(pks: seq<string>): Option<string>
    decreases |pks|
  {
    if |pks| < 2 then None
    else match FirstDuplicate(pks[..|pks| - 1])
      case Some(k) => Some(k)
      case None => if pks[|pks| - 2] != "" then Some(pks[|pks| - 1]) else None
  }

  function LastOr(s: seq<string>, otherwise: string): string
  {
    if |s| == 0 then otherwise else s[|s| - 1]
  }

  /** `list(map(lambda f: '`%s`' % f, fields))`. */
  function Escaped(fields: seq<string>): (r: seq<string>)
    ensures |r| == |fields|
  {
    seq(|fields|, i requires 0 <= i < |fields| => "`" + fields[i] + "`")
  }

  /** `mappings.get(f).name or f`: the field's column name when it is truthy, else the
      attribute name (every non-key name is a key of the mappings). */
  function ColumnName(mappings: map<string, Field>, f: string): string
  {
    if f in mappings && mappings[f].name.Some? && mappings[f].name.value != ""
    then mappings[f].name.value
    else f
  }

  /** The `` `col`=? `` pieces of the update template's `set` clause. */
  function Assignments(mappings: map<string, Field>, fields: seq<string>): (r: seq<string>)
    ensures |r| == |fields|
  {
    seq(|fields|, i requires 0 <= i < |fields| => "`" + ColumnName(mappings, fields[i]) + "`=?")
  }

  function SelectTemplate(table: string): string
  {
    "select * from `" + table + "`"
  }

  function InsertTemplate(style: InsertStyle, table: string, fields: seq<string>, pk: string): string
  {
    match style
    case ColumnList =>
      "insert into `" + table + "` (" + Join(", ", Escaped(fields)) + ", `" + pk + "`) VALUES ("
      + Placeholders(|fields| + 1) + ")"
    case ValuesOnly =>
      "insert into `" + table + "` VALUES (" + Placeholders(|fields| + 1) + ")"
  }

  function UpdateTemplate(table: string, mappings: map<string, Field>, fields: seq<string>, pk: string): string
  {
    "update `" + table + "` set " + Join(", ", Assignments(mappings, fields)) + " WHERE `" + pk + "`=?"
  }

  function DeleteTemplate(table: string, pk: string): string
  {
    "delete from `" + table + "` WHERE `" + pk + "`=?"
  }

  function MakeSchema(style: InsertStyle, table: string, mappings: map<string, Field>,
                      pk: string, fields: seq<string>): Schema
  {
    Schema(table, mappings, pk, fields, SelectTemplate(table), InsertTemplate(style, table, fields, pk),
           UpdateTemplate(table, mappings, fields, pk), DeleteTemplate(table, pk))
  }

  /** What `ModelMetaclass.__new__(cls, name, bases, attrs)` produces: the class `Model`
      itself is created untouched; any other class gets its metadata, or the error raised. */
  function SchemaOf(style: InsertStyle, name: string, body: Body): Result<ModelClass, SchemaError>
  {
    if name == "Model" then Ok(ModelClass(body, None))
    else
      var pks := PkNames(body);
      match FirstDuplicate(pks)
      case Some(k) => Err(DuplicatePrimaryKey(k))
      case None =>
        if LastOr(pks, "") == "" then Err(PrimaryKeyNotFound)
        else
          var mappings := FieldMap(body);
          Ok(ModelClass(Drop(body, mappings.Keys),
                        Some(MakeSchema(style, TableName(name, body), mappings, LastOr(pks, ""), NonKeyNames(body)))))
  }

  /** `create_args_string(num)`: appends one `'?'` per step of `range(num)` and joins the
      list with `', '`. */
  method CreateArgsString(num: int) returns (s: string)
    ensures s == Placeholders(if num < 0 then 0 else num)
    ensures Count('?', s) == (if num < 0 then 0 else num)
    ensures s == "" <==> num <= 0
  {
    var parts: seq<string> := [];
    var n := 0;
    while n < num
      invariant 0 <= n <= (if num < 0 then 0 else num)
      invariant parts == seq(n, _ => "?")
    {
      parts := parts + ["?"];
      n := n + 1;
    }
    s := Join(", ", parts);
    PlaceholdersCount(if num < 0 then 0 else num);
  }

  /** `ModelMetaclass.__new__`: the loop over `attrs.items()` fills `mappings` and `fields`
      and tracks the primary key; the Field attributes are then popped one by one and the
      templates built. */
  method BuildSchema(style: InsertStyle, name: string, attrs: Body) returns (r: Result<ModelClass, SchemaError>)
    ensures r == SchemaOf(style, name, attrs)
  {
    if name == "Model" {
      return Ok(ModelClass(attrs, None));
    }
    var tableName := TableName(name, attrs);
    var mappings: map<string, Field> := map[];
    var fields: seq<string> := [];
    // "" plays Python's None: the source only tests the truthiness of this name.
    var primaryKey := "";
    var i := 0;
    while i < |attrs|
      invariant 0 <= i <= |attrs|
      invariant mappings == FieldMap(attrs[..i])
      invariant fields == NonKeyNames(attrs[..i])
      invariant FirstDuplicate(PkNames(attrs[..i])) == None
      invariant primaryKey == LastOr(PkNames(attrs[..i]), "")
    {
      var (k, v) := attrs[i];
      ScanStep(attrs, i);
      FirstDuplicateSnoc(PkNames(attrs[..i]), k);
      if v.FieldAttr? {
        mappings := mappings[k := v.field];
        if v.field.primaryKey {
          if primaryKey != "" {
            DuplicateSurvivesSuffix(attrs, i + 1, k);
            return Err(DuplicatePrimaryKey(k));
          }
          primaryKey := k;
        } else {
          fields := fields + [k];
        }
      }
      i := i + 1;
    }
    assert attrs[..i] == attrs;
    if primaryKey == "" {
      return Err(PrimaryKeyNotFound);
    }
    var namespace := PopFields(attrs, mappings.Keys);
    var args := CreateArgsString(|fields| + 1);
    var insert := match style
      case ColumnList =>
        "insert into `" + tableName + "` (" + Join(", ", Escaped(fields)) + ", `" + primaryKey + "`) VALUES ("
        + args + ")"
      case ValuesOnly =>
        "insert into `" + tableName + "` VALUES (" + args + ")";
    assert insert == InsertTemplate(style, tableName, fields, primaryKey);
    var schema := Schema(tableName, mappings, primaryKey, fields, SelectTemplate(tableName), insert,
                         UpdateTemplate(tableName, mappings, fields, primaryKey),
                         DeleteTemplate(tableName, primaryKey));
    r := Ok(ModelClass(namespace, Some(schema)));
  }

  /** `for k in mappings.keys(): attrs.pop(k)`: the keys are removed one at a time. */
  method PopFields(attrs: Body, keys: set<string>) returns (namespace: Body)
    ensures namespace == Drop(attrs, keys)
  {
    namespace := attrs;
    DropNothing(attrs);
    assert keys - keys == {};
    var toPop := keys;
    while toPop != {}
      invariant toPop <= keys
      invariant namespace == Drop(attrs, keys - toPop)
      decreases toPop
    {
      var k :| k in toPop;
      DropTwice(attrs, keys - toPop, k);
      namespace := Drop(namespace, {k});
      assert keys - (toPop - {k}) == (keys - toPop) + {k};
      toPop := toPop - {k};
    }
    assert keys - toPop == keys;
  }

  // ---------------------------------------------------------------------------------
  // Facts about the scan functions.

  /** One more entry of the body extends each scan result by that entry alone. */
  lemma ScanStep(attrs: Body, i: nat)
    requires i < |attrs|
    ensures PkNames(attrs[..i + 1]) == if IsKey(attrs[i].1) then PkNames(attrs[..i]) + [attrs[i].0] else PkNames(attrs[..i])
    ensures NonKeyNames(attrs[..i + 1]) == if IsNonKey(attrs[i].1) then NonKeyNames(attrs[..i]) + [attrs[i].0] else NonKeyNames(attrs[..i])
    ensures FieldMap(attrs[..i + 1]) == if attrs[i].1.FieldAttr? then FieldMap(attrs[..i])[attrs[i].0 := attrs[i].1.field] else FieldMap(attrs[..i])
  {
    assert attrs[..i + 1][..i] == attrs[..i];
    assert PkNames(attrs[..i]) + [] == PkNames(attrs[..i]);
    assert NonKeyNames(attrs[..i]) + [] == NonKeyNames(attrs[..i]);
  }

  lemma {:induction false} PkNamesConcat(a: Body, b: Body)
    ensures PkNames(a + b) == PkNames(a) + PkNames(b)
    decreases |b|
  {
    if |b| == 0 {
      assert a + b == a;
    } else {
      var b' := b[..|b| - 1];
      assert (a + b)[..|a + b| - 1] == a + b';
      PkNamesConcat(a, b');
    }
  }

  lemma {:induction false} NonKeyNamesConcat(a: Body, b: Body)
    ensures NonKeyNames(a + b) == NonKeyNames(a) + NonKeyNames(b)
    decreases |b|
  {
    if |b| == 0 {
      assert a + b == a;
    } else {
      var b' := b[..|b| - 1];
      assert (a + b)[..|a + b| - 1] == a + b';
      NonKeyNamesConcat(a, b');
    }
  }

  /** A later entry of the same name wins, as it does in a dict. */
  lemma {:induction false} GetConcat(a: Body, b: Body, key: string)
    ensures Get(a + b, key) == if Get(b, key).Some? then Get(b, key) else Get(a, key)
    decreases |b|
  {
    if |b| == 0 {
      assert a + b == a;
    } else {
      var b' := b[..|b| - 1];
      assert (a + b)[..|a + b| - 1] == a + b';
      GetConcat(a, b', key);
    }
  }

  lemma {:induction false} GetAbsent(body: Body, key: string)
    requires forall i :: 0 <= i < |body| ==> body[i].0 != key
    ensures Get(body, key) == None
    decreases |body|
  {
    if |body| > 0 {
      GetAbsent(body[..|body| - 1], key);
    }
  }

  lemma {:induction false} FirstDuplicateExtends(p: seq<string>, q: seq<string>, k: string)
    requires FirstDuplicate(p) == Some(k)
    ensures FirstDuplicate(p + q) == Some(k)
    decreases |q|
  {
    if |q| == 0 {
      assert p + q == p;
    } else {
      var q' := q[..|q| - 1];
      assert (p + q)[..|p + q| - 1] == p + q';
      FirstDuplicateExtends(p, q', k);
    }
  }

  /** A duplicate found in a prefix of the body is the one reported for the whole body. */
  lemma DuplicateSurvivesSuffix(attrs: Body, n: nat, k: string)
    requires n <= |attrs|
    requires FirstDuplicate(PkNames(attrs[..n])) == Some(k)
    ensures FirstDuplicate(PkNames(attrs)) == Some(k)
  {
    assert attrs == attrs[..n] + attrs[n..];
    PkNamesConcat(attrs[..n], attrs[n..]);
    FirstDuplicateExtends(PkNames(attrs[..n]), PkNames(attrs[n..]), k);
  }

  lemma {:induction false} FirstDuplicateSnoc(p: seq<string>, k: string)
    requires FirstDuplicate(p) == None
    ensures FirstDuplicate(p + [k]) == if |p| > 0 && p[|p| - 1] != "" then Some(k) else None
  {
    assert (p + [k])[..|p|] == p;
  }

  lemma {:induction false} DropNothing(body: Body)
    ensures Drop(body, {}) == body
    decreases |body|
  {
    if |body| > 0 {
      DropNothing(body[..|body| - 1]);
      assert body == body[..|body| - 1] + [body[|body| - 1]];
    }
  }

  lemma {:induction false} DropTwice(body: Body, keys: set<string>, k: string)
    ensures Drop(Drop(body, keys), {k}) == Drop(body, keys + {k})
    decreases |body|
  {
    if |body| > 0 {
      var init := body[..|body| - 1];
      DropTwice(init, keys, k);
      var d := Drop(init, keys);
      if body[|body| - 1].0 !in keys {
        assert Drop(body, keys) == d + [body[|body| - 1]];
        assert (d + [body[|body| - 1]])[..|d|] == d;
      } else {
        assert Drop(body, keys) == d;
      }
    }
  }

  /** With non-empty names, the scan reports the second primary-key name, if there is one. */
  lemma {:induction false} FirstDuplicateOfNamed(pks: seq<string>)
    requires forall j :: 0 <= j < |pks| ==> pks[j] != ""
    ensures FirstDuplicate(pks) == if |pks| >= 2 then Some(pks[1]) else None
    decreases |pks|
  {
    if |pks| >= 2 {
      FirstDuplicateOfNamed(pks[..|pks| - 1]);
    }
  }

  /** A name in `PkNames` is the name of a primary-key `Field` of the body; with named
      attributes it is therefore never empty. */
  lemma {:induction false} PkNamesAreKeyFields(body: Body)
    ensures forall x :: x in PkNames(body) <==> exists i :: 0 <= i < |body| && body[i].0 == x && IsKey(body[i].1)
    decreases |body|
  {
    if |body| > 0 {
      var init := body[..|body| - 1];
      PkNamesAreKeyFields(init);
      forall x
        ensures x in PkNames(body) <==> exists i :: 0 <= i < |body| && body[i].0 == x && IsKey(body[i].1)
      {
        if x in PkNames(init) {
          var i :| 0 <= i < |init| && init[i].0 == x && IsKey(init[i].1);
          assert body[i] == init[i];
        }
        if exists i :: 0 <= i < |body| && body[i].0 == x && IsKey(body[i].1) {
          var i :| 0 <= i < |body| && body[i].0 == x && IsKey(body[i].1);
          if i < |init| {
            assert init[i] == body[i];
          }
        }
      }
    }
  }

  lemma PkNamesNamed(body: Body)
    requires NamedAttrs(body)
    ensures forall j :: 0 <= j < |PkNames(body)| ==> PkNames(body)[j] != ""
  {
    PkNamesAreKeyFields(body);
    forall j | 0 <= j < |PkNames(body)|
      ensures PkNames(body)[j] != ""
    {
      assert PkNames(body)[j] in PkNames(body);
    }
  }

  /** The keys of the mappings are exactly the names of the `Field` attributes. */
  lemma {:induction false} FieldMapKeys(body: Body)
    ensures forall x :: x in FieldMap(body) <==> exists i :: 0 <= i < |body| && body[i].0 == x && body[i].1.FieldAttr?
    decreases |body|
  {
    if |body| > 0 {
      var init := body[..|body| - 1];
      FieldMapKeys(init);
      forall x
        ensures x in FieldMap(body) <==> exists i :: 0 <= i < |body| && body[i].0 == x && body[i].1.FieldAttr?
      {
        if x in FieldMap(init) {
          var i :| 0 <= i < |init| && init[i].0 == x && init[i].1.FieldAttr?;
          assert body[i] == init[i];
        }
        if exists i :: 0 <= i < |body| && body[i].0 == x && body[i].1.FieldAttr? {
          var i :| 0 <= i < |body| && body[i].0 == x && body[i].1.FieldAttr?;
          if i < |init| {
            assert init[i] == body[i];
          }
        }
      }
    }
  }

  lemma {:induction false} NonKeyNamesAreFields(body: Body)
    ensures forall x :: x in NonKeyNames(body) <==> exists i :: 0 <= i < |body| && body[i].0 == x && IsNonKey(body[i].1)
    decreases |body|
  {
    if |body| > 0 {
      var init := body[..|body| - 1];
      NonKeyNamesAreFields(init);
      forall x
        ensures x in NonKeyNames(body) <==> exists i :: 0 <= i < |body| && body[i].0 == x && IsNonKey(body[i].1)
      {
        if x in NonKeyNames(init) {
          var i :| 0 <= i < |init| && init[i].0 == x && IsNonKey(init[i].1);
          assert body[i] == init[i];
        }
        if exists i :: 0 <= i < |body| && body[i].0 == x && IsNonKey(body[i].1) {
          var i :| 0 <= i < |body| && body[i].0 == x && IsNonKey(body[i].1);
          if i < |init| {
            assert init[i] == body[i];
          }
        }
      }
    }
  }

  /** Dropping a key that no entry carries changes nothing. */
  lemma {:induction false} DropAbsent(body: Body, keys: set<string>, k: string)
    requires forall i :: 0 <= i < |body| ==> body[i].0 != k
    ensures Drop(body, keys + {k}) == Drop(body, keys)
    decreases |body|
  {
    if |body| > 0 {
      DropAbsent(body[..|body| - 1], keys, k);
    }
  }

  /** Popping the keys of the mappings leaves exactly the non-`Field` entries. */
  lemma {:induction false} DropFieldsIsRest(body: Body)
    requires DistinctKeys(body)
    ensures Drop(body, FieldMap(body).Keys) == Rest(body)
    decreases |body|
  {
    if |body| > 0 {
      var init := body[..|body| - 1];
      var (k, a) := body[|body| - 1];
      DropFieldsIsRest(init);
      FieldMapKeys(init);
      assert forall i :: 0 <= i < |init| ==> init[i].0 != k by {
        forall i | 0 <= i < |init| ensures init[i].0 != k {
          assert init[i] == body[i];
        }
      }
      assert k !in FieldMap(init);
      if a.FieldAttr? {
        assert FieldMap(body).Keys == FieldMap(init).Keys + {k};
        DropAbsent(init, FieldMap(init).Keys, k);
      } else {
        assert FieldMap(body).Keys == FieldMap(init).Keys;
      }
    }
  }

  // ---------------------------------------------------------------------------------
  // What the builder promises.

  /** The class `Model` itself is created as declared, with no metadata (www/orm.py:10-11). */
  lemma ModelItselfUntouched(style: InsertStyle, body: Body)
    ensures SchemaOf(style, "Model", body) == Ok(ModelClass(body, None))
  {
  }

  /** Building fails with "Duplicate primary key" exactly when a second `Field` flagged
      primary key is declared, naming that second field. */
  lemma DuplicatePrimaryKeyRaised(style: InsertStyle, name: string, body: Body, k: string)
    requires NamedAttrs(body)
    ensures SchemaOf(style, name, body) == Err(DuplicatePrimaryKey(k))
        <==> name != "Model" && |PkNames(body)| >= 2 && PkNames(body)[1] == k
  {
    PkNamesNamed(body);
    FirstDuplicateOfNamed(PkNames(body));
  }

  /** Building fails with "Primary key not found" exactly when no `Field` is flagged
      primary key. */
  lemma PrimaryKeyNotFoundRaised(style: InsertStyle, name: string, body: Body)
    requires NamedAttrs(body)
    ensures SchemaOf(style, name, body) == Err(PrimaryKeyNotFound)
        <==> name != "Model" && |PkNames(body)| == 0
  {
    PkNamesNamed(body);
    FirstDuplicateOfNamed(PkNames(body));
  }

  /** The class built when the body declares exactly one primary key. */
  lemma BuiltClass(style: InsertStyle, name: string, body: Body)
    requires NamedAttrs(body)
    requires name != "Model" && |PkNames(body)| == 1
    ensures SchemaOf(style, name, body)
         == Ok(ModelClass(Drop(body, FieldMap(body).Keys),
                          Some(MakeSchema(style, TableName(name, body), FieldMap(body),
                                          PkNames(body)[0], NonKeyNames(body)))))
  {
    PkNamesNamed(body);
    FirstDuplicateOfNamed(PkNames(body));
  }

  /** With distinct names, the primary key is not among the non-key fields. */
  lemma PrimaryKeyNotInFields(body: Body)
    requires DistinctKeys(body) && |PkNames(body)| == 1
    ensures PkNames(body)[0] !in NonKeyNames(body)
  {
    PkNamesAreKeyFields(body);
    NonKeyNamesAreFields(body);
    var pk := PkNames(body)[0];
    assert pk in PkNames(body);
    var ipk :| 0 <= ipk < |body| && body[ipk].0 == pk && IsKey(body[ipk].1);
    forall j | 0 <= j < |body| && body[j].0 == pk
      ensures !IsNonKey(body[j].1)
    {
      assert j == ipk;
    }
  }

  /** The mappings hold the primary key and the non-key fields, and nothing else. */
  lemma MappingsCoverFields(body: Body)
    requires |PkNames(body)| == 1
    ensures FieldMap(body).Keys == {PkNames(body)[0]} + set f | f in NonKeyNames(body)
  {
    PkNamesAreKeyFields(body);
    NonKeyNamesAreFields(body);
    FieldMapKeys(body);
    var pk := PkNames(body)[0];
    assert pk in PkNames(body);
    forall x
      ensures x in FieldMap(body) <==> x == pk || x in NonKeyNames(body)
    {
      if x in FieldMap(body) {
        var i :| 0 <= i < |body| && body[i].0 == x && body[i].1.FieldAttr?;
        if IsKey(body[i].1) {
          assert x in PkNames(body);
        }
      }
    }
  }

  /** On success: the single flagged field is the primary key, every other `Field` is in
      `fields` in declaration order, the mappings hold every `Field`, the `Field` entries
      are gone from the namespace, and the table name is `__table__` or the class name. */
  lemma SchemaBuilt(style: InsertStyle, name: string, body: Body)
    requires NamedAttrs(body) && DistinctKeys(body)
    requires name != "Model" && |PkNames(body)| == 1
    ensures SchemaOf(style, name, body).Ok?
    ensures var c := SchemaOf(style, name, body).value;
      && c.schema.Some?
      && c.attrs == Rest(body)
      && c.schema.value.primaryKey == PkNames(body)[0]
      && c.schema.value.fields == NonKeyNames(body)
      && c.schema.value.mappings == FieldMap(body)
      && c.schema.value.table == (match Get(body, "__table__")
                                  case None => name
                                  case Some(Plain(shown)) => shown
                                  case Some(FieldAttr(f)) => FieldStr(f))
      && c.schema.value.primaryKey !in c.schema.value.fields
      && c.schema.value.mappings.Keys == {c.schema.value.primaryKey} + set f | f in c.schema.value.fields
  {
    BuiltClass(style, name, body);
    DropFieldsIsRest(body);
    PrimaryKeyNotInFields(body);
    MappingsCoverFields(body);
  }

  /** Back-quoting names free of `?` adds no `?`. */
  lemma EscapedCount(fields: seq<string>)
    requires forall i :: 0 <= i < |fields| ==> '?' !in fields[i]
    ensures Count('?', Join(", ", Escaped(fields))) == 0
  {
    var esc := Escaped(fields);
    forall i | 0 <= i < |esc| ensures Count('?', esc[i]) == 0 {
      assert esc[i] == "`" + fields[i] + "`";
      CountAbsent('?', esc[i]);
    }
    assert Count('?', ", ") == 0;
    CountJoin('?', ", ", esc);
    CountAllNone('?', esc);
  }

  /** `?`-free text, then the placeholders, then ")": exactly `n` parameters. */
  lemma PlaceholdersClosed(prefix: string, n: nat)
    requires Count('?', prefix) == 0
    ensures Count('?', prefix + Placeholders(n) + ")") == n
  {
    PlaceholdersCount(n);
    CountConcat('?', prefix, Placeholders(n));
    CountAppendFree('?', prefix + Placeholders(n), ")");
  }

  lemma ColumnListPlaceholders(table: string, fields: seq<string>, pk: string)
    requires '?' !in table && '?' !in pk
    requires forall i :: 0 <= i < |fields| ==> '?' !in fields[i]
    ensures Count('?', InsertTemplate(ColumnList, table, fields, pk)) == |fields| + 1
  {
    var cols := Join(", ", Escaped(fields));
    var prefix := "insert into `" + table + "` (" + cols + ", `" + pk + "`) VALUES (";
    EscapedCount(fields);
    CountAbsent('?', table);
    CountAbsent('?', pk);
    CountBetween('?', "insert into `", table, "` (");
    CountConcat('?', "insert into `" + table + "` (", cols);
    CountBetween('?', ", `", pk, "`) VALUES (");
    CountConcat('?', "insert into `" + table + "` (" + cols, ", `" + pk + "`) VALUES (");
    assert prefix == "insert into `" + table + "` (" + cols + (", `" + pk + "`) VALUES (");
    PlaceholdersClosed(prefix, |fields| + 1);
    assert InsertTemplate(ColumnList, table, fields, pk) == prefix + Placeholders(|fields| + 1) + ")";
  }

  lemma ValuesOnlyPlaceholders(table: string, fields: seq<string>, pk: string)
    requires '?' !in table
    ensures Count('?', InsertTemplate(ValuesOnly, table, fields, pk)) == |fields| + 1
  {
    var prefix := "insert into `" + table + "` VALUES (";
    CountAbsent('?', table);
    CountBetween('?', "insert into `", table, "` VALUES (");
    PlaceholdersClosed(prefix, |fields| + 1);
    assert InsertTemplate(ValuesOnly, table, fields, pk) == prefix + Placeholders(|fields| + 1) + ")";
  }

  /** With the names free of `?`, the insert template binds `|fields| + 1` parameters. */
  lemma InsertPlaceholders(style: InsertStyle, table: string, fields: seq<string>, pk: string)
    requires '?' !in table && '?' !in pk
    requires forall i :: 0 <= i < |fields| ==> '?' !in fields[i]
    ensures Count('?', InsertTemplate(style, table, fields, pk)) == |fields| + 1
  {
    if style == ColumnList {
      ColumnListPlaceholders(table, fields, pk);
    } else {
      ValuesOnlyPlaceholders(table, fields, pk);
    }
  }

  /** With the names free of `?`, the update template binds one parameter per non-key
      field and one for the primary key. */
  lemma UpdatePlaceholders(table: string, mappings: map<string, Field>, fields: seq<string>, pk: string)
    requires '?' !in table && '?' !in pk
    requires forall i :: 0 <= i < |fields| ==> '?' !in ColumnName(mappings, fields[i])
    ensures Count('?', UpdateTemplate(table, mappings, fields, pk)) == |fields| + 1
  {
    var s1 := "update `" + table + "` set ";
    var s2 := " WHERE `" + pk + "`=";
    var j := Join(", ", Assignments(mappings, fields));
    AssignmentsCount(mappings, fields);
    CountAbsent('?', table);
    CountBetween('?', "update `", table, "` set ");
    CountAbsent('?', pk);
    CountBetween('?', " WHERE `", pk, "`=");
    CountConcat('?', s1, j);
    CountConcat('?', s1 + j, s2);
    CountConcat('?', s1 + j + s2, "?");
    assert UpdateTemplate(table, mappings, fields, pk) == s1 + j + s2 + "?";
  }

  /** The `set` clause holds one placeholder per assignment. */
  lemma AssignmentsCount(mappings: map<string, Field>, fields: seq<string>)
    requires forall i :: 0 <= i < |fields| ==> '?' !in ColumnName(mappings, fields[i])
    ensures Count('?', Join(", ", Assignments(mappings, fields))) == |fields|
  {
    var parts := Assignments(mappings, fields);
    forall i | 0 <= i < |parts| ensures Count('?', parts[i]) == 1 {
      var c := ColumnName(mappings, fields[i]);
      CountAbsent('?', "`" + c + "`=");
      CountConcat('?', "`" + c + "`=", "?");
      assert parts[i] == "`" + c + "`=" + "?";
    }
    CountJoin('?', ", ", parts);
    CountAllOnce('?', parts);
  }

  /** With the names free of `?`, the delete template binds exactly the primary key. */
  lemma DeletePlaceholders(table: string, pk: string)
    requires '?' !in table && '?' !in pk
    ensures Count('?', DeleteTemplate(table, pk)) == 1
  {
    var s1 := "delete from `" + table + "` WHERE `" + pk + "`=";
    CountAbsent('?', s1);
    CountConcat('?', s1, "?");
    assert DeleteTemplate(table, pk) == s1 + "?";
  }

  /** The column-list insert names the non-key columns and then the primary key, the order
      in which `save` binds its arguments; with no non-key field the list starts with a
      stray ", ". */
  lemma InsertColumnsInArgumentOrder(table: string, fields: seq<string>, pk: string)
    ensures |fields| > 0 ==>
              InsertTemplate(ColumnList, table, fields, pk)
              == "insert into `" + table + "` (" + Join(", ", Escaped(fields + [pk])) + ") VALUES ("
                 + Placeholders(|fields + [pk]|) + ")"
    ensures |fields| == 0 ==>
              InsertTemplate(ColumnList, table, fields, pk)
              == "insert into `" + table + "` (, `" + pk + "`) VALUES (?)"
  {
    var head := "insert into `" + table + "` (";
    var cols := Join(", ", Escaped(fields));
    var p := "`" + pk + "`";
    var tail := ") VALUES (" + Placeholders(|fields| + 1) + ")";
    ColumnListShape(head, cols, pk, tail, table, fields);
    if |fields| > 0 {
      var j := Join(", ", Escaped(fields + [pk]));
      var ph := Placeholders(|fields + [pk]|);
      assert Escaped(fields + [pk]) == Escaped(fields) + [p];
      JoinSnoc(", ", Escaped(fields), p);
      Assoc(cols, ", ", p);
      assert j == cols + (", " + p);
      assert tail == ") VALUES (" + ph + ")";
      Assoc(head + j, ") VALUES (" + ph, ")");
      Assoc(head + j, ") VALUES (", ph);
    } else {
      assert Placeholders(1) == "?";
    }
  }

  /** The column-list insert, cut at the primary key's column. */
  lemma ColumnListShape(head: string, cols: string, pk: string, tail: string, table: string, fields: seq<string>)
    requires head == "insert into `" + table + "` ("
    requires cols == Join(", ", Escaped(fields))
    requires tail == ") VALUES (" + Placeholders(|fields| + 1) + ")"
    ensures InsertTemplate(ColumnList, table, fields, pk) == head + (cols + (", " + ("`" + pk + "`"))) + tail
  {
    var ph := Placeholders(|fields| + 1);
    assert "`) VALUES (" == "`" + ") VALUES (";
    calc {
      InsertTemplate(ColumnList, table, fields, pk);
      head + cols + ", `" + pk + "`) VALUES (" + ph + ")";
      { Assoc(head + cols + ", `" + pk, "`", ") VALUES ("); }
      head + cols + ", `" + pk + "`" + ") VALUES (" + ph + ")";
      { assert ", `" + pk + "`" == ", " + ("`" + pk + "`"); }
      head + (cols + (", " + ("`" + pk + "`"))) + tail;
    }
  }

  /** When no field carries its own column name, the update assigns the same back-quoted
      columns the insert lists. */
  lemma UpdateColumnsMatchInsert(mappings: map<string, Field>, fields: seq<string>)
    requires forall i :: 0 <= i < |fields| && fields[i] in mappings ==>
               mappings[fields[i]].name.None? || mappings[fields[i]].name == Some("")
    ensures forall i :: 0 <= i < |fields| ==> Assignments(mappings, fields)[i] == Escaped(fields)[i] + "=?"
  {
  }

  /** With distinct attribute names, `__fields__` names each field once. */
  lemma {:induction false} NonKeyNamesDistinct(body: Body)
    requires DistinctKeys(body)
    ensures Distinct(NonKeyNames(body))
    decreases |body|
  {
    if |body| > 0 {
      var init := body[..|body| - 1];
      var k := body[|body| - 1].0;
      NonKeyNamesDistinct(init);
      NonKeyNamesAreFields(init);
      forall i | 0 <= i < |init| ensures init[i].0 != k {
        assert init[i] == body[i];
      }
      assert k !in NonKeyNames(init);
    }
  }

  /** A class built from a body with distinct names binds distinct keys, all of them
      mapped: the non-key fields in order, then the primary key. */
  lemma BuiltKeys(style: InsertStyle, name: string, body: Body)
    requires NamedAttrs(body) && DistinctKeys(body)
    requires name != "Model" && |PkNames(body)| == 1
    ensures SchemaOf(style, name, body).Ok? && SchemaOf(style, name, body).value.schema.Some?
    ensures var s := SchemaOf(style, name, body).value.schema.value;
            && Distinct(s.fields + [s.primaryKey])
            && forall i :: 0 <= i < |s.fields + [s.primaryKey]| ==> (s.fields + [s.primaryKey])[i] in s.mappings
  {
    SchemaBuilt(style, name, body);
    NonKeyNamesDistinct(body);
    var s := SchemaOf(style, name, body).value.schema.value;
    var keys := s.fields + [s.primaryKey];
    forall i | 0 <= i < |keys| ensures keys[i] in s.mappings {
      if i < |s.fields| {
        assert keys[i] == s.fields[i];
        assert keys[i] in set f | f in s.fields;
      }
    }
    forall i, j | 0 <= i < j < |keys| ensures keys[i] != keys[j] {
      if j == |s.fields| {
        assert keys[i] == s.fields[i];
      } else {
        assert keys[i] == s.fields[i] && keys[j] == s.fields[j];
      }
    }
  }
}
