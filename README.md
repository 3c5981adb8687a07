# A verified model of the blog's ORM core

This project models the small asynchronous ORM of a Python blog application, together
with its pagination record and its configuration merge, in Dafny. The ORM has two
versions: `www/orm.py` and the older `orm.py`. The model covers:

- **The schema builder.** `ModelMetaclass.__new__` scans a model's class body in
  declaration order and collects the `Field` attributes. It requires exactly one primary
  key and raises on a duplicate key or a missing one. It pops the fields from the class
  namespace and synthesises the `select`, `insert`, `update` and `delete` templates with
  `?` placeholders, using `create_args_string`. Both files share this code, except that
  the `insert` of `www/orm.py` lists its columns and that of `orm.py` does not
  (`InsertStyle`).
- **The model instance.** An instance is a `dict` subclass.
  - `getValue` is `getattr(self, key, None)`: class attributes first, then items, then
    `None`.
  - `getValueOrDefault` stores and returns a field's default (calling it when it is
    callable).
  - `save`, `update` and `remove` build the argument lists they hand to `execute`.
  - `findAll`, `findNumber` and `find` assemble the SQL and arguments they hand to
    `select`.
  - The rows `select` returns are inputs.
- **The older `orm.py`, as written.** Its `Model` is declared without the metaclass, and
  its `getValueOrDefault` subscripts the misspelt `__mapings__`.
- **The `?` to `%s` rewrite** applied before any SQL reaches the driver.
- **The `User`, `Blog` and `Comment` declarations** of `www/models.py`, fed to the builder.
- **The `Page` record** of `www/models.py`, with Python's floor division.
- **`merge(defaults, override)`** of `www/config.py`, and the module-level code that calls it.

Layout, one module per file:

| file | module | contents |
|---|---|---|
| `results.dfy` | `Results` | `Option`, `Result` |
| `strings.dfy` | `Strings` | `str.join`, `str.count`, one-character `str.replace`, the placeholder list |
| `fields.dfy` | `Fields` | Python values, `Field` and its subclasses |
| `schemas.dfy` | `Schemas` | class bodies, `SchemaOf` (specification of the metaclass), `BuildSchema` and `CreateArgsString` (the loops), their properties |
| `instances.dfy` | `Instances` | attribute lookup on an instance, `Resolve` / `ResolveAll` (specification of `getValueOrDefault` and of the `save` batch) |
| `www_orm.dfy` | `WwwOrm` | the `Model` class of `www/orm.py`, the query builders |
| `root_orm.dfy` | `RootOrm` | the `Model` class of `orm.py`, `DriverSql` |
| `models.dfy` | `Models` | the three declarations, `Page` |
| `config.dfy` | `Config` | `Merged` (specification), the `Merge` method, loading |

Code that updates state step by step is modelled imperatively:

- The metaclass loop is `Schemas.BuildSchema`, and the pops of the namespace are `Schemas.PopFields`.
- The `create_args_string` loop is `Schemas.CreateArgsString`.
- The instance writes are the methods of the `Model` classes.
- The list appends of `findAll` are `WwwOrm.FindAll`.
- The `for` loop of `merge` is `Config.Merge`.

Each of these methods is proved equal to a specification function, and the properties are
proved about that function.

Python's `None` for the scanned primary key, a `where` clause or an `orderBy` is the empty
string: the source only tests these for truthiness. Every error the source raises is an
`Err` value.

## Model

| member | source | states |
|---|---|---|
| `Fields.StringField` | www/orm.py:200-203 | a `StringField` has the given name, key flag and default, and the `map_type` as column type, `varchar(100)` by default |
| `Fields.IntegerField` | www/orm.py:206-209 | an `IntegerField` is a `bigint` column whose default is 0 unless given |
| `Fields.BooleanField` | www/orm.py:212-215 | a `BooleanField` is a `boolean` column that is never a primary key; its default is `False` |
| `Fields.FloatField` | www/orm.py:218-221 | a `FloatField` is a `real` column with the given key flag; its default is `0.0` |
| `Fields.TextField` | www/orm.py:224-226 | a `TextField` is a `text` column that is never a primary key |
| `Schemas.CreateArgsString` | www/orm.py:303-308 | the loop yields `n` `?` joined by `", "`, holding exactly `n` placeholders; it is empty exactly when `n <= 0` |
| `Schemas.BuildSchema` | www/orm.py:8-68 | the scan loop, the raise points, the pop loop and the templates give exactly the class `SchemaOf(ColumnList, ...)` describes; with `ValuesOnly` it is the builder of orm.py:43-100 |
| `Schemas.PopFields` | www/orm.py:47-48 | popping every key of the mappings leaves the namespace without those entries and the others in declaration order (`Drop`) |
| `Schemas.ModelItselfUntouched` | www/orm.py:10-11 | the class named `Model` is created as declared, with no metadata |
| `Schemas.DuplicatePrimaryKeyRaised` | www/orm.py:31-35 | building raises "Duplicate primary key" for `k` if and only if `k` is the second field flagged primary key; the same holds in orm.py:66-70 |
| `Schemas.PrimaryKeyNotFoundRaised` | www/orm.py:44-45 | building raises "Primary key not found" if and only if no field is flagged primary key; the same holds in orm.py:79-80 |
| `Schemas.BuiltClass` | www/orm.py:47-65 | with one flagged field, the built class holds the namespace without the fields and the metadata taken from the scan |
| `Schemas.SchemaBuilt` | www/orm.py:14-55 | on success: the primary key is the one flagged field, `__fields__` are the other fields in declaration order, and `__mappings__` holds exactly those keys; the fields are popped and the rest of the namespace is kept in order; the table is `__table__` or the class name; the primary key is not among the fields; the same holds in orm.py:59-90 |
| `Schemas.PrimaryKeyNotInFields` | www/orm.py:29-41 | with distinct attribute names, the primary key is not among `__fields__` |
| `Schemas.MappingsCoverFields` | www/orm.py:24-41 | `__mappings__` holds the primary key and the other fields, and nothing else |
| `Schemas.NonKeyNamesDistinct` | www/orm.py:24-41 | `__fields__` names each field once |
| `Schemas.BuiltKeys` | www/orm.py:24-55 | the keys `save` binds (fields, then primary key) are distinct and all in `__mappings__` |
| `Schemas.InsertPlaceholders` | www/orm.py:59-62 | with `?`-free names, the insert template of either style has exactly `len(__fields__) + 1` placeholders |
| `Schemas.ColumnListPlaceholders` | www/orm.py:59-62 | the column-listing insert has `len(__fields__) + 1` placeholders |
| `Schemas.ValuesOnlyPlaceholders` | orm.py:94 | the column-less insert is `` insert into `T` VALUES ( `` followed by `len(fields) + 1` placeholders and `)` |
| `Schemas.InsertColumnsInArgumentOrder` | www/orm.py:51-62 | the insert lists the back-quoted non-key names and then the primary key, with one placeholder each; with no non-key field the list starts with a stray `, ` |
| `Schemas.UpdatePlaceholders` | www/orm.py:63-64 | the update template has one `` `col`=? `` per non-key field plus `` WHERE `pk`=? ``: `len(__fields__) + 1` placeholders; the same holds in orm.py:95-96 |
| `Schemas.AssignmentsCount` | www/orm.py:64 | the `set` clause holds one placeholder per non-key field |
| `Schemas.UpdateColumnsMatchInsert` | www/orm.py:64 | when no field carries its own `name`, each assignment is the insert's back-quoted column followed by `=?` |
| `Schemas.DeletePlaceholders` | www/orm.py:65 | the delete template has exactly one placeholder; the same holds in orm.py:97 |
| `Instances.GetAttr` | www/orm.py:75-79 | `__getattr__` returns the item if and only if it exists, and otherwise raises `AttributeError` for that key |
| `Instances.SetAttrThenGet` | www/orm.py:81-85 | after `__setattr__`, `getValue` sees the new value unless a class attribute shadows it; other keys read as before |
| `Instances.ResolveKeepsSetValue` | www/orm.py:89-90 | a value that is not `None` is returned unchanged; nothing is stored and no producer is called |
| `Instances.ResolveMaterializes` | www/orm.py:90-95 | an unset or `None` field with a default that is not `None` gets the default (the producer's result when callable), which is stored and returned; the producer is called exactly when the default is callable |
| `Instances.ResolveThenRead` | www/orm.py:88-97 | what `getValueOrDefault` returns is what `getValue` reads afterwards |
| `Instances.ResolveCaches` | www/orm.py:88-97 | when the first call returns a value other than `None`, a second call returns it again, changes nothing and does not call the producer |
| `Instances.ResolveFrame` | www/orm.py:95 | a call stores at most its own key |
| `Instances.ResolveLocal` | www/orm.py:88-97 | when the mappings attribute is a class attribute, a call depends on the instance only through its own key's entry |
| `Instances.ResolveMappedKey` | www/orm.py:91 | with metadata present, a call never raises for a mapped key |
| `Instances.ResolveAllLength` | www/orm.py:165 | a successful batch returns one value per key |
| `Instances.ResolveAllFrame` | www/orm.py:165-166 | a batch stores entries only at its own keys |
| `Instances.ResolveAllPointwise` | www/orm.py:165-166 | when the mappings attribute is a class attribute, over distinct keys a batch succeeds if and only if each call succeeds alone, and it returns their values in key order |
| `Instances.ResolveAllThenRead` | www/orm.py:165-175 | after a successful batch over distinct keys, reading each key back gives the value the batch bound |
| `Instances.ResolveAllOfSetValues` | www/orm.py:165-175 | if every key already holds a value, a batch stores nothing, calls no producer and returns what `getValue` reads |
| `Instances.ResolveAllStops` | www/orm.py:165 | once a key raises, later keys change nothing |
| `Instances.UnmappedResolve` | orm.py:21-30 | if the attribute read for the mappings names nothing, a set value is returned unchanged and an unset one raises `AttributeError` for that attribute |
| `Instances.UnmappedBatch` | orm.py:33-34 | in the same case, a batch stores nothing and calls no producer; it succeeds if and only if every key holds a value, and then returns what `getValue` reads |
| `Instances.BoundKeys` | www/orm.py:165-166 | the bound keys are `__fields__` in order followed by `__primary_key__` |
| `WwwOrm.Model.GetValue` | www/orm.py:84-85 | a class attribute wins; otherwise the stored item, or `None` |
| `WwwOrm.Model.SetAttr` | www/orm.py:81-82 | the value becomes an item |
| `WwwOrm.Model.GetValueOrDefault` | www/orm.py:88-97 | result, stored items and producer calls are those `Instances.Resolve` gives for `__mappings__`; the error cases (`AttributeError`, `KeyError`, `TypeError`) are modelled |
| `WwwOrm.Model.Save` | www/orm.py:164-167 | the insert template, bound to `getValueOrDefault` of `__fields__` and then the primary key, stopping at the first exception; the new items are the batch's |
| `WwwOrm.Model.UpdateStatement` | www/orm.py:172-176 | the update template, with `getValue` of each field in order and then of the primary key: `len(__fields__) + 1` arguments |
| `WwwOrm.Model.RemoveStatement` | www/orm.py:181-183 | the delete template, with the primary key's value as the only argument |
| `WwwOrm.RemovePlaceholders` | www/orm.py:181-183 | with the delete template built from `?`-free names, `remove` binds exactly one argument to exactly one placeholder |
| `WwwOrm.SaveBindsEveryColumn` | www/orm.py:164-167 | for a class built from distinct names, `save` never raises; it binds `len(__fields__) + 1` values, each what `getValueOrDefault` gives for that key alone |
| `WwwOrm.SaveOnMappedKeys` | www/orm.py:165-166 | the same for any class whose bound keys are distinct and mapped |
| `WwwOrm.UpdateAfterSaveBindsSameValues` | www/orm.py:164-176 | after `save`, `update` binds exactly the values `save` bound |
| `WwwOrm.SaveOfSetValuesIsRead` | www/orm.py:165-175 | with every value set, `save` stores nothing and binds what `update` binds |
| `WwwOrm.FindAll` | www/orm.py:103-136 | the SQL is the select template followed by `where`, `order by` and `limit ?` clauses, each present exactly when its argument is truthy; a truthy int, bool or pair limit is appended to the arguments as one parameter; any other truthy limit raises `ValueError` before `select` |
| `WwwOrm.JoinClause` | www/orm.py:106-119 | appending a keyword and its argument to the pieces adds ` keyword argument` to the joined SQL |
| `WwwOrm.ClauseCount` | www/orm.py:108-119 | a clause contributes exactly the placeholders of its argument |
| `WwwOrm.FindAllPlaceholders` | www/orm.py:106-136 | with `?`-free templates and a `where` holding one `?` per caller argument, the SQL holds one placeholder per bound argument |
| `WwwOrm.FindNumber` | www/orm.py:141-148 | `select <field> _num_ from <table>`, plus the `where` clause when it is truthy; the caller's arguments; one row fetched; without metadata, `AttributeError('__table__')` |
| `WwwOrm.FindNumberPlaceholders` | www/orm.py:141-148 | with a `?`-free field and table and a `where` holding one `?` per argument, the count query holds one placeholder per bound argument |
| `WwwOrm.NumberFromRows` | www/orm.py:148-151 | no row gives `None`; otherwise the first row's `_num_` |
| `WwwOrm.FindQuery` | www/orm.py:155-157 | the select template restricted to the primary key, the key as the only argument, one row fetched; without metadata, `AttributeError('__select__')` |
| `WwwOrm.FindPlaceholders` | www/orm.py:157 | that query binds exactly one argument to exactly one placeholder |
| `WwwOrm.FoundItems` | www/orm.py:158-160 | no row gives `None`; otherwise the first row's items |
| `RootOrm.DeclareModel` | orm.py:5 | without the metaclass a declared class keeps its whole body and gets no metadata |
| `RootOrm.FieldsShadowItems` | orm.py:5-19 | so `getValue` of a declared field yields the class-level `Field`, never the instance's value |
| `RootOrm.Model.GetValue` | orm.py:18-19 | a class attribute wins; otherwise the stored item, or `None` |
| `RootOrm.Model.GetValueOrDefault` | orm.py:21-30 | result and new state are those `Instances.Resolve` gives when `__mapings__` is read |
| `RootOrm.DefaultNeverStored` | orm.py:21-30 | as written, a set value is returned unchanged, and an unset or `None` one raises `AttributeError('__mapings__')`; no default is ever stored |
| `RootOrm.Model.Save` | orm.py:32-35 | without metadata, `save` raises `AttributeError('__fields__')`; with metadata, it is the insert template bound to `getValueOrDefault` of the fields and then the primary key |
| `RootOrm.SaveNeedsEveryValue` | orm.py:32-35 | with metadata, `save` stores nothing, succeeds if and only if every bound key already holds a value, and otherwise raises `AttributeError('__mapings__')` |
| `RootOrm.DriverSql` | orm.py:175 | the rewrite leaves no `?`; it adds one `%` and one character per `?` |
| `RootOrm.InsertTemplateForDriver` | orm.py:196 | the rewrite changes the column-less insert only in its placeholders: it holds no `?` and exactly `len(fields) + 1` more `%` than the template |
| `Models.DeclarationSchema` | www/models.py:10-44 | a declaration of that shape builds with primary key `id`, its columns in order as `__fields__`, its `__table__`, and only the preamble left in the namespace |
| `Models.UserSchema` | www/models.py:10-19 | `User` builds: table `users`, key `id`, six other fields, seven insert placeholders |
| `Models.BlogSchema` | www/models.py:22-32 | `Blog` builds: table `blogs`, key `id`, seven other fields, eight insert placeholders |
| `Models.CommentSchema` | www/models.py:35-44 | `Comment` builds: table `comments`, key `id`, six other fields, seven insert placeholders |
| `Models.FloorDiv` | www/models.py:61 | Python's `//` rounds towards minus infinity |
| `Models.FloorMod` | www/models.py:61 | Python's `%` takes the divisor's sign and satisfies `a == (a // b) * b + a % b` |
| `Models.NewPage` | www/models.py:52-72 | a page size of zero raises `ZeroDivisionError`; otherwise the page records the item count and page size, keeps the requested index or falls back to 1, and sets `has_next` and `has_previous` from the final index |
| `Models.PageBuilt` | www/models.py:52-61 | a page size of zero raises `ZeroDivisionError`; any other builds a page recording the item count and page size |
| `Models.PageCountIsCeiling` | www/models.py:61 | for a positive page size, `page_count` is the ceiling of `item_count / page_size` |
| `Models.PageWindow` | www/models.py:61-70 | for `1 <= page_index <= page_count`: `0 <= offset < item_count` and `offset + limit <= page_count * page_size` |
| `Models.PageCountOfIndex` | www/models.py:61 | the page count does not depend on the requested page |
| `Models.PageClamped` | www/models.py:63-66 | no items or a page past the last gives page 1 with offset and limit 0 |
| `Models.PageKept` | www/models.py:67-70 | otherwise the page index is kept, the offset is `page_size * (page_index - 1)` and the limit is `page_size` |
| `Models.PageFlags` | www/models.py:71-72 | `has_next` if and only if `page_index < page_count`; `has_previous` if and only if `page_index > 1` |
| `Config.IsSubstring` | www/config.py:7 | `k in s` on strings holds if and only if `k` occurs in `s` at some index |
| `Config.Contains` | www/config.py:7 | `k in override` raises exactly for a non-container; on a dict it is key membership |
| `Config.Index` | www/config.py:9-11 | `override[k]` succeeds exactly on a dict |
| `Config.Merge` | www/config.py:4-14 | the loop returns exactly `Merged(defaults, override)` and mutates neither argument |
| `Config.MergedEntries` | www/config.py:5-14 | the result has exactly the key set of `defaults`; a key only in `defaults` keeps its default; a key in both takes the override, or the recursive merge when the default is a dict |
| `Config.MergedFails` | www/config.py:6-11 | the merge raises if and only if some key's step raises |
| `Config.ScalarOverrideRaises` | www/config.py:7 | a `None`, bool or number override makes any non-empty merge raise `TypeError` |
| `Config.MergeEmpty` | www/config.py:12-13 | merging with an empty override gives `defaults` back |
| `Config.CompatibleMerges` | www/config.py:4-14 | an override that is a dict wherever the defaults hold a dict always merges |
| `Config.MergeSelf` | www/config.py:4-14 | merging a configuration with itself gives it back |
| `Config.LoadedConfigs` | www/config.py:16-21 | as written, the loaded configuration is always the default table; only the merge's `TypeError` escapes |
| `Config.MergedConfigs` | www/config.py:16-21 | corrected: the loaded configuration is the merge, or the defaults when no override module imports |
| `Config.LoadedFailsLikeMerged` | www/config.py:17-21 | both versions raise on the same inputs |
| `Config.OverrideIgnored` | www/config.py:19 | `debug: True` overridden by `debug: False` loads `True` as written and `False` as intended |

## Left out

- The connection pool, `select` and `execute`: these are asynchronous aiomysql I/O on a
  global pool. A statement or query is modelled as the value handed to them. Returned rows
  are inputs, and affected-row counts are not modelled.
- Logging calls: they have no effect on results.
- Field defaults that are callables (`next_id`, `time.time`) are `Producer` values. What a
  producer returns is an input: the parameter `produced`, or a function `produce` of the
  key. Clock and randomness are not modelled.
- Floats are opaque `Other` values that carry only their truthiness.
- `cls(**r)` in `findAll` and `find`: `WwwOrm.FindAll` stops at the query handed to
  `select`, so its list of instances is not modelled; `WwwOrm.FoundItems` returns the
  first row's items rather than an instance.
- `WwwOrm.FindAll`: returns the extended argument list instead of appending to the
  caller's list in place. The caller's own list is not modelled.
- Python names found on every object (`__class__`, `__dict__` and similar) are not in the
  class-level name set. A key with such a name is modelled as an item.
- A class attribute whose value is `None` is read as a class attribute, never as `None`.
- `Instances.MappingsAttr`: a class attribute or item named like the mappings attribute, other
  than the metaclass's `__mappings__`, is treated as not subscriptable (`TypeError`). A plain
  class attribute holding a dict under that name (say `__mapings__ = {...}` in a class body)
  would be subscripted in Python; such a class is not modelled.
- A model hierarchy deeper than one user class under `Model` is not modelled, nor a
  subclass of a model with metadata.
- `WwwOrm.Model.Save`, `WwwOrm.Model.UpdateStatement`, `WwwOrm.Model.RemoveStatement`,
  `RootOrm.Model.Save`: on a class without metadata, the model raises `AttributeError` for
  the metadata name. It does not model an instance item that happens to carry that name.
- `Schemas.SchemaBuilt`: a `Field` used as `__table__` is rendered through `str()`. A
  non-string `__table__` other than a `Field` is kept as its rendering.
- The `str()` of `Page` and the use of `Page` by the request handlers.
- `Config.Contains`: list membership is decided by string equality. Python's equality
  between a string and a non-string element is always false, so nothing is lost.
- `www/config.py`: importing the override module is an input (`Option<ConfigValue>`).
  `None` stands for the swallowed `ImportError`.
- The remaining modules (the aiohttp middleware, request handlers, Jinja2 set-up, server
  start-up, error records and the tests) are not part of this model.

## Findings

| source | as written | input that shows it | evidently intended | confidence | as-written member | corrected member |
|---|---|---|---|---|---|---|
| orm.py:24 | `getValueOrDefault` reads `self.__mapings__`, an attribute nothing defines | once `Model` is built by `ModelMetaclass` (the orm.py:5 row), a class declared as in tests/test_orm.py:9-11, with `next_id` defined first, saved with `id` unset: `save` raises `AttributeError('__mapings__')` instead of storing `next_id()`; until then `save` stops earlier, at orm.py:33, with `AttributeError('__fields__')` | read `self.__mappings__`, as www/orm.py:91 does | high (not executed) | `RootOrm.DefaultNeverStored` | `Instances.ResolveMaterializes` |
| orm.py:5 | `class Model(dict)` is declared without `metaclass=ModelMetaclass` | any subclass declaring fields: it gets no `__fields__` or `__insert__`, and `getValue('id')` yields the `Field` object | define `ModelMetaclass` before `Model` and declare `Model` with it, as www/orm.py:6-71 does (`ModelMetaclass` is defined only at orm.py:41) | high (not executed) | `RootOrm.FieldsShadowItems` | `Schemas.SchemaBuilt` |
| www/config.py:19 | `merge(configs, config_override.configs)` discards the merged result | defaults `{'debug': True}`, override `{'debug': False}`: `configs['debug']` stays `True` | `configs = merge(configs, config_override.configs)` | high (not executed) | `Config.LoadedConfigs` | `Config.MergedConfigs` |
