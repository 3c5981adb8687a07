/** The blog's models (www/models.py): the `User`, `Blog` and `Comment` class bodies as
    the metaclass receives them, and the `Page` pagination record. */
module Models {
  import opened Results
  import opened Strings
  import opened Fields
  import opened Schemas

  // ---------------------------------------------------------------------------------
  // The three model declarations.

  /** The entries Python puts in a class body before the declared ones, then `__table__`. */
  function Preamble(qualname: string, table: string): Body
  {
    [("__module__", Plain("www.models")), ("__qualname__", Plain(qualname)), ("__table__", Plain(table))]
  }

  /** `id = StringField(primary_key=True, default=next_id, map_type='varchar(50)')`. */
  function IdField(): Field
  {
    StringField(primaryKey := true, default := Producer("next_id"), mapType := "varchar(50)")
  }

  /** `created_at = FloatField(default=time.time)`. */
  function CreatedAtField(): Field
  {
    FloatField(default := Producer("time.time"))
  }

  /** Non-key columns declared one after another. */
  function Columns(cols: seq<(string, Field)>): Body
  {
    seq(|cols|, i requires 0 <= i < |cols| => (cols[i].0, FieldAttr(cols[i].1)))
  }

  function Names(cols: seq<(string, Field)>): seq<string>
  {
    seq(|cols|, i requires 0 <= i < |cols| => cols[i].0)
  }

  /** The shape all three models share: the preamble, the primary key `id`, the columns. */
  function Declaration(qualname: string, table: string, cols: seq<(string, Field)>): Body
  {
    Preamble(qualname, table) + [("id", FieldAttr(IdField()))] + Columns(cols)
  }

  function UserColumns(): seq<(string, Field)>
  {
    [("email", StringField(mapType := "varchar(50)")),
     ("passwd", StringField(mapType := "varchar(50)")),
     ("admin", BooleanField()),
     ("name", StringField(mapType := "varchar(50)")),
     ("image", StringField(mapType := "varchar(500)")),
     ("created_at", CreatedAtField())]
  }

  function BlogColumns(): seq<(string, Field)>
  {
    [("user_id", StringField(mapType := "varchar(50)")),
     ("user_name", StringField(mapType := "varchar(50)")),
     ("user_image", StringField(mapType := "varchar(500)")),
     ("name", StringField(mapType := "varchar(50)")),
     ("summary", StringField(mapType := "varchar(200)")),
     ("content", TextField()),
     ("created_at", CreatedAtField())]
  }

  function CommentColumns(): seq<(string, Field)>
  {
    [("blog_id", StringField(mapType := "varchar(50)")),
     ("user_id", StringField(mapType := "varchar(50)")),
     ("user_name", StringField(mapType := "varchar(50)")),
     ("user_image", StringField(mapType := "varchar(500)")),
     ("content", TextField()),
     ("created_at", CreatedAtField())]
  }

  lemma {:induction false} PlainScan(body: Body)
    requires forall i :: 0 <= i < |body| ==> body[i].1.Plain?
    ensures PkNames(body) == [] && NonKeyNames(body) == [] && Rest(body) == body
    decreases |body|
  {
    if |body| > 0 {
      PlainScan(body[..|body| - 1]);
    }
  }

  lemma {:induction false} ColumnsScan(cols: seq<(string, Field)>)
    requires forall i :: 0 <= i < |cols| ==> !cols[i].1.primaryKey
    ensures PkNames(Columns(cols)) == [] && NonKeyNames(Columns(cols)) == Names(cols)
    decreases |cols|
  {
    if |cols| > 0 {
      var init := cols[..|cols| - 1];
      assert Columns(cols)[..|cols| - 1] == Columns(init);
      assert Names(cols) == Names(init) + [cols[|cols| - 1].0];
      ColumnsScan(init);
    }
  }

  /** What the scan finds in a declaration: one primary key `id`, the columns in order,
      and the preamble's `__table__`. */
  lemma DeclarationScan(qualname: string, table: string, cols: seq<(string, Field)>)
    requires forall i :: 0 <= i < |cols| ==> !cols[i].1.primaryKey && cols[i].0 != "__table__"
    ensures PkNames(Declaration(qualname, table, cols)) == ["id"]
    ensures NonKeyNames(Declaration(qualname, table, cols)) == Names(cols)
    ensures Get(Declaration(qualname, table, cols), "__table__") == Some(Plain(table))
  {
    var pre := Preamble(qualname, table);
    var key: Body := [("id", FieldAttr(IdField()))];
    PlainScan(pre);
    assert PkNames(key) == ["id"] && NonKeyNames(key) == [];
    ColumnsScan(cols);
    PkNamesConcat(pre, key);
    PkNamesConcat(pre + key, Columns(cols));
    NonKeyNamesConcat(pre, key);
    NonKeyNamesConcat(pre + key, Columns(cols));
    GetAbsent(Columns(cols), "__table__");
    GetConcat(pre + key, Columns(cols), "__table__");
    GetConcat(pre, key, "__table__");
  }

  /** A column name as the models declare them: a plain identifier other than `id`. */
  predicate PlainColumn(c: (string, Field))
  {
    c.0 != "" && c.0[0] != '_' && c.0 != "id" && '?' !in c.0 && !c.1.primaryKey
  }

  predicate WellFormedColumns(cols: seq<(string, Field)>)
  {
    && (forall i :: 0 <= i < |cols| ==> PlainColumn(cols[i]))
    && Distinct(Names(cols))
  }

  /** Distinct plain column names make the whole declaration a valid namespace. */
  lemma DeclarationDistinct(qualname: string, table: string, cols: seq<(string, Field)>)
    requires WellFormedColumns(cols)
    ensures NamedAttrs(Declaration(qualname, table, cols)) && DistinctKeys(Declaration(qualname, table, cols))
  {
    var body := Declaration(qualname, table, cols);
    assert forall i :: 4 <= i < |body| ==> body[i].0 == cols[i - 4].0 == Names(cols)[i - 4];
    assert forall i :: 0 <= i < 4 ==> body[i].0 == "id" || body[i].0[0] == '_';
    forall i, j | 0 <= i < j < |body| ensures body[i].0 != body[j].0 {
      if 4 <= i {
        assert Names(cols)[i - 4] != Names(cols)[j - 4];
      } else if 4 <= j {
        assert PlainColumn(cols[j - 4]);
      }
    }
  }

  lemma DeclarationRest(qualname: string, table: string, cols: seq<(string, Field)>)
    ensures Rest(Declaration(qualname, table, cols)) == Preamble(qualname, table)
  {
    PlainScan(Preamble(qualname, table));
    assert Rest([("id", FieldAttr(IdField()))]) == [];
    RestConcat(Preamble(qualname, table), [("id", FieldAttr(IdField()))]);
    RestColumns(cols);
    RestConcat(Preamble(qualname, table) + [("id", FieldAttr(IdField()))], Columns(cols));
  }

  /** A declaration builds: primary key `id`, the columns in declaration order as
      `__fields__`, the table from `__table__`, an insert template binding one parameter
      per column plus one for `id`, and no `Field` left in the namespace. */
  lemma DeclarationSchema(qualname: string, table: string, cols: seq<(string, Field)>)
    requires WellFormedColumns(cols)
    requires qualname != "Model" && '?' !in table
    ensures SchemaOf(ColumnList, qualname, Declaration(qualname, table, cols)).Ok?
    ensures var c := SchemaOf(ColumnList, qualname, Declaration(qualname, table, cols)).value;
            && c.schema.Some?
            && c.attrs == Preamble(qualname, table)
            && c.schema.value.table == table
            && c.schema.value.primaryKey == "id"
            && c.schema.value.fields == Names(cols)
            && Count('?', c.schema.value.insert) == |cols| + 1
  {
    var body := Declaration(qualname, table, cols);
    DeclarationDistinct(qualname, table, cols);
    assert forall i :: 0 <= i < |cols| ==> !cols[i].1.primaryKey && cols[i].0 != "__table__" by {
      forall i | 0 <= i < |cols| ensures !cols[i].1.primaryKey && cols[i].0 != "__table__" {
        assert PlainColumn(cols[i]);
        assert "__table__"[0] == '_';
      }
    }
    DeclarationScan(qualname, table, cols);
    SchemaBuilt(ColumnList, qualname, body);
    DeclarationRest(qualname, table, cols);
    assert forall i :: 0 <= i < |cols| ==> '?' !in Names(cols)[i] by {
      forall i | 0 <= i < |cols| ensures '?' !in Names(cols)[i] {
        assert PlainColumn(cols[i]);
      }
    }
    ColumnListPlaceholders(table, Names(cols), "id");
  }

  lemma {:induction false} RestConcat(a: Body, b: Body)
    ensures Rest(a + b) == Rest(a) + Rest(b)
    decreases |b|
  {
    if |b| == 0 {
      assert a + b == a;
    } else {
      var b' := b[..|b| - 1];
      assert (a + b)[..|a + b| - 1] == a + b';
      RestConcat(a, b');
    }
  }

  lemma {:induction false} RestColumns(cols: seq<(string, Field)>)
    ensures Rest(Columns(cols)) == []
    decreases |cols|
  {
    if |cols| > 0 {
      assert Columns(cols)[..|cols| - 1] == Columns(cols[..|cols| - 1]);
      RestColumns(cols[..|cols| - 1]);
    }
  }

  function UserBody(): Body { Declaration("User", "users", UserColumns()) }
  function BlogBody(): Body { Declaration("Blog", "blogs", BlogColumns()) }
  function CommentBody(): Body { Declaration("Comment", "comments", CommentColumns()) }

  /** `User` builds with primary key `id` and six other columns. */
  lemma UserSchema()
    ensures SchemaOf(ColumnList, "User", UserBody()).Ok?
    ensures var c := SchemaOf(ColumnList, "User", UserBody()).value;
            && c.schema.Some? && c.schema.value.table == "users" && c.schema.value.primaryKey == "id"
            && c.schema.value.fields == ["email", "passwd", "admin", "name", "image", "created_at"]
            && Count('?', c.schema.value.insert) == 7
  {
    UserColumnsWellFormed();
    DeclarationSchema("User", "users", UserColumns());
    UserColumnNames();
  }

  lemma UserColumnNames()
    ensures Names(UserColumns()) == ["email", "passwd", "admin", "name", "image", "created_at"]
  {
  }

  lemma UserColumnsWellFormed()
    ensures WellFormedColumns(UserColumns())
  {
  }

  /** `Blog` builds with primary key `id` and seven other columns. */
  lemma BlogSchema()
    ensures SchemaOf(ColumnList, "Blog", BlogBody()).Ok?
    ensures var c := SchemaOf(ColumnList, "Blog", BlogBody()).value;
            && c.schema.Some? && c.schema.value.table == "blogs" && c.schema.value.primaryKey == "id"
            && c.schema.value.fields == ["user_id", "user_name", "user_image", "name", "summary", "content", "created_at"]
            && Count('?', c.schema.value.insert) == 8
  {
    BlogColumnsWellFormed();
    DeclarationSchema("Blog", "blogs", BlogColumns());
    BlogColumnNames();
  }

  lemma BlogColumnNames()
    ensures Names(BlogColumns()) == ["user_id", "user_name", "user_image", "name", "summary", "content", "created_at"]
  {
  }

  lemma BlogColumnsWellFormed()
    ensures WellFormedColumns(BlogColumns())
  {
  }

  /** `Comment` builds with primary key `id` and six other columns. */
  lemma CommentSchema()
    ensures SchemaOf(ColumnList, "Comment", CommentBody()).Ok?
    ensures var c := SchemaOf(ColumnList, "Comment", CommentBody()).value;
            && c.schema.Some? && c.schema.value.table == "comments" && c.schema.value.primaryKey == "id"
            && c.schema.value.fields == ["blog_id", "user_id", "user_name", "user_image", "content", "created_at"]
            && Count('?', c.schema.value.insert) == 7
  {
    CommentColumnsWellFormed();
    DeclarationSchema("Comment", "comments", CommentColumns());
    CommentColumnNames();
  }

  lemma CommentColumnNames()
    ensures Names(CommentColumns()) == ["blog_id", "user_id", "user_name", "user_image", "content", "created_at"]
  {
  }

  lemma CommentColumnsWellFormed()
    ensures WellFormedColumns(CommentColumns())
  {
  }

  // ---------------------------------------------------------------------------------
  // Pagination.

  /** The attributes `Page.__init__` sets. */
  datatype Page = Page(itemCount: int, pageSize: int, pageCount: int, pageIndex: int,
                       offset: int, limit: int, hasNext: bool, hasPrevious: bool)

  /** `//` and `%` by zero raise `ZeroDivisionError`. */
  datatype PageError = ZeroDivisionError

  /** Python's `a // b`: the quotient rounded towards minus infinity. */
  function FloorDiv(a: int, b: int): (q: int)
    requires b != 0
    ensures b > 0 ==> q * b <= a < q * b + b
    ensures b < 0 ==> q * b >= a > q * b + b
  {
    if b > 0 then a / b else (-a) / (-b)
  }

  /** Python's `a % b`: the remainder takes the sign of the divisor. */
  function FloorMod(a: int, b: int): (m: int)
    requires b != 0
    ensures a == FloorDiv(a, b) * b + m
    ensures b > 0 ==> 0 <= m < b
    ensures b < 0 ==> b < m <= 0
  {
    a - FloorDiv(a, b) * b
  }

  /** `Page(item_count, page_index=1, page_size=10)`. */
  function NewPage(itemCount: int, pageIndex: int := 1, pageSize: int := 10): (r: Result<Page, PageError>)
    ensures r.Err? <==> pageSize == 0
    ensures r.Ok? ==> r.value.itemCount == itemCount && r.value.pageSize == pageSize
    ensures r.Ok? ==> r.value.pageIndex == 1 || r.value.pageIndex == pageIndex
    ensures r.Ok? ==> (r.value.hasNext <==> r.value.pageIndex < r.value.pageCount)
    ensures r.Ok? ==> (r.value.hasPrevious <==> r.value.pageIndex > 1)
  {
    if pageSize == 0 then Err(ZeroDivisionError)
    else
      var pageCount := FloorDiv(itemCount, pageSize) + (if FloorMod(itemCount, pageSize) > 0 then 1 else 0);
      var (index, offset, limit) :=
        if itemCount == 0 || pageIndex > pageCount then (1, 0, 0)
        else (pageIndex, pageSize * (pageIndex - 1), pageSize);
      Ok(Page(itemCount, pageSize, pageCount, index, offset, limit, index < pageCount, index > 1))
  }

  /** A page size of zero raises; any other builds a page that records its inputs. */
  lemma PageBuilt(itemCount: int, pageIndex: int, pageSize: int)
    ensures NewPage(itemCount, pageIndex, pageSize).Err? <==> pageSize == 0
    ensures NewPage(itemCount, pageIndex, pageSize).Ok? ==>
              var p := NewPage(itemCount, pageIndex, pageSize).value;
              p.itemCount == itemCount && p.pageSize == pageSize
  {
  }

  /** With a positive page size the page count is the ceiling of `item_count / page_size`:
      the fewest pages of that size that hold every item. */
  lemma PageCountIsCeiling(itemCount: int, pageSize: int)
    requires pageSize > 0
    ensures var p := NewPage(itemCount, 1, pageSize).value;
            && p.pageCount * pageSize >= itemCount
            && (p.pageCount - 1) * pageSize < itemCount
  {
    var q := FloorDiv(itemCount, pageSize);
    var r := FloorMod(itemCount, pageSize);
    assert (q + 1) * pageSize == q * pageSize + pageSize;
    assert (q - 1) * pageSize == q * pageSize - pageSize;
  }

  /** The page count depends only on the item count and the page size. */
  lemma PageCountOfIndex(itemCount: int, pageIndex: int, pageSize: int)
    requires pageSize != 0
    ensures NewPage(itemCount, pageIndex, pageSize).value.pageCount == NewPage(itemCount, 1, pageSize).value.pageCount
  {
  }

  /** No items, or a page past the last: the first page, empty. */
  lemma PageClamped(itemCount: int, pageIndex: int, pageSize: int)
    requires pageSize != 0
    requires var p := NewPage(itemCount, pageIndex, pageSize).value;
             itemCount == 0 || pageIndex > p.pageCount
    ensures var p := NewPage(itemCount, pageIndex, pageSize).value;
            p.pageIndex == 1 && p.offset == 0 && p.limit == 0 && !p.hasPrevious
            && (p.hasNext <==> p.pageCount > 1)
  {
  }

  /** Otherwise the requested page is kept: it starts after the `page_index - 1` pages
      before it and holds up to one page of items. */
  lemma PageKept(itemCount: int, pageIndex: int, pageSize: int)
    requires pageSize != 0
    requires var p := NewPage(itemCount, pageIndex, pageSize).value;
             itemCount != 0 && pageIndex <= p.pageCount
    ensures var p := NewPage(itemCount, pageIndex, pageSize).value;
            p.pageIndex == pageIndex && p.offset == pageSize * (pageIndex - 1) && p.limit == pageSize
  {
  }

  /** `has_next` and `has_previous` say whether another page follows or precedes. */
  lemma PageFlags(itemCount: int, pageIndex: int, pageSize: int)
    requires pageSize != 0
    ensures var p := NewPage(itemCount, pageIndex, pageSize).value;
            && (p.hasNext <==> p.pageIndex < p.pageCount)
            && (p.hasPrevious <==> p.pageIndex > 1)
  {
  }

  lemma MulMonotone(c: int, a: int, b: int)
    requires c >= 0 && a <= b
    ensures c * a <= c * b
  {
    assert c * b - c * a == c * (b - a);
  }

  /** A page within range starts at an existing item and ends within the last page. */
  lemma PageWindow(itemCount: int, pageIndex: int, pageSize: int)
    requires pageSize > 0
    requires 1 <= pageIndex <= NewPage(itemCount, pageIndex, pageSize).value.pageCount
    ensures var p := NewPage(itemCount, pageIndex, pageSize).value;
            && 0 <= p.offset < itemCount
            && p.offset + p.limit <= p.pageCount * pageSize
  {
    var p := NewPage(itemCount, pageIndex, pageSize).value;
    PageCountOfIndex(itemCount, pageIndex, pageSize);
    PageCountIsCeiling(itemCount, pageSize);
    assert itemCount > 0 by {
      MulMonotone(pageSize, 0, p.pageCount - 1);
    }
    MulMonotone(pageSize, 0, pageIndex - 1);
    MulMonotone(pageSize, pageIndex - 1, p.pageCount - 1);
    assert p.offset == pageSize * (pageIndex - 1);
    assert pageSize * (p.pageCount - 1) == (p.pageCount - 1) * pageSize;
    assert p.offset + p.limit == pageSize * pageIndex;
    MulMonotone(pageSize, pageIndex, p.pageCount);
    assert pageSize * p.pageCount == p.pageCount * pageSize;
  }
}
