/** Column descriptors (`Field` and its subclasses) and the values the ORM moves around. */
module Fields {
  import opened Results

  /** A Python value as far as the ORM looks at it. `Other` is any value the ORM does not
      inspect beyond its truthiness (a float, a timestamp, a list); it is never a mapping. */
  datatype Value =
    | NoneValue
    | Bool(b: bool)
    | Int(i: int)
    | Str(s: string)
    | Tuple(elems: seq<Value>)
    | Other(shown: string, truthy: bool)

  /** Python truthiness: `None`, `False`, `0`, `''` and `()` are false. */
  predicate Truthy(v: Value)
  {
    match v
    case NoneValue => false
    case Bool(b) => b
    case Int(i) => i != 0
    case Str(s) => s != ""
    case Tuple(elems) => elems != []
    case Other(_, truthy) => truthy
  }

  /** A field default: a literal (`None` being `Literal(NoneValue)`) or a zero-argument
      callable such as `next_id` or `time.time`, identified by its name. */
  datatype Default = Literal(value: Value) | Producer(name: string)

  /** The Python class a field was built from. */
  datatype FieldType = BaseField | StringType | IntegerType | BooleanType | FloatType | TextType

  /** `Field(name, column_type, primary_key, default)`; `name` is `None` unless given. */
  datatype Field = Field(fieldType: FieldType, name: Option<string>, columnType: string,
                         primaryKey: bool, default: Default)

  /** `StringField(name=None, primary_key=False, default=None, map_type='varchar(100)')`. */
  function StringField(name: Option<string> := None, primaryKey: bool := false,
                       default: Default := Literal(NoneValue), mapType: string := "varchar(100)"): (f: Field)
    ensures f.fieldType == StringType && f.columnType == mapType
    ensures f.name == name && f.primaryKey == primaryKey && f.default == default
  {
    Field(StringType, name, mapType, primaryKey, default)
  }

  /** `IntegerField(name=None, primary_key=False, default=0)`: a `bigint` column. */
  function IntegerField(name: Option<string> := None, primaryKey: bool := false,
                        default: Default := Literal(Int(0))): (f: Field)
    ensures f.fieldType == IntegerType && f.columnType == "bigint"
    ensures f.name == name && f.primaryKey == primaryKey && f.default == default
  {
    Field(IntegerType, name, "bigint", primaryKey, default)
  }

  /** `BooleanField(name=None, default=False)`: never a primary key. */
  function BooleanField(name: Option<string> := None, default: Default := Literal(Bool(false))): (f: Field)
    ensures f.fieldType == BooleanType && f.columnType == "boolean"
    ensures f.name == name && !f.primaryKey && f.default == default
  {
    Field(BooleanType, name, "boolean", false, default)
  }

  /** `FloatField(name=None, primary_key=False, default=0.0)`: a `real` column; the float
      default `0.0` is an opaque, falsy value here. */
  function FloatField(name: Option<string> := None, primaryKey: bool := false,
                      default: Default := Literal(Other("0.0", false))): (f: Field)
    ensures f.fieldType == FloatType && f.columnType == "real"
    ensures f.name == name && f.primaryKey == primaryKey && f.default == default
  {
    Field(FloatType, name, "real", primaryKey, default)
  }

  /** `TextField(name=None, default=None)`: a `text` column, never a primary key. */
  function TextField(name: Option<string> := None, default: Default := Literal(NoneValue)): (f: Field)
    ensures f.fieldType == TextType && f.columnType == "text"
    ensures f.name == name && !f.primaryKey && f.default == default
  {
    Field(TextType, name, "text", false, default)
  }

  /** The Python class name of a field. */
  function ClassName(t: FieldType): string
  {
    match t
    case BaseField => "Field"
    case StringType => "StringField"
    case IntegerType => "IntegerField"
    case BooleanType => "BooleanField"
    case FloatType => "FloatField"
    case TextType => "TextField"
  }

  /** `str(field)`: `'<%s, %s:%s>' % (class name, column_type, name)`, with `None` for no name. */
  function FieldStr(f: Field): string
  {
    "<" + ClassName(f.fieldType) + ", " + f.columnType + ":"
    + (match f.name case Some(n) => n case None => "None") + ">"
  }
}
