/**
 * PostgreSQL database creation (`DatabaseCreation`): the column type table,
 * the `CREATE DATABASE` suffix and the index statements for one field,
 * including the second `_like` index with a pattern operator class that LIKE
 * queries need outside the C locale. `style.*`, `quote_name`,
 * `truncate_name` and `tablespace_sql` are passed in uninterpreted.
 */
module PostgresCreation {
  import opened Wrappers

  /** A piece of a column type: literal SQL, or a `%(name)s` field attribute. */
  datatype TypePart = Sql(text: string) | FieldAttr(name: string)

  /** A field's `get_internal_type()`: the classes the table lists, or another name. */
  datatype InternalType =
    | AutoField
    | BooleanField
    | CharField
    | CommaSeparatedIntegerField
    | DateField
    | DateTimeField
    | DecimalField
    | FileField
    | FilePathField
    | FloatField
    | IntegerField
    | BigIntegerField
    | IPAddressField
    | NullBooleanField
    | OneToOneField
    | PositiveIntegerField
    | PositiveSmallIntegerField
    | SlugField
    | SmallIntegerField
    | TextField
    | TimeField
    | Unlisted(name: string)

  /**
   * `DatabaseCreation.data_types`: the column type of a field class, the
   * `%(name)s` parts filled from the field's attributes; `None` for a class
   * the table does not list (a `KeyError` on the dictionary).
   */
  function DataType(t: InternalType): (r: Option<seq<TypePart>>)
    ensures r.None? <==> t.Unlisted?
    ensures r.Some? ==> r.value != []
  {
    match t
    case AutoField => Some([Sql("serial")])
    case BooleanField => Some([Sql("boolean")])
    case CharField => Some([Sql("varchar("), FieldAttr("max_length"), Sql(")")])
    case CommaSeparatedIntegerField => Some([Sql("varchar("), FieldAttr("max_length"), Sql(")")])
    case DateField => Some([Sql("date")])
    case DateTimeField => Some([Sql("timestamp with time zone")])
    case DecimalField => Some([Sql("numeric("), FieldAttr("max_digits"), Sql(", "), FieldAttr("decimal_places"), Sql(")")])
    case FileField => Some([Sql("varchar("), FieldAttr("max_length"), Sql(")")])
    case FilePathField => Some([Sql("varchar("), FieldAttr("max_length"), Sql(")")])
    case FloatField => Some([Sql("double precision")])
    case IntegerField => Some([Sql("integer")])
    case BigIntegerField => Some([Sql("bigint")])
    case IPAddressField => Some([Sql("inet")])
    case NullBooleanField => Some([Sql("boolean")])
    case OneToOneField => Some([Sql("integer")])
    case PositiveIntegerField => Some([Sql("integer CHECK (\""), FieldAttr("column"), Sql("\" >= 0)")])
    case PositiveSmallIntegerField => Some([Sql("smallint CHECK (\""), FieldAttr("column"), Sql("\" >= 0)")])
    case SlugField => Some([Sql("varchar("), FieldAttr("max_length"), Sql(")")])
    case SmallIntegerField => Some([Sql("smallint")])
    case TextField => Some([Sql("text")])
    case TimeField => Some([Sql("time")])
    case Unlisted(_) => None
  }

  /** The column type as the source writes it, with `%(name)s` placeholders. */
  function FormatString(parts: seq<TypePart>): string {
    if parts == [] then ""
    else (match parts[0] case Sql(t) => t case FieldAttr(n) => "%(" + n + ")s") + FormatString(parts[1..])
  }

  /**
   * The column type for a field whose attributes are `attrs`
   * (`data_types[...] % field.__dict__`); `None` when an attribute it needs
   * is missing, where Python raises `KeyError`.
   */
  function Interpolate(parts: seq<TypePart>, attrs: map<string, string>): (r: Option<string>)
    ensures r.Some? <==> forall i :: 0 <= i < |parts| && parts[i].FieldAttr? ==> parts[i].name in attrs
    ensures (forall i :: 0 <= i < |parts| ==> parts[i].Sql?) ==> r == Some(FormatString(parts))
  {
    if parts == [] then Some("")
    else
      var head := match parts[0]
        case Sql(t) => Some(t)
        case FieldAttr(n) => if n in attrs then Some(attrs[n]) else None;
      var tail := Interpolate(parts[1..], attrs);
      if head.Some? && tail.Some? then Some(head.value + tail.value) else None
  }

  /** The field attributes a column type may be interpolated with. */
  const FieldAttributes: set<string> := {"max_length", "max_digits", "decimal_places", "column"}

  /**
   * Every parameterised column type asks for the length of a character
   * field, the precision of a decimal field, or the column's own name; a
   * field that has these attributes always gets a column type.
   */
  lemma DataTypeAttributes(k: InternalType, attrs: map<string, string>)
    requires DataType(k).Some?
    requires FieldAttributes <= attrs.Keys
    ensures forall i :: 0 <= i < |DataType(k).value| && DataType(k).value[i].FieldAttr? ==>
              DataType(k).value[i].name in FieldAttributes
    ensures Interpolate(DataType(k).value, attrs).Some?
  {
  }

  /** A type with one attribute between two pieces of SQL. */
  lemma InterpolateOneAttribute(before: string, name: string, after: string, attrs: map<string, string>)
    requires name in attrs
    ensures Interpolate([Sql(before), FieldAttr(name), Sql(after)], attrs) == Some(before + attrs[name] + after)
    ensures FormatString([Sql(before), FieldAttr(name), Sql(after)]) == before + "%(" + name + ")s" + after
  {
    var t := [Sql(before), FieldAttr(name), Sql(after)];
    assert t[1..] == [FieldAttr(name), Sql(after)];
    assert t[1..][1..] == [Sql(after)];
    assert t[1..][1..][1..] == [];
    assert after + "" == after;
    assert Interpolate(t[1..][1..], attrs) == Some(after);
    assert FormatString(t[1..][1..]) == after;
    assert before + (attrs[name] + after) == before + attrs[name] + after;
    assert before + (("%(" + name + ")s") + after) == before + "%(" + name + ")s" + after;
  }

  /** A `CharField` of length `n` is a `varchar(n)` column. */
  lemma CharFieldColumn(attrs: map<string, string>)
    requires "max_length" in attrs
    ensures Interpolate(DataType(CharField).value, attrs) == Some("varchar(" + attrs["max_length"] + ")")
    ensures FormatString(DataType(CharField).value) == "varchar(%(max_length)s)"
  {
    assert DataType(CharField).value == [Sql("varchar("), FieldAttr("max_length"), Sql(")")];
    InterpolateOneAttribute("varchar(", "max_length", ")", attrs);
  }

  /** The connection's test settings that database creation reads. */
  datatype TestSettings = TestSettings(testCharset: Option<string>, testCollation: Option<string>)

  datatype AssertionError = AssertionError(message: string)

  const CollationUnsupported := "PostgreSQL does not support collation setting at database creation time."

  /**
   * `sql_table_creation_suffix`: an encoding clause for a configured test
   * charset; a test collation is refused, since PostgreSQL cannot set it when
   * creating a database.
   */
  function SqlTableCreationSuffix(settings: TestSettings): (r: Result<string, AssertionError>)
    ensures settings.testCollation.Some? <==> r.Err?
    ensures r.Err? ==> r.error == AssertionError(CollationUnsupported)
    ensures r.Ok? && settings.testCharset.Some? && settings.testCharset.value != "" ==>
              r.value == "WITH ENCODING '" + settings.testCharset.value + "'"
    ensures r.Ok? && (settings.testCharset == None || settings.testCharset == Some("")) ==> r.value == ""
  {
    if settings.testCollation.Some? then Err(AssertionError(CollationUnsupported))
    else match settings.testCharset
      case Some(charset) =>
        if charset != "" then Ok("WITH ENCODING '" + charset + "'") else Ok("")
      case None => Ok("")
  }

  /** The host hooks index generation goes through. */
  datatype Hooks = Hooks(
    sqlKeyword: string -> string,
    sqlTable: string -> string,
    sqlField: string -> string,
    quoteName: string -> string,
    truncateName: (string, nat) -> string,
    maxNameLength: nat,
    tablespaceSql: string -> string)

  /**
   * What index generation reads of a field; an absent tablespace is `""`, and
   * `dbType` is `f.db_type()`, which is `None` for a type the backend lacks.
   */
  datatype Field = Field(column: string, dbIndex: bool, unique: bool, dbTablespace: string, dbType: Option<string>)

  /** `None.startswith(...)`: the field has no database column type. */
  datatype AttributeError = NoStartswith

  /** What index generation reads of the model's options. */
  datatype ModelMeta = ModelMeta(dbTable: string, dbTablespace: string)

  /**
   * The tablespace clause appended to every index statement: the field's
   * tablespace wins over the model's, and the clause is a space and the
   * backend's tablespace SQL only when that SQL is not empty.
   */
  function TablespaceSuffix(model: ModelMeta, f: Field, h: Hooks): (suffix: string)
    ensures f.dbTablespace != "" ==>
              suffix == (if h.tablespaceSql(f.dbTablespace) != "" then " " + h.tablespaceSql(f.dbTablespace) else "")
    ensures f.dbTablespace == "" && model.dbTablespace != "" ==>
              suffix == (if h.tablespaceSql(model.dbTablespace) != "" then " " + h.tablespaceSql(model.dbTablespace) else "")
    ensures f.dbTablespace == "" && model.dbTablespace == "" ==> suffix == ""
  {
    var tablespace := if f.dbTablespace != "" then f.dbTablespace else model.dbTablespace;
    if tablespace != "" then
      var sql := h.tablespaceSql(tablespace);
      if sql != "" then " " + sql else ""
    else ""
  }

  /** `get_index_sql(index_name, opclass)`. */
  function IndexSql(model: ModelMeta, f: Field, h: Hooks, indexName: string, opclass: string): string {
    h.sqlKeyword("CREATE INDEX") + " "
    + h.sqlTable(h.quoteName(h.truncateName(indexName, h.maxNameLength))) + " "
    + h.sqlKeyword("ON") + " "
    + h.sqlTable(h.quoteName(model.dbTable)) + " "
    + "(" + h.sqlField(h.quoteName(f.column)) + opclass + ")"
    + TablespaceSuffix(model, f, h) + ";"
  }

  predicate EndsWith(s: string, suffix: string) {
    |suffix| <= |s| && s[|s| - |suffix|..] == suffix
  }

  /** Every index statement ends with the tablespace clause and a semicolon. */
  lemma IndexSqlEnds(model: ModelMeta, f: Field, h: Hooks, indexName: string, opclass: string)
    ensures EndsWith(IndexSql(model, f, h, indexName, opclass), TablespaceSuffix(model, f, h) + ";")
  {
    var s := IndexSql(model, f, h, indexName, opclass);
    var end := TablespaceSuffix(model, f, h) + ";";
    var head := h.sqlKeyword("CREATE INDEX") + " "
      + h.sqlTable(h.quoteName(h.truncateName(indexName, h.maxNameLength))) + " "
      + h.sqlKeyword("ON") + " "
      + h.sqlTable(h.quoteName(model.dbTable)) + " "
      + "(" + h.sqlField(h.quoteName(f.column)) + opclass + ")";
    assert s == head + end;
  }

  /**
   * `sql_indexes_for_field`: nothing for a field that is not indexed or is
   * unique (its constraint already makes an index); otherwise the plain index
   * `<table>_<column>`, followed by a `<table>_<column>_like` index with the
   * pattern operator class matching a `varchar` or `text` column type. An
   * indexed field without a column type makes `db_type.startswith` raise
   * `AttributeError` once the first statement is built, so none is returned.
   */
  function SqlIndexesForField(model: ModelMeta, f: Field, h: Hooks): (r: Result<seq<string>, AttributeError>)
    ensures !f.dbIndex || f.unique ==> r == Ok([])
    ensures r.Err? <==> f.dbIndex && !f.unique && f.dbType == None
    ensures r.Ok? && f.dbIndex && !f.unique ==>
              |r.value| >= 1 && r.value[0] == IndexSql(model, f, h, model.dbTable + "_" + f.column, "")
    ensures r.Ok? ==>
              (|r.value| == 2 <==>
                 (f.dbIndex && !f.unique && f.dbType.Some? && ("varchar" <= f.dbType.value || "text" <= f.dbType.value)))
    ensures r.Ok? && |r.value| == 2 && "varchar" <= f.dbType.value ==>
              r.value[1] == IndexSql(model, f, h, model.dbTable + "_" + f.column + "_like", " varchar_pattern_ops")
    ensures r.Ok? && |r.value| == 2 && !("varchar" <= f.dbType.value) ==>
              r.value[1] == IndexSql(model, f, h, model.dbTable + "_" + f.column + "_like", " text_pattern_ops")
    ensures r.Ok? ==> |r.value| <= 2
  {
    if f.dbIndex && !f.unique then
      var first := IndexSql(model, f, h, model.dbTable + "_" + f.column, "");
      var like := model.dbTable + "_" + f.column + "_like";
      match f.dbType
      case None => Err(NoStartswith)
      case Some(dbType) =>
        if "varchar" <= dbType then Ok([first, IndexSql(model, f, h, like, " varchar_pattern_ops")])
        else if "text" <= dbType then Ok([first, IndexSql(model, f, h, like, " text_pattern_ops")])
        else Ok([first])
    else Ok([])
  }

  /** Each statement `sql_indexes_for_field` returns ends with the tablespace clause and `;`. */
  lemma IndexesEndWithTablespace(model: ModelMeta, f: Field, h: Hooks)
    ensures var r := SqlIndexesForField(model, f, h);
            r.Ok? ==> forall s :: s in r.value ==> EndsWith(s, TablespaceSuffix(model, f, h) + ";")
  {
    if f.dbIndex && !f.unique && f.dbType.Some? {
      var like := model.dbTable + "_" + f.column + "_like";
      IndexSqlEnds(model, f, h, model.dbTable + "_" + f.column, "");
      if "varchar" <= f.dbType.value {
        IndexSqlEnds(model, f, h, like, " varchar_pattern_ops");
      } else if "text" <= f.dbType.value {
        IndexSqlEnds(model, f, h, like, " text_pattern_ops");
      }
    }
  }
}
