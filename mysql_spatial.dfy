/**
 * The spatial lookup translation of the MySQL GIS backend
 * (`MySQLOperations`): every supported lookup name is an `MBR*`
 * bounding-rectangle function of MySQL, `isnull` is a NULL test, and any other
 * lookup is a `TypeError`. Identifier quoting (`qn` and the backend's own
 * `quote_name`) is passed in uninterpreted.
 */
module MySQLSpatial {
  import opened Wrappers

  /** `MySQLOperations.geometry_functions`. */
  const GeometryFunctions: map<string, string> := map[
    "bbcontains" := "MBRContains",
    "bboverlaps" := "MBROverlaps",
    "contained" := "MBRWithin",
    "contains" := "MBRContains",
    "disjoint" := "MBRDisjoint",
    "equals" := "MBREqual",
    "exact" := "MBREqual",
    "intersects" := "MBRIntersects",
    "overlaps" := "MBROverlaps",
    "same_as" := "MBREqual",
    "touches" := "MBRTouches",
    "within" := "MBRWithin"
  ]

  /** `MySQLOperations.from_text`, MySQL's WKT constructor. */
  const FromText := "GeomFromText"

  /** `geometry_functions.get(lookup_type, False)`, `None` standing for `False`. */
  function GeometryFunction(lookup: string): (r: Option<string>)
    ensures r.Some? <==> lookup in GeometryFunctions
    ensures r.Some? ==> "MBR" <= r.value && '(' !in r.value
    ensures lookup in {"contains", "bbcontains"} ==> r == Some("MBRContains")
    ensures lookup in {"equals", "exact", "same_as"} ==> r == Some("MBREqual")
    ensures lookup in {"within", "contained"} ==> r == Some("MBRWithin")
    ensures lookup in {"overlaps", "bboverlaps"} ==> r == Some("MBROverlaps")
  {
    if lookup in GeometryFunctions then Some(GeometryFunctions[lookup]) else None
  }

  /** `MySQLOperations.gis_terms`: every geometry function key and `isnull`, each mapped to `None`. */
  function GisTerms(): (terms: map<string, Option<string>>)
    ensures terms.Keys == GeometryFunctions.Keys + {"isnull"}
    ensures forall k :: k in terms ==> terms[k] == None
  {
    map k | k in GeometryFunctions.Keys + {"isnull"} :: None
  }

  /** A geometry field: its OGC type name and its SRID. */
  datatype GeometryField = GeometryField(geomType: string, srid: int)

  /** `geo_db_type`: MySQL columns are declared with the geometry type itself. */
  function GeoDbType(f: GeometryField): (t: string)
    ensures t == f.geomType
  {
    f.geomType
  }

  /**
   * The right-hand value of a lookup: a geometry (adapted as WKT), an
   * expression naming another column (`value.cols[value.expression]`, already
   * resolved to its alias and column), or the boolean of an `isnull` lookup.
   */
  datatype LookupValue =
    | GeometryValue(wkt: string)
    | ColumnExpression(alias: string, col: string)
    | BooleanValue(b: bool)

  /** Python truthiness of the lookup value. */
  predicate Truthy(v: LookupValue) {
    !v.BooleanValue? || v.b
  }

  /**
   * `get_geom_placeholder`: the quoted `alias.col` of an expression, else the
   * WKT constructor around the parameter marker. The SRID is ignored because
   * MySQL does no spatial transformation.
   */
  function GetGeomPlaceholder(value: LookupValue, srid: int, quoteName: string -> string): (p: string)
    ensures value.ColumnExpression? ==> p == quoteName(value.alias) + "." + quoteName(value.col)
    ensures !value.ColumnExpression? ==> p == "GeomFromText(%s)"
  {
    if value.ColumnExpression? then quoteName(value.alias) + "." + quoteName(value.col)
    else FromText + "(%s)"
  }

  datatype TypeError = TypeError(lookup: string)

  function GeoCol(alias: string, col: string, qn: string -> string): string {
    qn(alias) + "." + qn(col)
  }

  /**
   * `spatial_lookup_sql` for the left-hand value `(alias, col, db_type)`.
   * `quoteName` is the backend's own quoting, used by the placeholder; `qn` is
   * the compiler's, used for the geometry column.
   */
  function SpatialLookupSql(alias: string, col: string, dbType: string, lookup: string,
                            value: LookupValue, field: GeometryField,
                            qn: string -> string, quoteName: string -> string): (r: Result<string, TypeError>)
    ensures lookup in GeometryFunctions ==>
              r == Ok(Call(GeometryFunctions[lookup],
                           GeoCol(alias, col, qn) + ", " + GetGeomPlaceholder(value, field.srid, quoteName)))
    ensures lookup == "isnull" && !Truthy(value) ==> r == Ok(GeoCol(alias, col, qn) + " IS NOT NULL")
    ensures lookup == "isnull" && Truthy(value) ==> r == Ok(GeoCol(alias, col, qn) + " IS NULL")
    ensures r.Err? <==> lookup !in GisTerms()
    ensures r.Err? ==> r.error == TypeError(lookup)
  {
    var geoCol := GeoCol(alias, col, qn);
    match GeometryFunction(lookup)
    case Some(func) => Ok(Call(func, geoCol + ", " + GetGeomPlaceholder(value, field.srid, quoteName)))
    case None =>
      if lookup == "isnull" then Ok(if !Truthy(value) then geoCol + " IS NOT NULL" else geoCol + " IS NULL")
      else Err(TypeError(lookup))
  }

  /** `FUNC(args)`, the SQL call of a MySQL function. */
  function Call(func: string, args: string): string {
    func + "(" + args + ")"
  }

  /** A function name without parentheses is recoverable from the call it heads. */
  lemma CallHeadInjective(a: string, b: string, args: string)
    requires '(' !in a && '(' !in b
    requires Call(a, args) == Call(b, args)
    ensures a == b
  {
    if |a| != |b| {
      // the shorter name would be followed by '(' where the longer one has a letter
      assert false;
    } else {
      assert a == Call(a, args)[..|a|];
      assert b == Call(b, args)[..|b|];
    }
  }

  /**
   * On the same column and value, two geometry lookups produce the same SQL
   * exactly when they name the same MySQL function: the aliases of the
   * mapping are interchangeable, and distinct functions are never confused.
   */
  lemma LookupsAgreeIffSameFunction(alias: string, col: string, dbType: string, l1: string, l2: string,
                                    value: LookupValue, field: GeometryField,
                                    qn: string -> string, quoteName: string -> string)
    requires l1 in GeometryFunctions && l2 in GeometryFunctions
    ensures SpatialLookupSql(alias, col, dbType, l1, value, field, qn, quoteName)
            == SpatialLookupSql(alias, col, dbType, l2, value, field, qn, quoteName)
            <==> GeometryFunctions[l1] == GeometryFunctions[l2]
  {
    var args := GeoCol(alias, col, qn) + ", " + GetGeomPlaceholder(value, field.srid, quoteName);
    var f1, f2 := GeometryFunctions[l1], GeometryFunctions[l2];
    assert GeometryFunction(l1) == Some(f1) && GeometryFunction(l2) == Some(f2);
    if SpatialLookupSql(alias, col, dbType, l1, value, field, qn, quoteName)
       == SpatialLookupSql(alias, col, dbType, l2, value, field, qn, quoteName) {
      CallHeadInjective(f1, f2, args);
    }
  }
}
