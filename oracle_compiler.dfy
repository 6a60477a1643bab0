/**
 * The Oracle SQL compiler's emulation of LIMIT/OFFSET (`SQLCompiler.as_sql`)
 * by wrapping the query in a ROWNUM subquery, and the matching
 * `resolve_columns`, which throws away the extra `"_RN"` column that wrapper
 * adds to every row. The generic compiler (`super().as_sql`) and
 * `convert_values` are passed in uninterpreted.
 */
module OracleCompiler {
  import opened Wrappers
  import opened Text

  /** The slice of a query: `low_mark`, `high_mark` and how many `extra_select` columns it has. */
  datatype Query = Query(lowMark: nat, highMark: Option<nat>, extraSelectCount: nat)

  /** SQL text with its parameters. */
  datatype SqlParams<P> = SqlParams(sql: string, params: seq<P>)

  /** `high_mark is not None or low_mark`: the query has a limit or an offset. */
  predicate Paginated(q: Query) {
    q.highMark.Some? || q.lowMark != 0
  }

  const WrapperHead := "SELECT * FROM (SELECT ROWNUM AS \"_RN\", \"_SUB\".* FROM ("

  /** `WHERE ROWNUM <= high_mark` when there is a high mark. */
  function HighWhere(q: Query): (r: string)
    ensures r == "" <==> q.highMark == None
    ensures q.highMark.Some? ==> r == "WHERE ROWNUM <= " + NatToString(q.highMark.value)
  {
    match q.highMark
    case Some(h) => "WHERE ROWNUM <= " + NatToString(h)
    case None => ""
  }

  /** The ROWNUM wrapper around the inner query's SQL. */
  function Wrap(inner: string, q: Query): string {
    WrapperHead + inner + ") \"_SUB\" " + HighWhere(q) + ") WHERE \"_RN\" > " + NatToString(q.lowMark)
  }

  /**
   * `as_sql(with_limits, with_col_aliases)`, where `inner(b)` is the generic
   * compiler's `as_sql(with_limits=False, with_col_aliases=b)`.
   */
  function AsSql<P>(q: Query, withLimits: bool, withColAliases: bool, inner: bool -> SqlParams<P>): (r: SqlParams<P>)
    ensures withLimits && q.highMark == Some(q.lowMark) ==> r == SqlParams("", [])
    ensures withLimits && q.highMark != Some(q.lowMark) && Paginated(q) ==>
              r == SqlParams(Wrap(inner(true).sql, q), inner(true).params)
    ensures !(withLimits && Paginated(q)) ==> r == inner(withColAliases)
  {
    if withLimits && q.highMark == Some(q.lowMark) then SqlParams("", [])
    else if withLimits && Paginated(q) then
      var SqlParams(sql, params) := inner(true);
      SqlParams(Wrap(sql, q), params)
    else inner(withColAliases)
  }

  /**
   * The wrapped SQL is, in this order: the ROWNUM head, the inner query
   * verbatim, the `"_SUB"` alias followed by the high-mark clause, and the
   * offset test on `"_RN"`.
   */
  lemma WrapEmbedsInner(inner: string, q: Query)
    ensures var w := Wrap(inner, q);
            var mid := ") \"_SUB\" " + HighWhere(q);
            var tail := ") WHERE \"_RN\" > " + NatToString(q.lowMark);
            var start := |WrapperHead| + |inner|;
            && |w| == start + |mid| + |tail|
            && w[..|WrapperHead|] == WrapperHead
            && w[|WrapperHead|..start] == inner
            && w[start..start + |mid|] == mid
            && EndsWith(w, tail)
  {
    var w := Wrap(inner, q);
    var mid := ") \"_SUB\" " + HighWhere(q);
    var tail := ") WHERE \"_RN\" > " + NatToString(q.lowMark);
    var start := |WrapperHead| + |inner|;
    assert w == WrapperHead + inner + mid + tail;
    assert (WrapperHead + inner + mid + tail)[|WrapperHead|..start] == inner;
    assert (WrapperHead + inner + mid + tail)[start..start + |mid|] == mid;
    assert w == (WrapperHead + inner + mid) + tail;
  }

  predicate EndsWith(s: string, suffix: string) {
    |suffix| <= |s| && s[|s| - |suffix|..] == suffix
  }

  /** The element at `i`, or `None` past the end (how `map(None, a, b)` pads). */
  function At<T>(s: seq<T>, i: nat): Option<T> {
    if i < |s| then Some(s[i]) else None
  }

  /** Python's `s[lo:hi]` for non-negative bounds: both are clamped to the length. */
  function PySlice<T>(s: seq<T>, lo: nat, hi: nat): (r: seq<T>)
    ensures |r| == if lo < hi && lo < |s| then (if hi < |s| then hi else |s|) - lo else 0
    ensures forall i :: 0 <= i < |r| ==> r[i] == s[lo + i]
  {
    var h := if hi < |s| then hi else |s|;
    if lo < h then s[lo..h] else []
  }

  function Max(a: nat, b: nat): nat {
    if a < b then b else a
  }

  /** The columns `row[lo:hi]`, each converted without a field. */
  function ConvertWithoutField<V, F, W>(row: seq<V>, lo: nat, hi: nat,
                                        convert: (Option<V>, Option<F>) -> W): (r: seq<W>)
    ensures |r| == |PySlice(row, lo, hi)|
    ensures forall i :: 0 <= i < |r| ==> r[i] == convert(Some(row[lo + i]), None)
  {
    var values := PySlice(row, lo, hi);
    seq(|values|, i requires 0 <= i < |values| => convert(Some(values[i]), None))
  }

  /** The columns from `start` on, paired positionally with `fields` and padded with `None`. */
  function ConvertWithFields<V, F, W>(row: seq<V>, start: nat, fields: seq<F>,
                                      convert: (Option<V>, Option<F>) -> W): (r: seq<W>)
    ensures |r| == Max(if start < |row| then |row| - start else 0, |fields|)
    ensures forall j :: 0 <= j < |r| ==> r[j] == convert(At(row, start + j), At(fields, j))
  {
    var values := PySlice(row, start, |row|);
    var n := Max(|values|, |fields|);
    assert forall j :: 0 <= j < n ==> At(values, j) == At(row, start + j);
    seq(n, j requires 0 <= j < n => convert(At(values, j), At(fields, j)))
  }

  /**
   * `resolve_columns(row, fields)`: skip the `"_RN"` column of a paginated
   * query, convert the `extra_select` columns without a field, and pair the
   * remaining columns with `fields` positionally, padding the shorter side
   * with `None`. This is what `map(None, ...)` did in Python 2, and the
   * behaviour the code is written for; `ResolveColumnsAsWritten` is what the
   * same line does in Python 3.
   */
  function ResolveColumns<V, F, W>(q: Query, row: seq<V>, fields: seq<F>,
                                   convert: (Option<V>, Option<F>) -> W): (r: seq<W>)
    ensures var rnOffset := if Paginated(q) then 1 else 0;
            var indexStart := rnOffset + q.extraSelectCount;
            var extra := |PySlice(row, rnOffset, indexStart)|;
            var restRow := if indexStart < |row| then |row| - indexStart else 0;
            && |r| == extra + Max(restRow, |fields|)
            && (forall i :: 0 <= i < extra ==> r[i] == convert(Some(row[rnOffset + i]), None))
            && (forall j :: 0 <= j < Max(restRow, |fields|) ==>
                  r[extra + j] == convert(At(row, indexStart + j), At(fields, j)))
  {
    var rnOffset := if Paginated(q) then 1 else 0;
    var indexStart := rnOffset + q.extraSelectCount;
    ConvertWithoutField(row, rnOffset, indexStart, convert) + ConvertWithFields(row, indexStart, fields, convert)
  }

  /** The error Python 3 raises when `map` calls `None` as its function. */
  datatype TypeError = NoneNotCallable

  /**
   * `resolve_columns(row, fields)` as written, under the Python 3 that the
   * `:=` at line 32 requires: `map(None, row[index_start:], fields)` stops at
   * the shorter input and raises `TypeError` on the first pair it builds,
   * because `None` is not callable. So the columns after the `extra_select`
   * ones are dropped when either side is empty, and the call fails otherwise.
   */
  function ResolveColumnsAsWritten<V, F, W>(q: Query, row: seq<V>, fields: seq<F>,
                                            convert: (Option<V>, Option<F>) -> W): (r: Result<seq<W>, TypeError>)
    ensures var indexStart := (if Paginated(q) then 1 else 0) + q.extraSelectCount;
            r.Err? <==> indexStart < |row| && fields != []
    ensures var rnOffset := if Paginated(q) then 1 else 0;
            r.Ok? ==> |r.value| == |PySlice(row, rnOffset, rnOffset + q.extraSelectCount)|
                      && forall i :: 0 <= i < |r.value| ==> r.value[i] == convert(Some(row[rnOffset + i]), None)
  {
    var rnOffset := if Paginated(q) then 1 else 0;
    var indexStart := rnOffset + q.extraSelectCount;
    if indexStart < |row| && fields != [] then Err(NoneNotCallable)
    else Ok(ConvertWithoutField(row, rnOffset, indexStart, convert))
  }

  /**
   * The code as written agrees with the padded pairing only when no column is
   * left after the `extra_select` ones and no field is given.
   */
  lemma AsWrittenAgreesOnlyWithoutFieldColumns<V, F, W>(q: Query, row: seq<V>, fields: seq<F>,
                                                        convert: (Option<V>, Option<F>) -> W)
    ensures ResolveColumnsAsWritten(q, row, fields, convert) == Ok(ResolveColumns(q, row, fields, convert))
            <==> (if Paginated(q) then 1 else 0) + q.extraSelectCount >= |row| && fields == []
  {
    var rnOffset := if Paginated(q) then 1 else 0;
    var indexStart := rnOffset + q.extraSelectCount;
    var extra := ConvertWithoutField(row, rnOffset, indexStart, convert);
    var rest := ConvertWithFields(row, indexStart, fields, convert);
    assert ResolveColumns(q, row, fields, convert) == extra + rest;
    if indexStart >= |row| && fields == [] {
      assert rest == [];
      assert extra + rest == extra;
    } else if !(indexStart < |row| && fields != []) {
      assert |rest| > 0;
      assert |extra + rest| != |extra|;
    }
  }

  /**
   * One column and no fields: the default call `resolve_columns(row)` returns
   * an empty tuple, where the pairing that was meant keeps the column.
   */
  lemma AsWrittenDropsColumn<V, F, W>(v: V, convert: (Option<V>, Option<F>) -> W)
    ensures ResolveColumnsAsWritten<V, F, W>(Query(0, None, 0), [v], [], convert) == Ok([])
    ensures ResolveColumns<V, F, W>(Query(0, None, 0), [v], [], convert) == [convert(Some(v), None)]
  {
    var r := ResolveColumns<V, F, W>(Query(0, None, 0), [v], [], convert);
    assert |r| == 1;
  }

  /** The query with its limit and offset removed. */
  function Unsliced(q: Query): Query {
    q.(lowMark := 0, highMark := None)
  }

  /**
   * The `"_RN"` column that the ROWNUM wrapper puts in front of each row is
   * exactly what `resolve_columns` strips: resolving a paginated row gives the
   * same values as resolving the row without that column for the unsliced query.
   */
  lemma ResolveDropsRowNumber<V, F, W>(q: Query, rn: V, row: seq<V>, fields: seq<F>,
                                       convert: (Option<V>, Option<F>) -> W)
    requires Paginated(q)
    ensures ResolveColumns(q, [rn] + row, fields, convert) == ResolveColumns(Unsliced(q), row, fields, convert)
  {
    var e := q.extraSelectCount;
    ExtraColumnsShift<V, F, W>(rn, row, e, convert);
    FieldColumnsShift(rn, row, e, fields, convert);
  }

  lemma ExtraColumnsShift<V, F, W>(rn: V, row: seq<V>, e: nat, convert: (Option<V>, Option<F>) -> W)
    ensures ConvertWithoutField<V, F, W>([rn] + row, 1, 1 + e, convert) == ConvertWithoutField<V, F, W>(row, 0, e, convert)
  {
    assert |PySlice([rn] + row, 1, 1 + e)| == |PySlice(row, 0, e)|;
  }

  lemma FieldColumnsShift<V, F, W>(rn: V, row: seq<V>, e: nat, fields: seq<F>, convert: (Option<V>, Option<F>) -> W)
    ensures ConvertWithFields([rn] + row, 1 + e, fields, convert) == ConvertWithFields(row, e, fields, convert)
  {
    var a := ConvertWithFields([rn] + row, 1 + e, fields, convert);
    var b := ConvertWithFields(row, e, fields, convert);
    forall j | 0 <= j < |a|
      ensures a[j] == b[j]
    {
      assert At([rn] + row, 1 + e + j) == At(row, e + j);
    }
  }
}
