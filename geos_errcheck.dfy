/**
 * The error checks attached to GEOS C function prototypes: each turns the
 * sentinel return values of the C API into a `GEOSException` (or, for
 * `check_dbl`, into `None`) and passes every other value through. Pointers
 * are natural numbers with 0 as NULL; reading a C string (`string_at`) is
 * passed in, and freeing it is not modelled.
 */
module GeosErrCheck {
  import opened Wrappers

  newtype Byte = x: int | 0 <= x < 256

  datatype GEOSException = GEOSException(message: string)

  /**
   * `check_dbl`: the status 1 means success and yields the double the C
   * function wrote through its last, by-reference argument; any other status
   * yields `None` rather than an exception.
   */
  function CheckDbl(result: int, lastArgByRef: real): (r: Option<real>)
    ensures r.Some? <==> result == 1
    ensures r.Some? ==> r.value == lastArgByRef
  {
    if result != 1 then None else Some(lastArgByRef)
  }

  /** `check_geom`: a NULL geometry pointer is an error; any other pointer is returned as is. */
  function CheckGeom(result: nat, funcName: string): (r: Result<nat, GEOSException>)
    ensures r.Err? <==> result == 0
    ensures r.Ok? ==> r.value == result
    ensures r.Err? ==> r.error.message == GeometryError(funcName)
  {
    if result == 0 then
      Err(GEOSException(GeometryError(funcName)))
    else Ok(result)
  }

  function GeometryError(funcName: string): string {
    "Error encountered checking Geometry returned from GEOS C function \"" + funcName + "\"."
  }

  function PredicateError(funcName: string): string {
    "Error encountered on GEOS C predicate function \"" + funcName + "\"."
  }

  function StringError(funcName: string): string {
    "Error encountered checking string return value in GEOS C function \"" + funcName + "\"."
  }

  function SizedStringError(funcName: string): string {
    "Invalid string pointer returned by GEOS C function \"" + funcName + "\""
  }

  function FunctionError(funcName: string): string {
    "Error encountered in GEOS C function \"" + funcName + "\"."
  }

  /** `check_minus_one`: -1 is the error sentinel; every other value is returned unchanged. */
  function CheckMinusOne(result: int, funcName: string): (r: Result<int, GEOSException>)
    ensures r.Err? <==> result == -1
    ensures r.Ok? ==> r.value == result
    ensures r.Err? ==> r.error.message == FunctionError(funcName)
  {
    if result == -1 then Err(GEOSException(FunctionError(funcName))) else Ok(result)
  }

  /** `check_zero`: 0 is the error sentinel; every other value is returned unchanged. */
  function CheckZero(result: int, funcName: string): (r: Result<int, GEOSException>)
    ensures r.Err? <==> result == 0
    ensures r.Ok? ==> r.value == result
    ensures r.Err? ==> r.error.message == FunctionError(funcName)
  {
    if result == 0 then Err(GEOSException(FunctionError(funcName))) else Ok(result)
  }

  /**
   * `check_predicate`: GEOS predicates return the character 0 (false) or 1
   * (true); any other ordinal (2 is GEOS's exception value) is an error.
   */
  function CheckPredicate(result: Byte, funcName: string): (r: Result<bool, GEOSException>)
    ensures r.Ok? <==> result <= 1
    ensures r.Ok? ==> (r.value <==> result == 1)
    ensures r.Err? ==> r.error.message == PredicateError(funcName)
  {
    if result == 0 then Ok(false)
    else if result == 1 then Ok(true)
    else Err(GEOSException(PredicateError(funcName)))
  }

  /**
   * `check_string`: a NULL string pointer is an error raised before anything
   * is read; otherwise the NUL-terminated string at the pointer is returned.
   */
  function CheckString(result: nat, funcName: string, stringAt: nat -> seq<Byte>): (r: Result<seq<Byte>, GEOSException>)
    ensures r.Err? <==> result == 0
    ensures r.Ok? ==> r.value == stringAt(result)
    ensures r.Err? ==> r.error.message == StringError(funcName)
  {
    if result == 0 then
      Err(GEOSException(StringError(funcName)))
    else Ok(stringAt(result))
  }

  /**
   * `check_sized_string`: a NULL string pointer is an error raised before
   * anything is read; otherwise the string of the size passed back through
   * the last argument is returned.
   */
  function CheckSizedString(result: nat, lastArgByRef: nat, funcName: string,
                            stringAtSized: (nat, nat) -> seq<Byte>): (r: Result<seq<Byte>, GEOSException>)
    ensures r.Err? <==> result == 0
    ensures r.Ok? ==> r.value == stringAtSized(result, lastArgByRef)
    ensures r.Err? ==> r.error.message == SizedStringError(funcName)
  {
    if result == 0 then
      Err(GEOSException(SizedStringError(funcName)))
    else Ok(stringAtSized(result, lastArgByRef))
  }
}
