/** The values `json.loads` produces for the records the server receives. */
module JsonData {

  /**
   * A decoded JSON value: `None`, a `bool`, an `int` (a literal without a
   * fraction or exponent), a `float`, a `str`, a `list` or a `dict`.
   */
  datatype Json =
    | JNull
    | JBool(b: bool)
    | JInt(i: int)
    | JFloat(x: real)
    | JString(s: string)
    | JArray(items: seq<Json>)
    | JObject(fields: map<string, Json>)

  const DateColumn: string := "DateTransactionJulian"
  const NameColumn: string := "NameAlpha"
  const StateColumn: string := "State"
  const AmountColumn: string := "Orig_Inv_Ttl_Prod_Value"

  /** The fields every record must carry, in the order they are checked. */
  const RequiredFields: seq<string> := [DateColumn, NameColumn, StateColumn, AmountColumn]

  /** A record of the input array, as a `dict`. */
  type Record = map<string, Json>

  /** The value a frame built from records holds in column `c`: a missing key reads as a missing value. */
  function Cell(r: Record, c: string): (v: Json)
    ensures c !in r ==> v == JNull
    ensures c in r ==> v == r[c]
  {
    if c in r then r[c] else JNull
  }
}
