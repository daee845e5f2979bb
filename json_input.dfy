/**
 * `DataProcessor.validate_json_structure`: the request body must be a
 * non-empty array whose first element holds the four required fields; the
 * check is Python's `in`, whatever the first element's type.
 */
module JsonInput {
  import opened Wrappers
  import opened JsonData

  /** `needle` occurs in `hay` as a contiguous substring. */
  predicate Substring(needle: string, hay: string) {
    needle <= hay || (|hay| > 0 && Substring(needle, hay[1..]))
  }

  /** The Python type name of a value `in` cannot search. */
  function TypeName(v: Json): string {
    match v
    case JNull => "NoneType"
    case JBool(_) => "bool"
    case JInt(_) => "int"
    case JFloat(_) => "float"
    case JString(_) => "str"
    case JArray(_) => "list"
    case JObject(_) => "dict"
  }

  /**
   * `field in container`: a key of a `dict`, a substring of a `str`, an
   * element of a `list`; for the other types a `TypeError` naming the type.
   */
  function Contains(container: Json, field: string): (r: Result<bool, string>)
    ensures r.Err? <==> container.JNull? || container.JBool? || container.JInt? || container.JFloat?
    ensures r.Err? ==> r.error == TypeName(container)
  {
    match container
    case JObject(m) => Ok(field in m)
    case JString(s) => Ok(Substring(field, s))
    case JArray(xs) => Ok(JString(field) in xs)
    case _ => Err(TypeName(container))
  }

  const NotAnArray: string := "Data must be an array"
  const EmptyArray: string := "Data array cannot be empty"
  const ValidStructure: string := "Valid structure"

  function MissingField(field: string): string {
    "Missing required field: " + field
  }

  /** `str(e)` of the `TypeError` raised by `in`, as the `except` clause reports it. */
  function NotIterable(typeName: string): string {
    "Validation error: argument of type '" + typeName + "' is not iterable"
  }

  /** The loop over the required fields, in order, on the first record. */
  function CheckFields(first: Json, fields: seq<string>): (r: (bool, string))
    ensures r.0 ==> r.1 == ValidStructure
  {
    if |fields| == 0 then (true, ValidStructure)
    else match Contains(first, fields[0])
      case Err(t) => (false, NotIterable(t))
      case Ok(found) => if found then CheckFields(first, fields[1..]) else (false, MissingField(fields[0]))
  }

  /** `validate_json_structure`: the verdict and its message. */
  function ValidateJsonStructure(data: Json): (r: (bool, string))
    ensures !data.JArray? ==> r == (false, NotAnArray)
    ensures data == JArray([]) ==> r == (false, EmptyArray)
    ensures data.JArray? && |data.items| > 0 && Contains(data.items[0], DateColumn).Err? ==>
              r == (false, NotIterable(TypeName(data.items[0])))
    ensures r.0 ==> r.1 == ValidStructure
  {
    if !data.JArray? then (false, NotAnArray)
    else if |data.items| == 0 then (false, EmptyArray)
    else CheckFields(data.items[0], RequiredFields)
  }

  /** On a `dict`, the fields are searched in order and the first one absent is named. */
  lemma {:induction false} CheckFieldsObject(m: map<string, Json>, fields: seq<string>)
    ensures var r := CheckFields(JObject(m), fields);
            (r.0 <==> forall k :: 0 <= k < |fields| ==> fields[k] in m)
            && (r.0 ==> r.1 == ValidStructure)
            && (!r.0 ==> exists k :: 0 <= k < |fields| && fields[k] !in m && r.1 == MissingField(fields[k])
                                     && forall j :: 0 <= j < k ==> fields[j] in m)
  {
    if |fields| > 0 && fields[0] in m {
      CheckFieldsObject(m, fields[1..]);
      var r := CheckFields(JObject(m), fields);
      if !r.0 {
        var k :| 0 <= k < |fields| - 1 && fields[1..][k] !in m && r.1 == MissingField(fields[1..][k])
                 && forall j :: 0 <= j < k ==> fields[1..][j] in m;
        assert fields[k + 1] !in m;
        assert forall j :: 1 <= j < k + 1 ==> fields[j] == fields[1..][j - 1];
      } else {
        assert forall k :: 1 <= k < |fields| ==> fields[k] == fields[1..][k - 1];
      }
    }
  }

  /**
   * The verdict on an array of records: valid exactly when the first record
   * holds every required field; otherwise the first field missing, in the
   * order date, name, state, amount, is reported.
   */
  lemma ValidationOfRecords(first: map<string, Json>, rest: seq<Json>)
    ensures var r := ValidateJsonStructure(JArray([JObject(first)] + rest));
            (r.0 <==> DateColumn in first && NameColumn in first && StateColumn in first && AmountColumn in first)
            && (r.0 ==> r.1 == ValidStructure)
            && (DateColumn !in first ==> r.1 == MissingField(DateColumn))
            && (DateColumn in first && NameColumn !in first ==> r.1 == MissingField(NameColumn))
            && (DateColumn in first && NameColumn in first && StateColumn !in first ==> r.1 == MissingField(StateColumn))
            && (DateColumn in first && NameColumn in first && StateColumn in first && AmountColumn !in first
                ==> r.1 == MissingField(AmountColumn))
  {
    CheckFieldsObject(first, RequiredFields);
    assert RequiredFields[0] == DateColumn && RequiredFields[1] == NameColumn;
    assert RequiredFields[2] == StateColumn && RequiredFields[3] == AmountColumn;
  }

  /** Only the first element is inspected: the rest of the array never changes the verdict. */
  lemma OnlyFirstRecord(first: Json, rest1: seq<Json>, rest2: seq<Json>)
    ensures ValidateJsonStructure(JArray([first] + rest1)) == ValidateJsonStructure(JArray([first] + rest2))
  {
  }
}
