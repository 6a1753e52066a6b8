/** The decoded JSON values the controllers read, and PHP's empty() test on them. */
module Php {

  /** A scalar as json_decode produces it (floats and nested arrays are not modelled). */
  datatype Value = Null | Bool(b: bool) | Int(i: int) | Str(s: string)

  /** PHP's empty(): true of null, false, 0, "" and "0". */
  predicate IsEmpty(v: Value)
  {
    match v
    case Null => true
    case Bool(b) => !b
    case Int(i) => i == 0
    case Str(s) => s == "" || s == "0"
  }

  /** A decoded request body: field name to value. */
  type Payload = map<string, Value>

  /** $data[key]: a missing key reads as null. */
  function Field(payload: Payload, key: string): Value
  {
    if key in payload then payload[key] else Null
  }

  /** empty() holds of exactly five values; a non-zero number, true, and any other string,
      including "00" and " ", are not empty. */
  lemma EmptyValues(v: Value)
    ensures IsEmpty(v) <==> v in [Null, Bool(false), Int(0), Str(""), Str("0")]
    ensures !IsEmpty(Str("00")) && !IsEmpty(Str(" ")) && !IsEmpty(Int(-1))
  {
    assert "00" != "" && "00" != "0";
    assert " " != "" && " " != "0";
  }
}
