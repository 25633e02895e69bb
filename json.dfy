/**
 * An abstract JSON value: what encoding/json hands to a decoder after the
 * text has been checked to be well-formed JSON. Number literals are split in
 * two because the Go decoder treats them differently depending on their text:
 * an integer literal (no fraction, no exponent) can be stored into an int64,
 * any other number literal cannot.
 */
module JsonValue {

  datatype Json =
    | Null
    | Bool(b: bool)
    | IntNum(i: int)        // a number literal without fraction or exponent
    | RealNum(r: real)      // any other number literal
    | Str(s: string)
    | Arr(items: seq<Json>)
    | Obj(fields: map<string, Json>)

  /** The JSON encoding of a Go []string that is not nil. */
  function StrList(ss: seq<string>): (j: Json)
    ensures j.Arr? && |j.items| == |ss|
    ensures forall i :: 0 <= i < |ss| ==> j.items[i] == Str(ss[i])
  {
    Arr(seq(|ss|, i requires 0 <= i < |ss| => Str(ss[i])))
  }
}
