/**
 * The lenient JSON adapters of pkg/types: values the upstream API sends in
 * more than one shape. Each decoder takes the JSON value that encoding/json
 * hands to `UnmarshalJSON`; each encoder gives what `MarshalJSON` emits.
 */
module Types {
  import opened Wrappers
  import opened JsonValue

  newtype int64 = x: int | -0x8000_0000_0000_0000 <= x < 0x8000_0000_0000_0000

  /** The only error a decoder here can report: the value has the wrong JSON shape. */
  datatype DecodeError = TypeMismatch

  // ---------------------------------------------------------------- ParseBool

  /** The spellings `strconv.ParseBool` reads as true. */
  const TrueSpellings: set<string> := {"1", "t", "T", "TRUE", "true", "True"}

  /** The spellings `strconv.ParseBool` reads as false. */
  const FalseSpellings: set<string> := {"0", "f", "F", "FALSE", "false", "False"}

  /** `strconv.ParseBool`: a fixed table of twelve spellings, an error otherwise. */
  function ParseBool(s: string): (r: Option<bool>)
    ensures r == Some(true) <==> s in TrueSpellings
    ensures r == Some(false) <==> s in FalseSpellings
    ensures r == None <==> s !in TrueSpellings + FalseSpellings
  {
    if s in TrueSpellings then Some(true)
    else if s in FalseSpellings then Some(false)
    else None
  }

  // ---------------------------------------------------------------- NumericBool

  /** A flag the API sends as a boolean, as 0/1, or as a string. */
  datatype NumericBool = NumericBool(value: bool)
  {
    /** The plain boolean; written as a JSON bool it decodes back to this value. */
    function Bool(): (b: bool)
      ensures DecodeNumericBool(JsonValue.Bool(b)) == Success(this)
    {
      value
    }
  }

  /**
   * `NumericBool.UnmarshalJSON`. Every branch overwrites the receiver, so the
   * decoded value is a function of the input alone. Generic decoding gives a
   * float64 for every JSON number, so the `int` case of the type switch is
   * never taken and both kinds of number literal go through the zero test.
   */
  function DecodeNumericBool(data: Json): (r: Result<NumericBool, DecodeError>)
    ensures r.Success?
    ensures data.Bool? ==> r.value.value == data.b
    ensures data.IntNum? ==> (r.value.value <==> data.i != 0)
    ensures data.RealNum? ==> (r.value.value <==> data.r != 0.0)
    ensures data.Str? ==> (r.value.value <==> data.s in TrueSpellings)
    ensures data.Null? || data.Arr? || data.Obj? ==> !r.value.value
  {
    match data
    case Bool(b) => Success(NumericBool(b))
    case IntNum(i) => Success(NumericBool(i != 0))
    case RealNum(x) => Success(NumericBool(x != 0.0))
    case Str(s) =>
      var parsed := match ParseBool(s) case Some(p) => p case None => false;
      Success(NumericBool(parsed))
    case _ => Success(NumericBool(false))
  }

  /** `NumericBool.MarshalJSON`: always a canonical JSON boolean, read back unchanged. */
  function EncodeNumericBool(b: NumericBool): (j: Json)
    ensures j.Bool?
    ensures DecodeNumericBool(j) == Success(b)
  {
    Bool(b.Bool())
  }

  // ---------------------------------------------------------------- FlexibleString

  /** A string the API sends either bare or as (the first element of) an array. */
  datatype FlexibleString = FlexibleString(value: string)
  {
    /** The plain string; written as a JSON string it decodes back to this value. */
    function String(): (s: string)
      ensures DecodeFlexibleString(Str(s)) == Success(this)
    {
      value
    }
  }

  /**
   * Whether a JSON value decodes into a Go `string` without error: a string,
   * or `null`, which encoding/json accepts and leaves the string empty.
   */
  predicate StringLike(j: Json)
  {
    j.Str? || j.Null?
  }

  /** The Go string a `StringLike` value decodes into. */
  function AsGoString(j: Json): string
  {
    if j.Str? then j.s else ""
  }

  /** Whether a JSON value decodes into a Go `[]string` without error. */
  predicate StringArray(j: Json)
  {
    j.Arr? && forall k :: 0 <= k < |j.items| ==> StringLike(j.items[k])
  }

  /**
   * `FlexibleString.UnmarshalJSON`: first tried as a string, then as an array
   * of strings (first element, or "" when empty), and "" for anything else.
   * It never reports an error.
   */
  function DecodeFlexibleString(data: Json): (r: Result<FlexibleString, DecodeError>)
    ensures r.Success?
    ensures data.Str? ==> r.value.value == data.s
    ensures StringArray(data) && |data.items| > 0 ==> r.value.value == AsGoString(data.items[0])
    ensures StringArray(data) && |data.items| == 0 ==> r.value.value == ""
    ensures !data.Str? && !StringArray(data) ==> r.value.value == ""
  {
    if StringLike(data) then
      Success(FlexibleString(AsGoString(data)))
    else if StringArray(data) then
      if |data.items| > 0 then Success(FlexibleString(AsGoString(data.items[0])))
      else Success(FlexibleString(""))
    else
      Success(FlexibleString(""))
  }

  /** `FlexibleString.MarshalJSON`: a plain JSON string, read back unchanged. */
  function EncodeFlexibleString(f: FlexibleString): (j: Json)
    ensures j.Str?
    ensures DecodeFlexibleString(j) == Success(f)
  {
    Str(f.String())
  }

  // ---------------------------------------------------------------- NullableInt

  /** Whether a JSON value is stored into a Go int64 by encoding/json. */
  predicate FitsInt64(j: Json)
  {
    j.IntNum? && -0x8000_0000_0000_0000 <= j.i < 0x8000_0000_0000_0000
  }

  /** An integer field the API may send as `null`. */
  class NullableInt {
    var Value: int64
    var Valid: bool

    /** The Go zero value. */
    constructor ()
      ensures Value == 0 && !Valid
    {
      Value, Valid := 0, false;
    }

    /**
     * `NullableInt.UnmarshalJSON`: the literal `null` clears Valid and leaves
     * Value as it was; anything else sets Valid first, then decodes Value,
     * which on a type error keeps its old contents and the error is returned.
     */
    method UnmarshalJSON(data: Json) returns (err: Option<DecodeError>)
      modifies this
      ensures Valid <==> !data.Null?
      ensures FitsInt64(data) ==> Value == data.i as int64 && err == None
      ensures !FitsInt64(data) ==> Value == old(Value)
      ensures err == None <==> data.Null? || FitsInt64(data)
    {
      if data.Null? {
        Valid := false;
        return None;
      }
      Valid := true;
      if FitsInt64(data) {
        Value := data.i as int64;
        err := None;
      } else {
        err := Some(TypeMismatch);
      }
    }

    /** `NullableInt.MarshalJSON`: `null` exactly when not Valid. */
    function MarshalJSON(): (j: Json)
      reads this
      ensures j.Null? <==> !Valid
      ensures Valid ==> j == IntNum(Value as int) && FitsInt64(j)
    {
      if !Valid then Null else IntNum(Value as int)
    }
  }

  /**
   * Encoding one NullableInt and decoding the text into another carries
   * Valid over, and Value too when Valid; with Valid false the target's
   * Value is left as it was.
   */
  method NullableIntRoundTrip(src: NullableInt, dst: NullableInt) returns (err: Option<DecodeError>)
    modifies dst
    ensures err == None
    ensures dst.Valid == old(src.Valid)
    ensures old(src.Valid) ==> dst.Value == old(src.Value)
    ensures !old(src.Valid) ==> dst.Value == old(dst.Value)
  {
    var j := src.MarshalJSON();
    err := dst.UnmarshalJSON(j);
  }

  // ---------------------------------------------------------------- NullableString

  /** A string field the API may send as `null`. */
  class NullableString {
    var Value: string
    var Valid: bool

    /** The Go zero value. */
    constructor ()
      ensures Value == "" && !Valid
    {
      Value, Valid := "", false;
    }

    /**
     * `NullableString.UnmarshalJSON`: as for NullableInt. Only a JSON string
     * changes Value (a `null` never reaches the inner decode).
     */
    method UnmarshalJSON(data: Json) returns (err: Option<DecodeError>)
      modifies this
      ensures Valid <==> !data.Null?
      ensures data.Str? ==> Value == data.s && err == None
      ensures !data.Str? ==> Value == old(Value)
      ensures err == None <==> data.Null? || data.Str?
    {
      if data.Null? {
        Valid := false;
        return None;
      }
      Valid := true;
      if data.Str? {
        Value := data.s;
        err := None;
      } else {
        err := Some(TypeMismatch);
      }
    }

    /** `NullableString.MarshalJSON`: `null` exactly when not Valid. */
    function MarshalJSON(): (j: Json)
      reads this
      ensures j.Null? <==> !Valid
      ensures Valid ==> j == Str(Value)
    {
      if !Valid then Null else Str(Value)
    }
  }

  /** The NullableString counterpart of NullableIntRoundTrip. */
  method NullableStringRoundTrip(src: NullableString, dst: NullableString) returns (err: Option<DecodeError>)
    modifies dst
    ensures err == None
    ensures dst.Valid == old(src.Valid)
    ensures old(src.Valid) ==> dst.Value == old(src.Value)
    ensures !old(src.Valid) ==> dst.Value == old(dst.Value)
  {
    var j := src.MarshalJSON();
    err := dst.UnmarshalJSON(j);
  }
}
