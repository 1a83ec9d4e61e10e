/**
 * Decoding of the created_at field: a JSON string holding either an integer timestamp, whose
 * digit count says its unit, or a date the date parser understands.
 */
module VCarbon {
  import opened Wrappers
  import StrUtils

  datatype TimestampUnit = Seconds | Milliseconds | Microseconds | Nanoseconds

  /** The instant the date parser produces. */
  datatype Instant = Instant(unixNanos: int)

  /** The error the date parser reports. */
  datatype ParseError = ParseError(message: string)

  /** The value stored into the receiver: built from a timestamp, or the date parser's outcome. */
  datatype Carbon =
    | FromTimestamp(unit: TimestampUnit, value: int)
    | Parsed(input: string, outcome: Result<Instant, ParseError>)

  /** InvalidCarbonParseParameterError: the rejected input, a message and the parser's error, if any. */
  datatype InvalidCarbonParseParameterError =
    InvalidCarbonParseParameterError(parameter: string, msg: string, innerError: Option<ParseError>)

  /** What UnmarshalJSON can return: the JSON decoder's own error, or an InvalidCarbonParseParameterError. */
  datatype UnmarshalError =
    | JsonError(message: string)
    | InvalidParameter(e: InvalidCarbonParseParameterError)

  /** The receiver after the call (None: left untouched) and the error returned. */
  datatype Unmarshalled = Unmarshalled(stored: Option<Carbon>, err: Option<UnmarshalError>)

  const ErrorPrefix: string := "invalid carbon parse parameter: "
  const InvalidLengthMsg: string := "invalid timestamp length"

  /** Error(): "invalid carbon parse parameter: <Parameter>, <Msg>". */
  function Error(e: InvalidCarbonParseParameterError): (s: string)
    ensures |s| == |ErrorPrefix| + |e.parameter| + 2 + |e.msg|
    ensures s[..|ErrorPrefix|] == ErrorPrefix
    ensures s[|ErrorPrefix|..|ErrorPrefix| + |e.parameter|] == e.parameter
    ensures s[|s| - |e.msg|..] == e.msg
  {
    ErrorPrefix + e.parameter + ", " + e.msg
  }

  /** Unwrap(): the date parser's error; nil for a timestamp of the wrong length. */
  function Unwrap(e: InvalidCarbonParseParameterError): (inner: Option<ParseError>)
    ensures e.msg == InvalidLengthMsg && e.innerError.None? ==> inner.None?
    ensures inner == e.innerError
  {
    e.innerError
  }

  /** The unit an integer string of a given length is read in, counting a sign as a character. */
  function UnitForLength(length: nat): (u: Option<TimestampUnit>)
    ensures u.Some? <==> length in {10, 13, 16, 19}
  {
    if length == 10 then Some(Seconds)
    else if length == 13 then Some(Milliseconds)
    else if length == 16 then Some(Microseconds)
    else if length == 19 then Some(Nanoseconds)
    else None
  }

  /**
   * UnmarshalJSON: decode the JSON string, then read an integer by its length, or hand anything
   * else to the date parser. `decode` is the JSON decoder, `parse` the date parser.
   */
  function UnmarshalJSON(data: seq<bv8>, decode: seq<bv8> -> Result<string, string>,
                         parse: string -> Result<Instant, ParseError>): (r: Unmarshalled)
    // not a JSON string: the decoder's error, receiver untouched
    ensures decode(data).Err? ==> r == Unmarshalled(None, Some(JsonError(decode(data).error)))
    // an integer of a known length: a timestamp in that unit, with the integer's value
    ensures decode(data).Ok? && StrUtils.IsInteger(decode(data).value) && UnitForLength(|decode(data).value|).Some? ==>
      var str := decode(data).value;
      r.err.None? && r.stored == Some(FromTimestamp(UnitForLength(|str|).value, StrUtils.DecimalValue(str)))
    // an integer of any other length: rejected, receiver untouched
    ensures decode(data).Ok? && StrUtils.IsInteger(decode(data).value) && UnitForLength(|decode(data).value|).None? ==>
      r == Unmarshalled(None, Some(InvalidParameter(
             InvalidCarbonParseParameterError(decode(data).value, InvalidLengthMsg, None))))
    // anything else goes to the date parser, whose result is stored even when it failed
    ensures decode(data).Ok? && !StrUtils.IsInteger(decode(data).value) ==>
      var str := decode(data).value;
      r.stored == Some(Parsed(str, parse(str))) &&
      (r.err.None? <==> parse(str).Ok?) &&
      (parse(str).Err? ==> r.err == Some(InvalidParameter(
             InvalidCarbonParseParameterError(str, parse(str).error.message, Some(parse(str).error)))))
  {
    match decode(data)
    case Err(e) => Unmarshalled(None, Some(JsonError(e)))
    case Ok(str) =>
      if StrUtils.IsInteger(str) then
        match UnitForLength(|str|)
        case Some(unit) =>
          StrUtils.IsIntegerMustInt64(str);
          Unmarshalled(Some(FromTimestamp(unit, StrUtils.MustInt64(str).value)), None)
        case None =>
          Unmarshalled(None, Some(InvalidParameter(InvalidCarbonParseParameterError(str, InvalidLengthMsg, None))))
      else
        var p := Parsed(str, parse(str));
        match parse(str)
        case Ok(_) => Unmarshalled(Some(p), None)
        case Err(pe) => Unmarshalled(Some(p), Some(InvalidParameter(InvalidCarbonParseParameterError(str, pe.message, Some(pe)))))
  }

  /** The legacy epoch-seconds string of the message tests decodes to a seconds timestamp. */
  lemma EpochSecondsExample(data: seq<bv8>, decode: seq<bv8> -> Result<string, string>,
                            parse: string -> Result<Instant, ParseError>)
    requires decode(data) == Ok("1696347595")
    ensures UnmarshalJSON(data, decode, parse) == Unmarshalled(Some(FromTimestamp(Seconds, 1696347595)), None)
  {
    assert StrUtils.FormatInt(1696347595) == "1696347595";
    StrUtils.AtoiFormatInt(1696347595);
  }

  /** A string the date parser rejects, such as "WWWWW" in the message tests, yields InvalidCarbonParseParameterError. */
  lemma UnparsableExample(data: seq<bv8>, decode: seq<bv8> -> Result<string, string>,
                          parse: string -> Result<Instant, ParseError>)
    requires decode(data) == Ok("WWWWW") && parse("WWWWW").Err?
    ensures UnmarshalJSON(data, decode, parse).err.Some?
    ensures UnmarshalJSON(data, decode, parse).err.value.InvalidParameter?
    ensures Unwrap(UnmarshalJSON(data, decode, parse).err.value.e) == Some(parse("WWWWW").error)
  {
    assert !StrUtils.DecimalSyntax("WWWWW") by {
      assert !StrUtils.IsDigit("WWWWW"[0]);
    }
  }

  /** A sign counts towards the length: "-123456789" has nine digits yet is read in seconds. */
  lemma SignedLengthExample(data: seq<bv8>, decode: seq<bv8> -> Result<string, string>,
                            parse: string -> Result<Instant, ParseError>)
    requires decode(data) == Ok("-123456789")
    ensures UnmarshalJSON(data, decode, parse) == Unmarshalled(Some(FromTimestamp(Seconds, -123456789)), None)
  {
    assert StrUtils.FormatInt(-123456789) == "-123456789";
    StrUtils.AtoiFormatInt(-123456789);
  }
}
