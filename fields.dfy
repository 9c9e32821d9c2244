/**
 * The tolerant field decoders of cmd/bright-mqtt-exporter/types.go:
 * `parseJSONString` and the `UnmarshalJSON` methods of `BrightFloat64` and
 * `BrightTime`. `strconv.ParseFloat` and `time.Parse` are parameters
 * returning `None` on error.
 */
module Fields {
  import opened Wrappers
  import opened Payload

  /** The byte `"`. */
  const QUOTE: byte := 34

  /** `brightTimeFormat`, the one layout `BrightTime` tries. */
  const BRIGHT_TIME_FORMAT: string := "2006-01-02T03:04:05 +00"

  /** A point in time as `time.Parse` returns it, in nanoseconds since an epoch. */
  type Time = int

  /** Why `UnmarshalJSON` fails: the slice `s[1:len(s)-1]` panics, or the parser rejects the text. */
  datatype UnmarshalError = SliceOutOfRange | ParseFailed

  /** `x` between double quotes: the JSON string whose raw text is `x`. */
  function Quoted(x: Bytes): Bytes
  {
    [QUOTE] + x + [QUOTE]
  }

  /**
   * `parseJSONString`: drop the first and the last byte. Go panics when
   * fewer than two bytes are given; that is `None` here.
   */
  function ParseJSONString(data: Bytes): (r: Option<Bytes>)
    ensures r.Some? <==> |data| >= 2
    ensures r.Some? ==> |r.value| == |data| - 2
    ensures r.Some? ==> forall i :: 0 <= i < |r.value| ==> r.value[i] == data[i + 1]
  {
    if |data| < 2 then None else Some(data[1..|data| - 1])
  }

  /** The quotes of a JSON string are removed and nothing else. */
  lemma UnquotesQuoted(x: Bytes)
    ensures ParseJSONString(Quoted(x)) == Some(x)
  {
    StripsEnds(QUOTE, x, QUOTE);
  }

  /** Whatever the first and last byte are, they are what is dropped. */
  lemma StripsEnds(first: byte, x: Bytes, last: byte)
    ensures ParseJSONString([first] + x + [last]) == Some(x)
  {
    var data := [first] + x + [last];
    assert data[1..|data| - 1] == x;
  }

  /** What `BrightFloat64.UnmarshalJSON` stores, or the error it returns. */
  function UnmarshalFloat(data: Bytes, parseFloat: Bytes -> Option<Float64>): (r: Result<Float64, UnmarshalError>)
    ensures |data| < 2 <==> r == Failure(SliceOutOfRange)
    ensures r.Success? <==> |data| >= 2 && parseFloat(data[1..|data| - 1]).Some?
    ensures r.Success? ==> r.value == parseFloat(data[1..|data| - 1]).value
  {
    match ParseJSONString(data)
    case None => Failure(SliceOutOfRange)
    case Some(text) =>
      match parseFloat(text)
      case None => Failure(ParseFailed)
      case Some(v) => Success(v)
  }

  /** What `BrightTime.UnmarshalJSON` stores, or the error it returns. */
  function UnmarshalTime(data: Bytes, parseTime: (string, Bytes) -> Option<Time>): (r: Result<Time, UnmarshalError>)
    ensures |data| < 2 <==> r == Failure(SliceOutOfRange)
    ensures r.Success? <==> |data| >= 2 && parseTime(BRIGHT_TIME_FORMAT, data[1..|data| - 1]).Some?
    ensures r.Success? ==> r.value == parseTime(BRIGHT_TIME_FORMAT, data[1..|data| - 1]).value
  {
    match ParseJSONString(data)
    case None => Failure(SliceOutOfRange)
    case Some(text) =>
      match parseTime(BRIGHT_TIME_FORMAT, text)
      case None => Failure(ParseFailed)
      case Some(t) => Success(t)
  }

  /** `BrightFloat64`: a float64 decoded through a pointer receiver. */
  class BrightFloat64 {
    var value: Float64

    constructor (v: Float64)
      ensures value == v
    {
      value := v;
    }

    /** `UnmarshalJSON`: `*b` is written only when parsing succeeds. */
    method UnmarshalJSON(data: Bytes, parseFloat: Bytes -> Option<Float64>) returns (err: Option<UnmarshalError>)
      modifies this
      ensures UnmarshalFloat(data, parseFloat).Success? ==>
        err == None && value == UnmarshalFloat(data, parseFloat).value
      ensures UnmarshalFloat(data, parseFloat).Failure? ==>
        err == Some(UnmarshalFloat(data, parseFloat).error) && value == old(value)
    {
      var text := ParseJSONString(data);
      if text.None? {
        return Some(SliceOutOfRange);
      }
      var i := parseFloat(text.value);
      if i.None? {
        return Some(ParseFailed);
      }
      value := i.value;
      return None;
    }
  }

  /** `BrightTime`: a timestamp decoded through a pointer receiver. */
  class BrightTime {
    var value: Time

    constructor (t: Time)
      ensures value == t
    {
      value := t;
    }

    /** `UnmarshalJSON`: `*t` is written only when the single layout parses. */
    method UnmarshalJSON(data: Bytes, parseTime: (string, Bytes) -> Option<Time>) returns (err: Option<UnmarshalError>)
      modifies this
      ensures UnmarshalTime(data, parseTime).Success? ==>
        err == None && value == UnmarshalTime(data, parseTime).value
      ensures UnmarshalTime(data, parseTime).Failure? ==>
        err == Some(UnmarshalTime(data, parseTime).error) && value == old(value)
    {
      var text := ParseJSONString(data);
      if text.None? {
        return Some(SliceOutOfRange);
      }
      var parsedTime := parseTime(BRIGHT_TIME_FORMAT, text.value);
      if parsedTime.None? {
        return Some(ParseFailed);
      }
      value := parsedTime.value;
      return None;
    }
  }

  // Unquoted numbers, as written: the raw text of the JSON number 0.481 is
  // the five bytes "0.481"; `parseJSONString` hands ".48" to the parser,
  // while the JSON string "0.481" yields "0.481".

  /** The raw JSON text `0.481`. */
  const NUMBER_TEXT: Bytes := [48, 46, 52, 56, 49]

  lemma UnquotedNumberTruncated(parseFloat: Bytes -> Option<Float64>)
    ensures ParseJSONString(NUMBER_TEXT) == Some([46, 52, 56])
    ensures ParseJSONString(Quoted(NUMBER_TEXT)) == Some(NUMBER_TEXT)
    ensures UnmarshalFloat(NUMBER_TEXT, parseFloat) == UnmarshalFloat(Quoted([46, 52, 56]), parseFloat)
  {
    assert NUMBER_TEXT == [48] + [46, 52, 56] + [49];
    StripsEnds(48, [46, 52, 56], 49);
    UnquotesQuoted(NUMBER_TEXT);
    UnquotesQuoted([46, 52, 56]);
  }

  /** A one-digit JSON number such as `5` makes the slice panic. */
  lemma SingleDigitOutOfRange(parseFloat: Bytes -> Option<Float64>)
    ensures UnmarshalFloat([53], parseFloat) == Failure(SliceOutOfRange)
  {
  }

  // Corrected: strip the quotes of a JSON string only, and pass the raw
  // text of a JSON number to the parser unchanged.

  /** The text a scalar JSON value carries: a string's contents, or a number's own text. */
  function ScalarText(data: Bytes): (r: Bytes)
    ensures |data| >= 2 && data[0] == QUOTE && data[|data| - 1] == QUOTE ==> Quoted(r) == data
    ensures !(|data| >= 2 && data[0] == QUOTE && data[|data| - 1] == QUOTE) ==> r == data
  {
    if |data| >= 2 && data[0] == QUOTE && data[|data| - 1] == QUOTE then data[1..|data| - 1] else data
  }

  /** `BrightFloat64.UnmarshalJSON` as evidently intended: numbers and quoted numbers alike. */
  function UnmarshalFloatTolerant(data: Bytes, parseFloat: Bytes -> Option<Float64>): (r: Result<Float64, UnmarshalError>)
    ensures r.Success? <==> parseFloat(ScalarText(data)).Some?
    ensures r.Success? ==> r.value == parseFloat(ScalarText(data)).value
    ensures r.Failure? ==> r.error == ParseFailed
  {
    match parseFloat(ScalarText(data))
    case None => Failure(ParseFailed)
    case Some(v) => Success(v)
  }

  /** A number decodes to the same value whether sent as a JSON number or as a JSON string. */
  lemma {:induction false} NumberAndStringAgree(x: Bytes, parseFloat: Bytes -> Option<Float64>)
    requires QUOTE !in x
    ensures UnmarshalFloatTolerant(Quoted(x), parseFloat) == UnmarshalFloatTolerant(x, parseFloat)
    ensures UnmarshalFloatTolerant(x, parseFloat) == (match parseFloat(x) case None => Failure(ParseFailed) case Some(v) => Success(v))
  {
    var q := Quoted(x);
    assert q[0] == QUOTE && q[|q| - 1] == QUOTE;
    assert q[1..|q| - 1] == x;
    assert |x| >= 2 ==> x[0] != QUOTE;
  }
}
