/** The two custom JSON converters of the library: the polymorphic token
    normaliser of src/Taxjar/TaxJarPolymorphicNumberJsonConverter.cs and the
    date filter converter of src/Taxjar/TaxjarDateTimeFilterJsonConverter.cs.

    The JSON reader and writer are not modelled; a converter sees one token and
    produces one value, or takes one value and produces one token. */
module JsonConverters {
  import opened Wrappers
  import opened Entities

  /** The kind of token the reader is positioned on, with the text a number or
      a string carries. `StructureToken` stands for the start or end of an
      object or an array. */
  datatype JsonToken =
    | FalseToken
    | TrueToken
    | NumberToken(rawText: string)
    | StringToken(text: string)
    | NullToken
    | StructureToken

  /** `Utf8JsonReader.GetString`: the value of a string token, null for a null
      token; on any other token the reader throws. */
  function GetString(t: JsonToken): (r: Result<Option<string>, Error>)
    ensures r.Success? <==> t.StringToken? || t.NullToken?
    ensures t.StringToken? ==> r == Success(Some(t.text))
    ensures t.NullToken? ==> r == Success(None)
  {
    match t
    case StringToken(text) => Success(Some(text))
    case NullToken => Success(None)
    case _ => Failure(InvalidTokenError)
  }

  // ---------------------------------------------------------------------
  // The polymorphic number converter

  /** `TaxjarPolymorphicNumberJsonConverter.Read`: booleans become their JSON
      spelling, a number keeps its source text, and anything else is read as a string. */
  function ReadPolymorphic(t: JsonToken): (r: Result<Option<string>, Error>)
    ensures r.Failure? <==> t.StructureToken?
  {
    match t
    case FalseToken => Success(Some("false"))
    case TrueToken => Success(Some("true"))
    case NumberToken(rawText) => Success(Some(rawText))
    case _ => GetString(t)
  }

  /** `TaxjarPolymorphicNumberJsonConverter.Write`: `WriteStringValue` of the
      value, which writes a JSON null for a null value. */
  function WritePolymorphic(value: Option<string>): (t: JsonToken)
    ensures t.StringToken? || t.NullToken?
    ensures t.NullToken? <==> value.None?
  {
    match value
    case Some(s) => StringToken(s)
    case None => NullToken
  }

  /** Whatever the converter reads, it reads as a string or null; every value
      the token carries survives unchanged. */
  lemma ReadPolymorphicValues(t: JsonToken)
    ensures t == FalseToken ==> ReadPolymorphic(t) == Success(Some("false"))
    ensures t == TrueToken ==> ReadPolymorphic(t) == Success(Some("true"))
    ensures t.NumberToken? ==> ReadPolymorphic(t) == Success(Some(t.rawText))
    ensures t.StringToken? ==> ReadPolymorphic(t) == Success(Some(t.text))
    ensures t.NullToken? ==> ReadPolymorphic(t) == Success(None)
  {
  }

  /** Writing a value and reading it back yields the same value. */
  lemma PolymorphicRoundTrip(value: Option<string>)
    ensures ReadPolymorphic(WritePolymorphic(value)) == Success(value)
  {
  }

  /** An error status sent as the number 401 or as the string "401" reads as "401". */
  lemma StatusCodeEitherForm()
    ensures ReadPolymorphic(NumberToken("401")) == Success(Some("401"))
    ensures ReadPolymorphic(StringToken("401")) == Success(Some("401"))
  {
  }

  /** Reading is one-to-one on the number and string tokens: two tokens of those
      kinds read the same exactly when they carry the same text. */
  lemma ReadPolymorphicText(a: JsonToken, b: JsonToken)
    requires a.NumberToken? || a.StringToken?
    requires b.NumberToken? || b.StringToken?
    ensures ReadPolymorphic(a) == ReadPolymorphic(b) <==>
      (if a.NumberToken? then a.rawText else a.text) == (if b.NumberToken? then b.rawText else b.text)
  {
  }

  // ---------------------------------------------------------------------
  // Decimal digits

  function Pow10(n: nat): (p: nat)
    ensures p >= 1
  {
    if n == 0 then 1 else 10 * Pow10(n - 1)
  }

  predicate IsDigit(c: char) {
    '0' as int <= c as int <= '9' as int
  }

  function DigitChar(k: int): (c: char)
    requires 0 <= k < 10
    ensures IsDigit(c) && c as int - '0' as int == k
  {
    ('0' as int + k) as char
  }

  /** The lowest `width` decimal digits of `n`, padded with zeros on the left:
      the custom format specifiers `yyyy`, `MM` and `dd` for values that fit. */
  function PadDigits(n: nat, width: nat): (s: string)
    ensures |s| == width
    ensures forall i :: 0 <= i < |s| ==> IsDigit(s[i])
  {
    if width == 0 then "" else PadDigits(n / 10, width - 1) + [DigitChar(n % 10)]
  }

  /** The number a string of decimal digits denotes. */
  function DigitsValue(s: string): nat
    requires forall i :: 0 <= i < |s| ==> IsDigit(s[i])
  {
    if |s| == 0 then 0
    else
      assert IsDigit(s[|s| - 1]);
      DigitsValue(s[..|s| - 1]) * 10 + (s[|s| - 1] as int - '0' as int)
  }

  /** Reading the padded digits back gives the number, when it fits in the width. */
  lemma {:induction false} DigitsRoundTrip(n: nat, width: nat)
    requires n < Pow10(width)
    ensures DigitsValue(PadDigits(n, width)) == n
  {
    if width > 0 {
      var s := PadDigits(n, width);
      assert s[..|s| - 1] == PadDigits(n / 10, width - 1);
      DigitsRoundTrip(n / 10, width - 1);
    }
  }

  // ---------------------------------------------------------------------
  // The date filter converter

  /** `value.ToString("yyyy/MM/dd")`: the calendar day, without the time of day. */
  function FormatDate(d: DateTime): (s: string)
    ensures |s| == 10 && s[4] == '/' && s[7] == '/'
    ensures forall i :: 0 <= i < 10 && i != 4 && i != 7 ==> IsDigit(s[i])
  {
    PadDigits(d.year, 4) + "/" + PadDigits(d.month, 2) + "/" + PadDigits(d.day, 2)
  }

  /** The year, month and day can be read back from the written text. */
  lemma FormatDateFields(d: DateTime)
    ensures DigitsValue(FormatDate(d)[..4]) == d.year
    ensures DigitsValue(FormatDate(d)[5..7]) == d.month
    ensures DigitsValue(FormatDate(d)[8..10]) == d.day
  {
    var s := FormatDate(d);
    assert s[..4] == PadDigits(d.year, 4);
    assert s[5..7] == PadDigits(d.month, 2);
    assert s[8..10] == PadDigits(d.day, 2);
    DigitsRoundTrip(d.year, 4);
    DigitsRoundTrip(d.month, 2);
    DigitsRoundTrip(d.day, 2);
  }

  /** Two dates write the same text exactly when they fall on the same calendar day. */
  lemma FormatDateSameDay(a: DateTime, b: DateTime)
    ensures FormatDate(a) == FormatDate(b) <==> a.year == b.year && a.month == b.month && a.day == b.day
  {
    if FormatDate(a) == FormatDate(b) {
      FormatDateFields(a);
      FormatDateFields(b);
    }
  }

  /** `TaxjarDateTimeFilterJsonConverter.Write`: the `yyyy/MM/dd` text of a
      present date, and a JSON null for an absent one. */
  function WriteDateFilter(value: Option<DateTime>): (t: JsonToken)
    ensures value.None? <==> t == NullToken
    ensures value.Some? ==> t.StringToken? && |t.text| == 10
  {
    match value
    case Some(d) => StringToken(FormatDate(d))
    case None => NullToken
  }

  /** `TaxjarDateTimeFilterJsonConverter.Read`. A null or empty string is an
      absent date; any other string goes to `DateTime.Parse`, given here as
      `parse`, which yields no date where the real one throws a format error. */
  function ReadDateFilter(t: JsonToken, parse: string -> Option<DateTime>): (r: Result<Option<DateTime>, Error>)
    ensures r == Success(None) <==> t == NullToken || t == StringToken("")
    ensures t.StringToken? && t.text != "" ==>
      r == (if parse(t.text).Some? then Success(Some(parse(t.text).value)) else Failure(FormatError(t.text)))
    ensures !(t.StringToken? || t.NullToken?) ==> r == Failure(InvalidTokenError)
  {
    match GetString(t)
    case Failure(e) => Failure(e)
    case Success(s) =>
      if s.None? || s.value == "" then Success(None)
      else
        match parse(s.value)
        case Some(d) => Success(Some(d))
        case None => Failure(FormatError(s.value))
  }

  /** The date at midnight of the same day. */
  function StartOfDay(d: DateTime): DateTime {
    CalendarTime(d.year, d.month, d.day, 0)
  }

  /** The time of day is dropped: two dates on the same day write the same token. */
  lemma WriteDateFilterDropsTime(a: DateTime, b: DateTime)
    requires a.year == b.year && a.month == b.month && a.day == b.day
    ensures WriteDateFilter(Some(a)) == WriteDateFilter(Some(b))
  {
  }

  /** Reading back a written date, with a parse that reads `yyyy/MM/dd` as it is
      meant, yields the same day at midnight; an absent date stays absent. */
  lemma DateFilterRoundTrip(value: Option<DateTime>, parse: string -> Option<DateTime>)
    requires value.Some? ==> parse(FormatDate(value.value)) == Some(StartOfDay(value.value))
    ensures ReadDateFilter(WriteDateFilter(value), parse)
         == Success(if value.Some? then Some(StartOfDay(value.value)) else None)
  {
  }
}
