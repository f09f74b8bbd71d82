/** The three custom leaf encoders registered with the JSON generator
    (Sources/er/highcharts/control/serializers/). Each one turns a leaf value
    into one call on the generator; the generator itself is not modelled. */
module Serializers {
  import opened Wrappers
  import opened Text
  import opened HighchartsFunctions

  /** The one generator call a serializer makes. */
  datatype GeneratorCall =
    | WriteNull                    // the JSON literal null
    | WriteRawValue(text: string)  // a value written verbatim: never quoted, never escaped
    | WriteRaw(text: string)       // text written verbatim, outside the generator's value bookkeeping

  /** The calendar fields a Joda `DateTime` reports; `monthOfYear` is 1-based. */
  datatype JodaDateTime = JodaDateTime(
    year: int, monthOfYear: int, dayOfMonth: int,
    hourOfDay: int, minuteOfHour: int, secondOfMinute: int)

  /** The fields a `java.util.Calendar` set to an `NSTimestamp` reports;
      `month` (Calendar.MONTH) is 0-based. */
  datatype CalendarFields = CalendarFields(
    year: int, month: int, dayOfMonth: int,
    hourOfDay: int, minute: int, second: int)

  /** The decimal renderings of a list of numbers, in order. */
  function Decimals(ns: seq<int>): (ds: seq<string>)
    ensures |ds| == |ns|
    ensures forall i :: 0 <= i < |ns| ==> ds[i] == Decimal(ns[i])
  {
    if ns == [] then [] else [Decimal(ns[0])] + Decimals(ns[1..])
  }

  /** Pieces of text joined by single commas, with no spaces. */
  function JoinCommas(parts: seq<string>): string
    requires |parts| > 0
    decreases |parts|
  {
    if |parts| == 1 then parts[0] else parts[0] + [','] + JoinCommas(parts[1..])
  }

  /** The JavaScript expression `Date.UTC(y,mo,d,h,mi,s)`: the six numbers in
      decimal, separated by commas with no spaces, exactly as both date
      encoders concatenate it. */
  function DateUtc(y: int, mo: int, d: int, h: int, mi: int, s: int): string
  {
    "Date.UTC(" + JoinCommas(Decimals([y, mo, d, h, mi, s])) + ")"
  }

  /** Reads a comma-separated list of decimal numbers. */
  function ParseArgs(parts: seq<string>): Option<seq<int>>
  {
    if parts == [] then Some([])
    else
      match ParseDecimal(parts[0])
      case None => None
      case Some(n) =>
        match ParseArgs(parts[1..])
        case None => None
        case Some(rest) => Some([n] + rest)
  }

  /** Reads back a `Date.UTC(...)` expression into its integer arguments. */
  function ParseDateUtc(text: string): Option<seq<int>>
  {
    if |text| < 10 || text[..9] != "Date.UTC(" || text[|text| - 1] != ')' then None
    else ParseArgs(SplitOn(text[9..|text| - 1], ','))
  }

  /** A rendered number holds no comma, no space and no quotation mark. */
  lemma DecimalIsBare(n: int)
    ensures ',' !in Decimal(n) && ' ' !in Decimal(n) && '"' !in Decimal(n)
  {
  }

  /** Splitting a comma-joined list of comma-free pieces gives the pieces back. */
  lemma {:induction false} SplitJoinCommas(parts: seq<string>)
    requires |parts| > 0
    requires forall i :: 0 <= i < |parts| ==> ',' !in parts[i]
    ensures SplitOn(JoinCommas(parts), ',') == parts
    decreases |parts|
  {
    if |parts| == 1 {
      FirstIndexSpec(parts[0], ',');
    } else {
      SplitJoinCommas(parts[1..]);
      SplitOnFirst(parts[0], ',', JoinCommas(parts[1..]));
      assert [parts[0]] + parts[1..] == parts;
    }
  }

  /** A character that is not a comma and occurs in no piece does not occur
      in the joined text. */
  lemma {:induction false} JoinCommasAvoids(parts: seq<string>, c: char)
    requires |parts| > 0 && c != ','
    requires forall i :: 0 <= i < |parts| ==> c !in parts[i]
    ensures c !in JoinCommas(parts)
    decreases |parts|
  {
    if |parts| > 1 {
      JoinCommasAvoids(parts[1..], c);
    }
  }

  /** Reading the renderings of a list of numbers gives the numbers back. */
  lemma {:induction false} ParseArgsOfDecimals(ns: seq<int>)
    ensures ParseArgs(Decimals(ns)) == Some(ns)
  {
    if ns != [] {
      ParseDecimalOfDecimal(ns[0]);
      ParseArgsOfDecimals(ns[1..]);
      assert Decimals(ns)[1..] == Decimals(ns[1..]);
      assert [ns[0]] + ns[1..] == ns;
    }
  }

  /** Every rendering in the list is free of commas, spaces and quotation marks. */
  lemma DecimalsAreBare(ns: seq<int>)
    ensures forall i :: 0 <= i < |ns| ==> ',' !in Decimals(ns)[i] && ' ' !in Decimals(ns)[i] && '"' !in Decimals(ns)[i]
  {
    forall i | 0 <= i < |ns|
      ensures ',' !in Decimals(ns)[i] && ' ' !in Decimals(ns)[i] && '"' !in Decimals(ns)[i]
    {
      DecimalIsBare(ns[i]);
    }
  }

  /** The expression reads back as exactly the six numbers it was built from:
      six comma-separated decimal integers, nothing else. */
  lemma DateUtcRoundTrip(y: int, mo: int, d: int, h: int, mi: int, s: int)
    ensures ParseDateUtc(DateUtc(y, mo, d, h, mi, s)) == Some([y, mo, d, h, mi, s])
  {
    var args := [y, mo, d, h, mi, s];
    var inner := JoinCommas(Decimals(args));
    var text := DateUtc(y, mo, d, h, mi, s);
    assert text[..9] == "Date.UTC(";
    assert text[9..|text| - 1] == inner;
    DecimalsAreBare(args);
    SplitJoinCommas(Decimals(args));
    ParseArgsOfDecimals(args);
  }

  /** The expression holds no space and no quotation mark: it is bare script
      text, not a JSON string. */
  lemma DateUtcIsBare(y: int, mo: int, d: int, h: int, mi: int, s: int)
    ensures ' ' !in DateUtc(y, mo, d, h, mi, s) && '"' !in DateUtc(y, mo, d, h, mi, s)
  {
    var args := [y, mo, d, h, mi, s];
    DecimalsAreBare(args);
    JoinCommasAvoids(Decimals(args), ' ');
    JoinCommasAvoids(Decimals(args), '"');
  }

  /** ERJodaDateTimeSerializer.serialize: null becomes the JSON null literal;
      any other date becomes exactly the raw value `Date.UTC(...)` of its
      fields, whose month argument is the 1-based month of year minus one; the
      text reads back as those six numbers. */
  function SerializeJodaDateTime(date: Option<JodaDateTime>): (c: GeneratorCall)
    ensures date.None? <==> c.WriteNull?
    ensures date.Some? ==>
      var t := date.value;
      && c == WriteRawValue(DateUtc(t.year, t.monthOfYear - 1, t.dayOfMonth, t.hourOfDay, t.minuteOfHour, t.secondOfMinute))
      && ParseDateUtc(c.text)
         == Some([t.year, t.monthOfYear - 1, t.dayOfMonth, t.hourOfDay, t.minuteOfHour, t.secondOfMinute])
  {
    match date
    case None => WriteNull
    case Some(t) =>
      DateUtcRoundTrip(t.year, t.monthOfYear - 1, t.dayOfMonth, t.hourOfDay, t.minuteOfHour, t.secondOfMinute);
      WriteRawValue(DateUtc(t.year, t.monthOfYear - 1, t.dayOfMonth, t.hourOfDay, t.minuteOfHour, t.secondOfMinute))
  }

  /** ERNSTimestampSerializer.serialize: null becomes the JSON null literal;
      any other timestamp becomes exactly the raw value `Date.UTC(...)` of its
      fields, whose month argument is the calendar's 0-based month, unchanged;
      the text reads back as those six numbers. */
  function SerializeTimestamp(stamp: Option<CalendarFields>): (c: GeneratorCall)
    ensures stamp.None? <==> c.WriteNull?
    ensures stamp.Some? ==>
      var t := stamp.value;
      && c == WriteRawValue(DateUtc(t.year, t.month, t.dayOfMonth, t.hourOfDay, t.minute, t.second))
      && ParseDateUtc(c.text)
         == Some([t.year, t.month, t.dayOfMonth, t.hourOfDay, t.minute, t.second])
  {
    match stamp
    case None => WriteNull
    case Some(t) =>
      DateUtcRoundTrip(t.year, t.month, t.dayOfMonth, t.hourOfDay, t.minute, t.second);
      WriteRawValue(DateUtc(t.year, t.month, t.dayOfMonth, t.hourOfDay, t.minute, t.second))
  }

  /** A Joda month of year m + 1 and a calendar month m name the same month, and
      the two encoders then write the same text. */
  lemma SameMonthSameText(y: int, m: int, d: int, h: int, mi: int, s: int)
    ensures SerializeJodaDateTime(Some(JodaDateTime(y, m + 1, d, h, mi, s)))
         == SerializeTimestamp(Some(CalendarFields(y, m, d, h, mi, s)))
  {
  }

  /** The months of the year, 1 to 12 for Joda, come out as 0 to 11. */
  lemma JodaMonthIsZeroBased(t: JodaDateTime)
    requires 1 <= t.monthOfYear <= 12
    ensures var args := ParseDateUtc(SerializeJodaDateTime(Some(t)).text).value;
            |args| == 6 && 0 <= args[1] <= 11 && args[1] == t.monthOfYear - 1
  {
  }

  /** How Java concatenates a possibly-null string: a null body reads "null". */
  function BodyText(body: Option<string>): string
  {
    match body
    case None => "null"
    case Some(b) => b
  }

  /** ERHighchartsFunctionSerializer.serialize: writes " : " and then the body,
      verbatim and unquoted; nothing but the body decides the output. */
  function SerializeFunction(f: HighchartsFunction): (c: GeneratorCall)
    ensures c.WriteRaw?
    ensures |c.text| == 3 + |BodyText(f.body)|
    ensures c.text[..3] == " : " && c.text[3..] == BodyText(f.body)
  {
    WriteRaw(" : " + BodyText(f.body))
  }

  /** A function built from a body serializes to that body exactly, after the
      three-character separator. */
  lemma FunctionBodyVerbatim(b: string)
    ensures SerializeFunction(NewHighchartsFunction(Some(b))) == WriteRaw(" : " + b)
  {
  }
}
