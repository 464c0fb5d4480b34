/** `get_timestamp`: turns an invoice date such as "2011-03-04 10:20:30" into
    epoch milliseconds. The date is the first whitespace-separated token cut at
    `-`, the time the second token cut at `:`; the first three pieces of each
    go through `int()`, the six numbers through `pd.Timestamp` (naive, so UTC).
    Nothing catches a failure: a missing token or piece raises IndexError, a
    piece that is not an integer or fields pandas refuses raise ValueError. */
module Timestamp {
  import opened Values
  import opened Text
  import opened Calendar

  datatype TimestampError =
    | NoSuchIndex                    // IndexError: too few tokens or pieces
    | NotAnInteger(text: string)     // ValueError raised by int()
    | NotATimestamp(fields: DateTime) // ValueError raised by pd.Timestamp

  /** `int(parts[k])`, with the IndexError and ValueError it can raise. */
  function Field(parts: seq<string>, k: nat): (r: Result<int, TimestampError>)
    ensures k >= |parts| ==> r == Err(NoSuchIndex)
    ensures k < |parts| ==> (r.Ok? <==> ParseInt(parts[k]).Some?)
    ensures r.Ok? ==> k < |parts| && ParseInt(parts[k]) == Some(r.value)
    ensures k < |parts| && ParseInt(parts[k]).None? ==> r == Err(NotAnInteger(parts[k]))
  {
    if k >= |parts| then Err(NoSuchIndex)
    else match ParseInt(parts[k])
      case None => Err(NotAnInteger(parts[k]))
      case Some(v) => Ok(v)
  }

  /** The six integers, read in the order the source reads them (both tokens
      first, then year, month, day, hours, minutes, seconds), so the first
      failing read decides the error. */
  function Fields(s: string): Result<DateTime, TimestampError> {
    var tokens := Tokens(s);
    if |tokens| < 2 then Err(NoSuchIndex) else FieldsOf(tokens[0], tokens[1])
  }

  /** The six integers of a date token and a time token. */
  function FieldsOf(dateToken: string, timeToken: string): Result<DateTime, TimestampError> {
    ReadFields(Split(dateToken, '-'), Split(timeToken, ':'))
  }

  /** The six reads `int(date[0])` .. `int(time[2])`, in the source's order:
      the three of the date, then the three of the time. */
  function ReadFields(date: seq<string>, time: seq<string>): Result<DateTime, TimestampError> {
    var (year, month, day) :- ReadThree(date);
    var (hours, mins, secs) :- ReadThree(time);
    Ok(DateTime(year, month, day, hours, mins, secs))
  }

  /** `int(parts[0])`, `int(parts[1])`, `int(parts[2])`, in that order: the
      three values when every piece is there and parses; otherwise the
      IndexError or ValueError of the first read that fails. */
  function ReadThree(parts: seq<string>): (r: Result<(int, int, int), TimestampError>)
  {
    var a :- Field(parts, 0);
    var b :- Field(parts, 1);
    var c :- Field(parts, 2);
    Ok((a, b, c))
  }

  /** Three pieces, each an integer for `int()`. */
  predicate ParsesThree(parts: seq<string>) {
    |parts| >= 3 && ParseInt(parts[0]).Some? && ParseInt(parts[1]).Some? && ParseInt(parts[2]).Some?
  }

  /** The three reads succeed exactly when there are three pieces and each
      parses, and then give the three integers; a failure is IndexError or
      ValueError. */
  lemma ReadThreeOk(parts: seq<string>)
    ensures ReadThree(parts).Ok? <==> ParsesThree(parts)
    ensures ReadThree(parts).Ok? ==>
      ReadThree(parts).value == (ParseInt(parts[0]).value, ParseInt(parts[1]).value, ParseInt(parts[2]).value)
    ensures ReadThree(parts).Err? ==> ReadThree(parts).error.NoSuchIndex? || ReadThree(parts).error.NotAnInteger?
  {
  }

  /** `get_timestamp(s)`: epoch milliseconds of the date-time written in `s`.
      A result is a whole number of seconds and lies within pandas' range. */
  function GetTimestamp(s: string): (r: Result<int, TimestampError>)
    ensures r.Ok? ==> r.value % 1000 == 0
    ensures r.Ok? ==> MinSeconds * 1000 <= r.value <= MaxSeconds * 1000
    ensures |Tokens(s)| < 2 ==> r == Err(NoSuchIndex)
  {
    var t :- Fields(s);
    if IsTimestamp(t) then Ok(Millis(EpochSeconds(t))) else Err(NotATimestamp(t))
  }

  /** `int(pd.Timestamp(...).timestamp() * 1000)` for a whole number of
      seconds. pandas goes through floating point; the exact product written
      here is what it gives while the seconds stay below 2^32 in magnitude. */
  function Millis(secs: int): (ms: int)
    ensures ms % 1000 == 0 && ms / 1000 == secs
    ensures MinSeconds <= secs <= MaxSeconds ==> MinSeconds * 1000 <= ms <= MaxSeconds * 1000
  {
    secs * 1000
  }

  // ------------------------------------------------------------ the expected format

  function Pad2(n: nat): string {
    if n < 10 then "0" + ShowNat(n) else ShowNat(n)
  }

  /** "YYYY-MM-DD HH:MM:SS", the way the data set writes invoice dates. */
  function Format(t: DateTime): string
    requires t.year >= 0 && ValidFields(t)
  {
    ShowNat(t.year) + "-" + Pad2(t.month) + "-" + Pad2(t.day) + " "
    + Pad2(t.hour) + ":" + Pad2(t.minute) + ":" + Pad2(t.second)
  }

  lemma ParsePad2(n: nat)
    ensures ParseInt(Pad2(n)) == Some(n)
    ensures forall i :: 0 <= i < |Pad2(n)| ==> IsDigit(Pad2(n)[i])
  {
    ParseShowNat(n);
    Pad2Digits(n);
    if n < 10 {
      assert Pad2(n) == "0" + ShowNat(n);
    } else {
      assert Pad2(n) == ShowNat(n);
    }
  }

  lemma Pad2Digits(n: nat)
    ensures forall i :: 0 <= i < |Pad2(n)| ==> IsDigit(Pad2(n)[i])
  {
    var s := ShowNat(n);
    if n < 10 {
      forall i | 0 <= i < |Pad2(n)| ensures IsDigit(Pad2(n)[i]) {
        if i > 0 { assert Pad2(n)[i] == s[i - 1]; }
      }
    }
  }

  lemma DigitsNoSeparators(s: string)
    requires forall i :: 0 <= i < |s| ==> IsDigit(s[i])
    ensures NoSpace(s) && NotIn('-', s) && NotIn(':', s)
  {
  }

  lemma SplitThree(a: string, b: string, c: string, sep: char)
    requires NotIn(sep, a) && NotIn(sep, b) && NotIn(sep, c)
    ensures Split(a + [sep] + b + [sep] + c, sep) == [a, b, c]
  {
    SplitJoin([a, b, c], sep);
    assert Join([c], sep) == c;
    assert Join([b, c], sep) == b + [sep] + c;
    assert Join([a, b, c], sep) == a + [sep] + (b + [sep] + c);
    assert a + [sep] + b + [sep] + c == a + [sep] + (b + [sep] + c);
  }

  lemma FieldsOfParts(dateToken: string, timeToken: string, date: seq<string>, time: seq<string>, t: DateTime)
    requires Split(dateToken, '-') == date && Split(timeToken, ':') == time && |date| == 3 && |time| == 3
    requires ParseInt(date[0]) == Some(t.year) && ParseInt(date[1]) == Some(t.month) && ParseInt(date[2]) == Some(t.day)
    requires ParseInt(time[0]) == Some(t.hour) && ParseInt(time[1]) == Some(t.minute) && ParseInt(time[2]) == Some(t.second)
    ensures FieldsOf(dateToken, timeToken) == Ok(t)
  {
    assert Field(date, 0) == Ok(t.year) && Field(date, 1) == Ok(t.month) && Field(date, 2) == Ok(t.day);
    assert Field(time, 0) == Ok(t.hour) && Field(time, 1) == Ok(t.minute) && Field(time, 2) == Ok(t.second);
  }

  lemma FieldsOfPieces(y: string, mo: string, d: string, h: string, mi: string, se: string, t: DateTime)
    requires NotIn('-', y) && NotIn('-', mo) && NotIn('-', d)
    requires NotIn(':', h) && NotIn(':', mi) && NotIn(':', se)
    requires ParseInt(y) == Some(t.year) && ParseInt(mo) == Some(t.month) && ParseInt(d) == Some(t.day)
    requires ParseInt(h) == Some(t.hour) && ParseInt(mi) == Some(t.minute) && ParseInt(se) == Some(t.second)
    ensures FieldsOf(y + "-" + mo + "-" + d, h + ":" + mi + ":" + se) == Ok(t)
  {
    SplitThree(y, mo, d, '-');
    SplitThree(h, mi, se, ':');
    FieldsOfParts(y + "-" + mo + "-" + d, h + ":" + mi + ":" + se, [y, mo, d], [h, mi, se], t);
  }

  lemma NoSpaceJoin3(a: string, b: string, c: string, sep: char)
    requires NoSpace(a) && NoSpace(b) && NoSpace(c) && !IsSpace(sep)
    ensures NoSpace(a + [sep] + b + [sep] + c)
  {
    var s := a + [sep] + b + [sep] + c;
    forall i | 0 <= i < |s| ensures !IsSpace(s[i]) {
      if i < |a| { assert s[i] == a[i]; }
      else if i == |a| { }
      else if i < |a| + 1 + |b| { assert s[i] == b[i - |a| - 1]; }
      else if i == |a| + 1 + |b| { }
      else { assert s[i] == c[i - |a| - |b| - 2]; }
    }
  }

  /** Reading back a formatted date-time gives its epoch milliseconds: the
      parser takes year, month and day from the date and hours, minutes and
      seconds from the time, in that order. */
  lemma {:induction false} GetTimestampOfFormat(t: DateTime)
    requires t.year >= 0 && IsTimestamp(t)
    ensures Fields(Format(t)) == Ok(t)
    ensures GetTimestamp(Format(t)) == Ok(Millis(EpochSeconds(t)))
  {
    var date, time := FormatTokens(t);
    assert FieldsOf(date, time) == Ok(t) by {
      FormatPieces(t);
    }
  }

  /** The two tokens of a formatted date-time. */
  lemma {:induction false} FormatTokens(t: DateTime) returns (date: string, time: string)
    requires t.year >= 0 && ValidFields(t)
    ensures date == ShowNat(t.year) + "-" + Pad2(t.month) + "-" + Pad2(t.day)
    ensures time == Pad2(t.hour) + ":" + Pad2(t.minute) + ":" + Pad2(t.second)
    ensures Tokens(Format(t)) == [date, time]
  {
    date := ShowNat(t.year) + "-" + Pad2(t.month) + "-" + Pad2(t.day);
    time := Pad2(t.hour) + ":" + Pad2(t.minute) + ":" + Pad2(t.second);
    DateTokenNoSpace(t);
    TimeTokenNoSpace(t);
    assert Format(t) == date + " " + time;
    TwoTokens(date, time);
  }

  lemma DateTokenNoSpace(t: DateTime)
    requires t.year >= 0 && ValidFields(t)
    ensures NoSpace(ShowNat(t.year) + "-" + Pad2(t.month) + "-" + Pad2(t.day))
  {
    Pad2Digits(t.month);
    Pad2Digits(t.day);
    JoinedNoSpace(ShowNat(t.year), Pad2(t.month), Pad2(t.day), '-');
  }

  lemma TimeTokenNoSpace(t: DateTime)
    requires t.year >= 0 && ValidFields(t)
    ensures NoSpace(Pad2(t.hour) + ":" + Pad2(t.minute) + ":" + Pad2(t.second))
  {
    Pad2Digits(t.hour);
    Pad2Digits(t.minute);
    Pad2Digits(t.second);
    JoinedNoSpace(Pad2(t.hour), Pad2(t.minute), Pad2(t.second), ':');
  }

  /** Two words joined by a space are read back as those two tokens. */
  lemma TwoTokens(a: string, b: string)
    requires |a| > 0 && NoSpace(a) && |b| > 0 && NoSpace(b)
    ensures Tokens(a + " " + b) == [a, b]
  {
    assert Join([a, b], ' ') == a + " " + b;
    TokensJoin([a, b]);
  }

  /** Three digit strings joined by a separator that is not a space. */
  lemma JoinedNoSpace(a: string, b: string, c: string, sep: char)
    requires forall i :: 0 <= i < |a| ==> IsDigit(a[i])
    requires forall i :: 0 <= i < |b| ==> IsDigit(b[i])
    requires forall i :: 0 <= i < |c| ==> IsDigit(c[i])
    requires !IsSpace(sep)
    ensures NoSpace(a + [sep] + b + [sep] + c)
  {
    DigitsNoSeparators(a); DigitsNoSeparators(b); DigitsNoSeparators(c);
    NoSpaceJoin3(a, b, c, sep);
  }

  /** The six pieces of a formatted date-time parse back to its fields. */
  lemma FormatPieces(t: DateTime)
    requires t.year >= 0 && ValidFields(t)
    ensures FieldsOf(ShowNat(t.year) + "-" + Pad2(t.month) + "-" + Pad2(t.day),
                     Pad2(t.hour) + ":" + Pad2(t.minute) + ":" + Pad2(t.second)) == Ok(t)
  {
    var y, mo, d := ShowNat(t.year), Pad2(t.month), Pad2(t.day);
    var h, mi, se := Pad2(t.hour), Pad2(t.minute), Pad2(t.second);
    ParseShowNat(t.year);
    ParsePad2(t.month); ParsePad2(t.day);
    ParsePad2(t.hour); ParsePad2(t.minute); ParsePad2(t.second);
    DigitsNoSeparators(y); DigitsNoSeparators(mo); DigitsNoSeparators(d);
    DigitsNoSeparators(h); DigitsNoSeparators(mi); DigitsNoSeparators(se);
    FieldsOfPieces(y, mo, d, h, mi, se, t);
  }

  /** The date-time written in the data set's sample row. */
  lemma SampleTimestamp()
    ensures GetTimestamp("2011-03-04 10:20:30") == Ok(1299234030000)
  {
    var t := DateTime(2011, 3, 4, 10, 20, 30);
    SampleFormat();
    SampleSeconds();
    GetTimestampOfFormat(t);
  }

  lemma SampleFormat()
    ensures ValidFields(DateTime(2011, 3, 4, 10, 20, 30))
    ensures Format(DateTime(2011, 3, 4, 10, 20, 30)) == "2011-03-04 10:20:30"
  {
    SampleYear();
    SamplePads();
    assert "2011" + "-" + "03" + "-" + "04" + " " + "10" + ":" + "20" + ":" + "30" == "2011-03-04 10:20:30";
  }

  lemma SampleYear()
    ensures ShowNat(2011) == "2011"
  {
    assert ShowNat(201) == "201";
  }

  lemma SamplePads()
    ensures Pad2(3) == "03" && Pad2(4) == "04" && Pad2(10) == "10" && Pad2(20) == "20" && Pad2(30) == "30"
  {
    assert ShowNat(1) == "1" && ShowNat(2) == "2" && ShowNat(3) == "3";
  }

  lemma SampleSeconds()
    ensures EpochSeconds(DateTime(2011, 3, 4, 10, 20, 30)) == 1299234030
    ensures IsTimestamp(DateTime(2011, 3, 4, 10, 20, 30))
  {
    assert !IsLeap(2011) && YearDay(DateTime(2011, 3, 4, 10, 20, 30)) == 62;
  }

  /** Whatever follows the second token is never looked at. */
  lemma {:induction false} GetTimestampIgnoresLaterTokens(s: string, w: string)
    requires |Tokens(s)| >= 2
    requires |w| > 0 && NoSpace(w)
    ensures GetTimestamp(s + " " + w) == GetTimestamp(s)
  {
    TokensAppendWord(s, w);
    var ts, ts' := Tokens(s), Tokens(s + " " + w);
    assert ts'[0] == ts[0] && ts'[1] == ts[1];
    assert Fields(s + " " + w) == Fields(s);
  }

  /** A date with no time part fails with IndexError, never a value. */
  lemma DateWithoutTimeFails()
    ensures GetTimestamp("2011/03/04") == Err(NoSuchIndex)
  {
    var s := "2011/03/04";
    assert NoSpace(s);
    TokensJoin([s]);
  }

  /** Later invoice dates give strictly larger timestamps. */
  lemma GetTimestampStrictlyIncreasing(s1: string, s2: string)
    requires GetTimestamp(s1).Ok? && GetTimestamp(s2).Ok?
    requires Before(Fields(s1).value, Fields(s2).value)
    ensures GetTimestamp(s1).value < GetTimestamp(s2).value
  {
    EpochSecondsStrictlyIncreasing(Fields(s1).value, Fields(s2).value);
  }

  // ------------------------------------------------------------ the pieces

  /** Of three pieces read in turn, the first that `int()` refuses is the
      ValueError raised; the pieces after it are not read. */
  lemma ReadThreeFirstBad(parts: seq<string>)
    requires |parts| >= 3
    ensures ParseInt(parts[0]).None? ==> ReadThree(parts) == Err(NotAnInteger(parts[0]))
    ensures ParseInt(parts[0]).Some? && ParseInt(parts[1]).None? ==>
      ReadThree(parts) == Err(NotAnInteger(parts[1]))
    ensures ParseInt(parts[0]).Some? && ParseInt(parts[1]).Some? && ParseInt(parts[2]).None? ==>
      ReadThree(parts) == Err(NotAnInteger(parts[2]))
  {
    if ParseInt(parts[0]).None? {
      assert Field(parts, 0) == Err(NotAnInteger(parts[0]));
    } else if ParseInt(parts[1]).None? {
      assert Field(parts, 1) == Err(NotAnInteger(parts[1]));
    } else if ParseInt(parts[2]).None? {
      assert Field(parts, 2) == Err(NotAnInteger(parts[2]));
    }
  }

  /** The date's three reads come first: their failure is the error, and
      the time is read only once they have all succeeded. */
  lemma ReadFieldsInOrder(date: seq<string>, time: seq<string>)
    ensures ReadThree(date).Err? ==> ReadFields(date, time) == Err(ReadThree(date).error)
    ensures ReadThree(date).Ok? && ReadThree(time).Err? ==> ReadFields(date, time) == Err(ReadThree(time).error)
    ensures ReadFields(date, time).Ok? <==> ReadThree(date).Ok? && ReadThree(time).Ok?
    ensures ReadFields(date, time).Ok? ==>
      var (year, month, day) := ReadThree(date).value;
      var (hours, mins, secs) := ReadThree(time).value;
      ReadFields(date, time).value == DateTime(year, month, day, hours, mins, secs)
  {
  }

  /** The six integers of a date and a time whose first three pieces parse. */
  function FieldValues(date: seq<string>, time: seq<string>): DateTime
    requires ParsesThree(date) && ParsesThree(time)
  {
    DateTime(ParseInt(date[0]).value, ParseInt(date[1]).value, ParseInt(date[2]).value,
             ParseInt(time[0]).value, ParseInt(time[1]).value, ParseInt(time[2]).value)
  }

  /** The six reads succeed exactly when the date and the time each have
      three pieces that parse, and then give those six integers in order. */
  lemma ReadFieldsOk(date: seq<string>, time: seq<string>)
    ensures ReadFields(date, time).Ok? <==> ParsesThree(date) && ParsesThree(time)
    ensures ReadFields(date, time).Ok? ==> ReadFields(date, time).value == FieldValues(date, time)
  {
    ReadFieldsInOrder(date, time);
    ReadThreeOk(date);
    ReadThreeOk(time);
  }

  /** Fewer than three pieces on either side raise: IndexError, or the
      ValueError of a piece read before the missing one; never a value. */
  lemma TooFewPieces(date: seq<string>, time: seq<string>)
    requires |date| < 3 || |time| < 3
    ensures ReadFields(date, time).Err?
    ensures ReadFields(date, time).error.NoSuchIndex? || ReadFields(date, time).error.NotAnInteger?
  {
    ReadFieldsInOrder(date, time);
    ReadThreeOk(date);
    ReadThreeOk(time);
  }

  /** Two lists of at least three pieces that agree on the first three. */
  predicate SameFirstThree(parts: seq<string>, parts': seq<string>) {
    |parts| >= 3 && |parts'| >= 3 && parts[0] == parts'[0] && parts[1] == parts'[1] && parts[2] == parts'[2]
  }

  lemma SameThree(parts: seq<string>, parts': seq<string>)
    requires SameFirstThree(parts, parts')
    ensures ReadThree(parts) == ReadThree(parts')
  {
    assert Field(parts, 0) == Field(parts', 0) && Field(parts, 1) == Field(parts', 1) && Field(parts, 2) == Field(parts', 2);
  }

  /** Pieces after the third, on either side, are never looked at. */
  lemma ExtraPiecesIgnored(date: seq<string>, time: seq<string>, date': seq<string>, time': seq<string>)
    requires SameFirstThree(date, date') && SameFirstThree(time, time')
    ensures ReadFields(date, time) == ReadFields(date', time')
  {
    SameThree(date, date');
    SameThree(time, time');
  }

  /** The `-` pieces of the first token and the `:` pieces of the second. */
  function DateParts(s: string): seq<string>
    requires |Tokens(s)| >= 2
  {
    Split(Tokens(s)[0], '-')
  }

  function TimeParts(s: string): seq<string>
    requires |Tokens(s)| >= 2
  {
    Split(Tokens(s)[1], ':')
  }

  /** `get_timestamp(s)` gives a value exactly when `s` has two tokens, the
      date token three `-` pieces and the time token three `:` pieces whose
      first three parse, and pandas accepts the six integers; the value is
      then the epoch milliseconds of those integers. */
  lemma GetTimestampReads(s: string)
    ensures GetTimestamp(s).Ok? <==>
      && |Tokens(s)| >= 2
      && ParsesThree(DateParts(s)) && ParsesThree(TimeParts(s))
      && IsTimestamp(FieldValues(DateParts(s), TimeParts(s)))
    ensures GetTimestamp(s).Ok? ==>
      GetTimestamp(s).value == Millis(EpochSeconds(FieldValues(DateParts(s), TimeParts(s))))
  {
    if |Tokens(s)| >= 2 {
      ReadFieldsOk(DateParts(s), TimeParts(s));
    }
  }

  /** A date or a time with fewer than three pieces makes `get_timestamp`
      raise IndexError or ValueError. */
  lemma GetTimestampTooFewPieces(s: string)
    requires |Tokens(s)| >= 2 && (|DateParts(s)| < 3 || |TimeParts(s)| < 3)
    ensures GetTimestamp(s).Err?
    ensures GetTimestamp(s).error.NoSuchIndex? || GetTimestamp(s).error.NotAnInteger?
  {
    TooFewPieces(DateParts(s), TimeParts(s));
  }

  /** `get_timestamp` reads year, month and day before hours, minutes and
      seconds: a failed read of the date is the error it raises, and a failed
      read of the time is the error once the date has been read. */
  lemma GetTimestampReadOrder(s: string)
    requires |Tokens(s)| >= 2
    ensures ReadThree(DateParts(s)).Err? ==> GetTimestamp(s) == Err(ReadThree(DateParts(s)).error)
    ensures ReadThree(DateParts(s)).Ok? && ReadThree(TimeParts(s)).Err? ==>
      GetTimestamp(s) == Err(ReadThree(TimeParts(s)).error)
  {
    ReadFieldsInOrder(DateParts(s), TimeParts(s));
  }

  /** Two invoice dates that agree on the six pieces read give the same
      result, whatever follows the third piece on either side. */
  lemma GetTimestampExtraPieces(s: string, s': string)
    requires |Tokens(s)| >= 2 && |Tokens(s')| >= 2
    requires SameFirstThree(DateParts(s), DateParts(s')) && SameFirstThree(TimeParts(s), TimeParts(s'))
    ensures GetTimestamp(s) == GetTimestamp(s')
  {
    ExtraPiecesIgnored(DateParts(s), TimeParts(s), DateParts(s'), TimeParts(s'));
  }
}
