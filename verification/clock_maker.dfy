/** clockMaker: the date-time text of bin reports and the clock-setting command.

    `ClockMaker_getCurrentDateTime` renders the broken-down local time with
    `"%4d-%02d-%02d %02d:%02d:%02d"`; the clock itself is an input of the model. */
module ClockMaker {
  import opened Text

  /** `sizeof(DateTime.data)`: MAX_BUFFER_SIZE / 2. */
  const DateTimeSize: nat := 500

  /** The fields of `struct tm` the formatter reads: years since 1900, months from 0. */
  datatype Tm = Tm(year: int, mon: int, mday: int, hour: int, min: int, sec: int)

  /** `printf("%02d")`: zero-padded to two characters, wider numbers printed whole. */
  function TwoDigits(n: int): string {
    if 0 <= n < 10 then "0" + [DigitChar(n)] else IntToDecimal(n)
  }

  /** A field in 0..99 prints as exactly two digits that read back as the field. */
  lemma TwoDigitsInRange(n: int)
    requires 0 <= n < 100
    ensures |TwoDigits(n)| == 2 && AllDigits(TwoDigits(n))
    ensures ParseNat(TwoDigits(n)) == n
  {
    if n < 10 {
      var r := TwoDigits(n);
      assert r[..1] == "0" && r[..1][..0] == "";
      assert ParseNat(r[..1]) == 0;
    } else {
      DecimalWidth(n);
      ParseNatToDecimal(n);
    }
  }

  /** `printf("%4d")` of the calendar year: space-padded on the left to four characters. */
  function YearField(t: Tm): string {
    PadLeft(IntToDecimal(t.year + 1900), 4, ' ')
  }

  /** The six fields joined by the format's separators. */
  function Join(y: string, mo: string, d: string, h: string, mi: string, se: string): string {
    y + "-" + mo + "-" + d + " " + h + ":" + mi + ":" + se
  }

  /** `ClockMaker_getCurrentDateTime`'s rendering of a broken-down time: for the field
      ranges `localtime` produces it has the `YYYY-MM-DD HH:MM:SS` layout. */
  function Format(t: Tm): (r: string)
    ensures InRange(t) ==> Layout(r)
  {
    var s := Join(YearField(t), TwoDigits(t.mon + 1), TwoDigits(t.mday),
                  TwoDigits(t.hour), TwoDigits(t.min), TwoDigits(t.sec));
    if InRange(t) then
      YearFieldFourDigits(t);
      TwoDigitsInRange(t.mon + 1);
      TwoDigitsInRange(t.mday);
      TwoDigitsInRange(t.hour);
      TwoDigitsInRange(t.min);
      TwoDigitsInRange(t.sec);
      Joined(YearField(t), TwoDigits(t.mon + 1), TwoDigits(t.mday),
             TwoDigits(t.hour), TwoDigits(t.min), TwoDigits(t.sec));
      FieldsMakeLayout(s);
      s
    else
      s
  }

  /** The field ranges `localtime` produces, with a four-digit year. */
  predicate InRange(t: Tm) {
    && 1000 <= t.year + 1900 <= 9999
    && 0 <= t.mon <= 11 && 1 <= t.mday <= 31
    && 0 <= t.hour <= 23 && 0 <= t.min <= 59 && 0 <= t.sec <= 60
  }

  /** Digit positions of `YYYY-MM-DD HH:MM:SS`. */
  predicate DigitAt(i: int) {
    0 <= i < 19 && i != 4 && i != 7 && i != 10 && i != 13 && i != 16
  }

  /** The layout `YYYY-MM-DD HH:MM:SS`: 19 characters, digits everywhere but the separators. */
  predicate Layout(s: string) {
    && |s| == 19
    && s[4] == '-' && s[7] == '-' && s[10] == ' ' && s[13] == ':' && s[16] == ':'
    && forall i :: 0 <= i < 19 && DigitAt(i) ==> IsDigit(s[i])
  }

  /** Reads a date-time in the layout back into `struct tm` fields; the inverse of `Format`. */
  function Parse(s: string): (r: Option<Tm>)
    ensures r.Some? <==> Layout(s)
  {
    if !Layout(s) then None
    else
      assert AllDigits(s[0..4]) && AllDigits(s[5..7]) && AllDigits(s[8..10]) by {
        assert forall i :: 0 <= i < 4 ==> s[0..4][i] == s[i];
        assert forall i :: 0 <= i < 2 ==> s[5..7][i] == s[5 + i] && s[8..10][i] == s[8 + i];
      }
      assert AllDigits(s[11..13]) && AllDigits(s[14..16]) && AllDigits(s[17..19]) by {
        assert forall i :: 0 <= i < 2 ==>
          s[11..13][i] == s[11 + i] && s[14..16][i] == s[14 + i] && s[17..19][i] == s[17 + i];
      }
      Some(Tm(ParseNat(s[0..4]) - 1900, ParseNat(s[5..7]) - 1, ParseNat(s[8..10]),
              ParseNat(s[11..13]), ParseNat(s[14..16]), ParseNat(s[17..19])))
  }

  /** A four-digit year prints without padding. */
  lemma YearFieldFourDigits(t: Tm)
    requires 1000 <= t.year + 1900 <= 9999
    ensures YearField(t) == NatToDecimal(t.year + 1900)
    ensures |YearField(t)| == 4 && AllDigits(YearField(t))
    ensures ParseNat(YearField(t)) == t.year + 1900
  {
    DecimalWidth(t.year + 1900);
    ParseNatToDecimal(t.year + 1900);
  }

  /** Where each field of the rendering sits: the year in 0..4, the other fields two
      characters each, between the five separators. */
  lemma FormatFields(t: Tm)
    requires InRange(t)
    ensures var s := Format(t);
            && |s| == 19 && s[0..4] == YearField(t)
            && s[5..7] == TwoDigits(t.mon + 1) && s[8..10] == TwoDigits(t.mday)
            && s[11..13] == TwoDigits(t.hour) && s[14..16] == TwoDigits(t.min)
            && s[17..19] == TwoDigits(t.sec)
            && s[4] == '-' && s[7] == '-' && s[10] == ' ' && s[13] == ':' && s[16] == ':'
  {
    YearFieldFourDigits(t);
    TwoDigitsInRange(t.mon + 1);
    TwoDigitsInRange(t.mday);
    TwoDigitsInRange(t.hour);
    TwoDigitsInRange(t.min);
    TwoDigitsInRange(t.sec);
    Joined(YearField(t), TwoDigits(t.mon + 1), TwoDigits(t.mday),
           TwoDigits(t.hour), TwoDigits(t.min), TwoDigits(t.sec));
  }

  /** Six fields of widths 4, 2, 2, 2, 2, 2 joined by the format's separators. */
  lemma Joined(y: string, mo: string, d: string, h: string, mi: string, se: string)
    requires |y| == 4 && |mo| == 2 && |d| == 2 && |h| == 2 && |mi| == 2 && |se| == 2
    ensures var s := Join(y, mo, d, h, mi, se);
            && |s| == 19 && s[0..4] == y
            && s[5..7] == mo && s[8..10] == d && s[11..13] == h && s[14..16] == mi && s[17..19] == se
            && s[4] == '-' && s[7] == '-' && s[10] == ' ' && s[13] == ':' && s[16] == ':'
  {
    var date := y + "-" + mo + "-" + d;
    var s := date + " " + h + ":" + mi + ":" + se;
    assert date[0..4] == y && date[5..7] == mo && date[8..10] == d;
    assert s[0..10] == date;
  }

  /** Six digit fields between the five separators make the layout. */
  lemma FieldsMakeLayout(s: string)
    requires |s| == 19
    requires s[4] == '-' && s[7] == '-' && s[10] == ' ' && s[13] == ':' && s[16] == ':'
    requires AllDigits(s[0..4]) && AllDigits(s[5..7]) && AllDigits(s[8..10])
    requires AllDigits(s[11..13]) && AllDigits(s[14..16]) && AllDigits(s[17..19])
    ensures Layout(s)
  {
    forall i | 0 <= i < 19 && DigitAt(i) ensures IsDigit(s[i]) {
      if i < 4 { assert s[i] == s[0..4][i]; }
      else if i < 7 { assert s[i] == s[5..7][i - 5]; }
      else if i < 10 { assert s[i] == s[8..10][i - 8]; }
      else if i < 13 { assert s[i] == s[11..13][i - 11]; }
      else if i < 16 { assert s[i] == s[14..16][i - 14]; }
      else { assert s[i] == s[17..19][i - 17]; }
    }
  }

  /** A text in the layout whose fields read as t's (year + 1900, month + 1) parses to t. */
  lemma FieldsParse(s: string, t: Tm)
    requires Layout(s)
    requires AllDigits(s[0..4]) && AllDigits(s[5..7]) && AllDigits(s[8..10])
    requires AllDigits(s[11..13]) && AllDigits(s[14..16]) && AllDigits(s[17..19])
    requires ParseNat(s[0..4]) == t.year + 1900 && ParseNat(s[5..7]) == t.mon + 1
    requires ParseNat(s[8..10]) == t.mday && ParseNat(s[11..13]) == t.hour
    requires ParseNat(s[14..16]) == t.min && ParseNat(s[17..19]) == t.sec
    ensures Parse(s) == Some(t)
  {
  }

  /** For years 1000..9999 and fields within their ranges the rendering is exactly the
      19-character layout, and reading it back gives the same fields (year - 1900 and
      month - 1 undo the `+ 1900` and `+ 1` of the formatter). */
  lemma FormatRoundTrip(t: Tm)
    requires InRange(t)
    ensures Layout(Format(t))
    ensures Parse(Format(t)) == Some(t)
  {
    FormatFields(t);
    YearFieldFourDigits(t);
    TwoDigitsInRange(t.mon + 1);
    TwoDigitsInRange(t.mday);
    TwoDigitsInRange(t.hour);
    TwoDigitsInRange(t.min);
    TwoDigitsInRange(t.sec);
    FieldsMakeLayout(Format(t));
    FieldsParse(Format(t), t);
  }

  /** A year below 1000 is padded with a space, not a zero: the layout is broken. */
  lemma ShortYearSpacePadded(t: Tm)
    requires 100 <= t.year + 1900 <= 999
    ensures Format(t)[0] == ' '
    ensures Format(t)[1..4] == NatToDecimal(t.year + 1900)
    ensures !Layout(Format(t))
  {
    var y := YearField(t);
    ShortYearField(t);
    assert Format(t) == Join(y, TwoDigits(t.mon + 1), TwoDigits(t.mday),
                             TwoDigits(t.hour), TwoDigits(t.min), TwoDigits(t.sec));
    JoinedPrefix(y, TwoDigits(t.mon + 1), TwoDigits(t.mday),
                 TwoDigits(t.hour), TwoDigits(t.min), TwoDigits(t.sec));
    assert DigitAt(0) && !IsDigit(Format(t)[0]);
  }

  /** The joined text starts with the year field. */
  lemma JoinedPrefix(y: string, mo: string, d: string, h: string, mi: string, se: string)
    requires |y| == 4
    ensures var s := Join(y, mo, d, h, mi, se);
            && |s| >= 4 && s[0] == y[0] && s[1..4] == y[1..]
  {
    var s := y + "-" + mo + "-" + d + " " + h + ":" + mi + ":" + se;
    assert s[..4] == y;
    assert s[1..4] == s[..4][1..];
  }

  /** The year field of a three-digit year: a space, then the digits. */
  lemma ShortYearField(t: Tm)
    requires 100 <= t.year + 1900 <= 999
    ensures |YearField(t)| == 4 && YearField(t)[0] == ' '
    ensures YearField(t)[1..] == NatToDecimal(t.year + 1900)
  {
    DecimalWidth(t.year + 1900);
  }

  /** The default date the clock is set to at start-up. */
  const DefaultDateTime: string := "2021-01-01 00:00:00"

  /** The default date is the rendering of 1 January 2021, midnight, so it has the same layout. */
  lemma DefaultDateTimeLayout()
    ensures DefaultDateTime == Format(Tm(121, 0, 1, 0, 0, 0))
    ensures Layout(DefaultDateTime)
  {
    var t := Tm(121, 0, 1, 0, 0, 0);
    DefaultFields();
    FormatFields(t);
    DefaultDateTimeText();
    SameFields(Format(t), DefaultDateTime);
  }

  /** The fields and separators of the default date text. */
  lemma DefaultDateTimeText()
    ensures var d := DefaultDateTime;
            && |d| == 19 && d[0..4] == "2021" && d[5..7] == "01" && d[8..10] == "01"
            && d[11..13] == "00" && d[14..16] == "00" && d[17..19] == "00"
            && d[4] == '-' && d[7] == '-' && d[10] == ' ' && d[13] == ':' && d[16] == ':'
  {
  }

  /** Two 19-character texts with the same six fields and the same five separators are
      the same text. */
  lemma SameFields(f: string, g: string)
    requires |f| == 19 && |g| == 19
    requires f[0..4] == g[0..4] && f[5..7] == g[5..7] && f[8..10] == g[8..10]
    requires f[11..13] == g[11..13] && f[14..16] == g[14..16] && f[17..19] == g[17..19]
    requires f[4] == g[4] && f[7] == g[7] && f[10] == g[10] && f[13] == g[13] && f[16] == g[16]
    ensures f == g
  {
    forall i | 0 <= i < 19 ensures f[i] == g[i] {
      if i < 4 { assert f[i] == f[0..4][i] && g[i] == g[0..4][i]; }
      else if 5 <= i < 7 { assert f[i] == f[5..7][i - 5] && g[i] == g[5..7][i - 5]; }
      else if 8 <= i < 10 { assert f[i] == f[8..10][i - 8] && g[i] == g[8..10][i - 8]; }
      else if 11 <= i < 13 { assert f[i] == f[11..13][i - 11] && g[i] == g[11..13][i - 11]; }
      else if 14 <= i < 16 { assert f[i] == f[14..16][i - 14] && g[i] == g[14..16][i - 14]; }
      else if 17 <= i { assert f[i] == f[17..19][i - 17] && g[i] == g[17..19][i - 17]; }
    }
  }

  /** The fields of the default date as `%4d` and `%02d` print them. */
  lemma DefaultFields()
    ensures YearField(Tm(121, 0, 1, 0, 0, 0)) == "2021"
    ensures TwoDigits(1) == "01" && TwoDigits(0) == "00"
  {
    YearFieldFourDigits(Tm(121, 0, 1, 0, 0, 0));
    assert NatToDecimal(2) == "2";
    assert NatToDecimal(20) == "20";
    assert NatToDecimal(202) == "202";
  }

  /** No quote character: the shell splits such a text at every space. */
  predicate NoQuote(s: string) {
    forall i :: 0 <= i < |s| ==> s[i] != '\'' && s[i] != '"'
  }

  /** A text in the date-time layout holds only digits and the separators `-`, ` ` and
      `:`: neither a NUL nor a quote. */
  lemma LayoutPlain(s: string)
    requires Layout(s)
    ensures NoNul(s) && NoQuote(s)
  {
    forall i | 0 <= i < |s| ensures s[i] != NUL && s[i] != '\'' && s[i] != '"' {
      assert DigitAt(i) ==> IsDigit(s[i]);
    }
  }

  /** The fixed prefix of the command `ClockMaker_setCurrentDateTime` passes to `system`. */
  const SetDatePrefix: string := "sudo date -s "

  /** The shell command that sets the clock to the date text received in a DATI message:
      the prefix followed by the C string of the date buffer, unquoted. */
  function SetClockCommand(date: string): (r: string)
    ensures |r| == |SetDatePrefix| + |CString(date)|
    ensures r[..|SetDatePrefix|] == SetDatePrefix
    ensures r[|SetDatePrefix|..] == CString(date)
  {
    SetDatePrefix + CString(date)
  }

  /** The command built for a rendered time: the text after the prefix parses back to that
      time, but the space between the date and the time is not quoted, and the command
      holds no quote at all, so the shell hands `date -s` the date and the time as two
      separate arguments. */
  lemma ClockCommandOfTime(t: Tm)
    requires InRange(t)
    ensures var cmd := SetClockCommand(Format(t));
            && cmd == SetDatePrefix + Format(t)
            && Parse(cmd[|SetDatePrefix|..]) == Some(t)
            && cmd[|SetDatePrefix| + 10] == ' '
            && NoQuote(cmd)
  {
    var f := Format(t);
    FormatRoundTrip(t);
    LayoutPlain(f);
    CStringOfNoNul(f);
    PrefixedNoQuote(f);
  }

  /** The prefix holds no quote, so a quote-free text stays quote-free behind it. */
  lemma PrefixedNoQuote(s: string)
    requires NoQuote(s)
    ensures NoQuote(SetDatePrefix + s)
  {
    var cmd := SetDatePrefix + s;
    forall i | 0 <= i < |cmd| ensures cmd[i] != '\'' && cmd[i] != '"' {
      if i >= |SetDatePrefix| { assert cmd[i] == s[i - |SetDatePrefix|]; }
    }
  }

  /** The command run at start-up: the default date, quoted. */
  const DefaultClockCommand: string := "sudo date -s '2021-01-01 00:00:00'"

  /** The start-up command, unlike the one built for a DATI message, puts the rendered
      default date between single quotes after the same prefix, so its inner space stays
      inside one argument. */
  lemma DefaultCommandQuotesDate()
    ensures DefaultClockCommand == SetDatePrefix + "'" + Format(Tm(121, 0, 1, 0, 0, 0)) + "'"
    ensures !NoQuote(DefaultClockCommand)
  {
    DefaultDateTimeLayout();
    DefaultCommandText();
  }

  /** The start-up command's text: the prefix, then the default date between quotes. */
  lemma DefaultCommandText()
    ensures DefaultClockCommand == SetDatePrefix + "'" + DefaultDateTime + "'"
    ensures DefaultClockCommand[|SetDatePrefix|] == '\'' && DefaultClockCommand[|SetDatePrefix| + 11] == ' '
    ensures DefaultClockCommand[|DefaultClockCommand| - 1] == '\''
  {
  }
}
