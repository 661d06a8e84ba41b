/**
 * The ABN AMRO statement parser: each line is split on whitespace into at
 * least eight fields (account, currency, `%Y%m%d` booking date, balance
 * before, balance after, a second date, amount, description words); amounts
 * use a comma as decimal point. The first bad line stops the whole parse.
 *
 * Amounts are integer cents.
 */
module ReportParsers {
  import opened Wrappers
  import opened Strings
  import opened Digits
  import opened Transactions
  import opened Sequences

  /** The `ValueError`s the parser raises, each with the text it reports. */
  datatype ParseError =
    | InvalidRow(line: string)      // "Invalid transaction row: <stripped line>"
    | InvalidDate(line: string)     // "Invalid date format in row: <stripped line>"
    | InvalidNumber(text: string)   // `float()` refusing a balance or an amount

  /* ---------- parse_float ---------- */

  /** `value.replace(',', '.')`. */
  function ReplaceCommas(s: string): (r: string)
    ensures |r| == |s|
    ensures forall i :: 0 <= i < |s| ==> r[i] == (if s[i] == ',' then '.' else s[i])
  {
    seq(|s|, i requires 0 <= i < |s| => if s[i] == ',' then '.' else s[i])
  }

  /** The position of the first '.', or the length when there is none. */
  function DotIndex(s: string): (k: nat)
    ensures k <= |s| && (k < |s| ==> s[k] == '.')
    ensures forall i :: 0 <= i < k ==> s[i] != '.'
  {
    if s == [] || s[0] == '.' then 0 else 1 + DotIndex(s[1..])
  }

  /** The cents a fraction of at most two digits stands for ("5" is 50 cents). */
  function FractionCents(f: string): (c: nat)
    requires AllDigits(f) && |f| <= 2
    ensures c < 100
  {
    if |f| == 0 then 0
    else if |f| == 1 then 10 * DigitValue(f[0])
    else 10 * DigitValue(f[0]) + DigitValue(f[1])
  }

  /**
   * An unsigned decimal: digits, optionally a '.' and more digits, with at
   * least one digit in all, in cents.
   */
  function ParseUnsigned(s: string): Option<nat>
  {
    var k := DotIndex(s);
    var whole := s[..k];
    var frac := if k < |s| then s[k + 1..] else "";
    if !AllDigits(whole) || !AllDigits(frac) || |frac| > 2 then None
    else if whole == [] && frac == [] then None
    else Some(Value(whole) * 100 + FractionCents(frac))
  }

  /** `float(s)` on an optionally signed decimal, in cents. */
  function ParseDecimal(s: string): Option<int>
  {
    if s != [] && (s[0] == '-' || s[0] == '+') then
      match ParseUnsigned(s[1..])
      case None => None
      case Some(v) => var n: int := v; Some(if s[0] == '-' then -n else n)
    else
      match ParseUnsigned(s)
      case None => None
      case Some(v) => Some(v)
  }

  /** `parse_float`: `float(value.replace(',', '.'))`, in cents. */
  function ParseFloat(value: string): Option<int>
  {
    ParseDecimal(ReplaceCommas(value))
  }

  /** A comma and a dot are the same decimal point to the parser. */
  lemma CommaIsDecimalPoint(value: string)
    ensures ParseFloat(ReplaceCommas(value)) == ParseFloat(value)
  {
    assert ReplaceCommas(ReplaceCommas(value)) == ReplaceCommas(value);
  }

  /** A statement amount with a decimal comma. */
  lemma ParseFloatComma()
    ensures ParseFloat("6,30") == Some(630)
  {
    assert ReplaceCommas("6,30") == "6.30";
    assert "6.30"[..1] == "6" && "6.30"[2..] == "30" && "30"[..1] == "3";
  }

  /** A negative amount with a single decimal digit. */
  lemma ParseFloatNegative()
    ensures ParseFloat("-6,3") == Some(-630)
  {
    assert ReplaceCommas("-6,3") == "-6.3";
    assert "-6.3"[1..] == "6.3" && "6.3"[..1] == "6" && "6.3"[2..] == "3";
  }

  /** Sub-cent amounts and empty text are refused. */
  lemma ParseFloatRefused()
    ensures ParseFloat("6,305") == None
    ensures ParseFloat("") == None
  {
    assert ReplaceCommas("6,305") == "6.305";
    assert "6.305"[2..] == "305";
  }

  /** How the bank writes an amount: sign, whole units, comma, two digits of cents. */
  function FormatCents(c: int): string
  {
    var a := if c < 0 then -c else c;
    (if c < 0 then "-" else "") + Numeral(a / 100) + "," + Padded(a % 100, 2)
  }

  lemma {:induction false} DotIndexAfterDigits(w: string, rest: string)
    requires AllDigits(w) && rest != [] && rest[0] == '.'
    ensures DotIndex(w + rest) == |w|
  {
    if w != [] {
      assert (w + rest)[1..] == w[1..] + rest;
      DotIndexAfterDigits(w[1..], rest);
    } else {
      assert w + rest == rest;
    }
  }

  /** Digits and a comma-free sign are left alone by the comma replacement. */
  lemma ReplaceCommasAmount(sign: string, whole: string, cents: string)
    requires forall i :: 0 <= i < |sign| ==> sign[i] != ','
    requires AllDigits(whole) && AllDigits(cents)
    ensures ReplaceCommas(sign + whole + "," + cents) == sign + (whole + ("." + cents))
  {
    var s := sign + whole + "," + cents;
    var t := sign + (whole + ("." + cents));
    var r := ReplaceCommas(s);
    forall i | 0 <= i < |s| ensures r[i] == t[i] {
      if i < |sign| {
      } else if i < |sign| + |whole| {
        assert s[i] == whole[i - |sign|] && t[i] == whole[i - |sign|];
      } else if i == |sign| + |whole| {
      } else {
        assert s[i] == cents[i - |sign| - |whole| - 1] && t[i] == cents[i - |sign| - |whole| - 1];
      }
    }
  }

  /** Whole units, a '.' and two digits of cents are read as that many cents. */
  lemma ParseUnsignedAmount(whole: string, cents: string)
    requires AllDigits(whole) && whole != [] && AllDigits(cents) && |cents| == 2
    ensures ParseUnsigned(whole + ("." + cents)) == Some(Value(whole) * 100 + Value(cents))
  {
    var body := whole + ("." + cents);
    var k := DotIndex(body);
    assert k == |whole| && k < |body| by {
      DotIndexAfterDigits(whole, "." + cents);
    }
    assert body[..k] == whole;
    assert body[k + 1..] == cents;
    ParseUnsignedWithDot(body, k);
    assert FractionCents(cents) == Value(cents) by {
      ValueOfTwo(cents);
    }
  }

  /** A decimal with a '.' at `k`, digits before it and two digits after it. */
  lemma ParseUnsignedWithDot(s: string, k: nat)
    requires k == DotIndex(s) && k < |s| && AllDigits(s[..k]) && AllDigits(s[k + 1..]) && |s[k + 1..]| == 2
    ensures ParseUnsigned(s) == Some(Value(s[..k]) * 100 + FractionCents(s[k + 1..]))
  {
  }

  /** A '-' in front negates what the unsigned part stands for; no sign leaves it as it is. */
  lemma ParseDecimalSigned(negative: bool, body: string, a: nat)
    requires ParseUnsigned(body) == Some(a) && body != [] && IsDigit(body[0])
    ensures ParseDecimal((if negative then "-" else "") + body) == Some(if negative then -(a as int) else a as int)
  {
    if negative {
      assert ("-" + body)[0] == '-';
      assert ("-" + body)[1..] == body;
    } else {
      assert "" + body == body;
      assert body[0] != '-' && body[0] != '+';
    }
  }

  /** The unsigned part of a written amount is read back as that many cents. */
  lemma ParseUnsignedCents(a: nat)
    ensures ParseUnsigned(Numeral(a / 100) + ("." + Padded(a % 100, 2))) == Some(a)
  {
    var whole, cents := Numeral(a / 100), Padded(a % 100, 2);
    assert Value(whole) * 100 + Value(cents) == a by {
      ValueOfNumeral(a / 100);
      assert Pow10(2) == 100;
      ValueOfPadded(a % 100, 2);
    }
    assert ParseUnsigned(whole + ("." + cents)) == Some(Value(whole) * 100 + Value(cents)) by {
      ParseUnsignedAmount(whole, cents);
    }
  }

  /** Every amount the bank writes is read back as the same number of cents. */
  lemma ParseFloatFormatCents(c: int)
    ensures ParseFloat(FormatCents(c)) == Some(c)
  {
    var a := if c < 0 then -c else c;
    var sign := if c < 0 then "-" else "";
    var whole, cents := Numeral(a / 100), Padded(a % 100, 2);
    var body := whole + ("." + cents);
    assert FormatCents(c) == sign + whole + "," + cents;
    assert ReplaceCommas(FormatCents(c)) == sign + body by {
      ReplaceCommasAmount(sign, whole, cents);
    }
    ParseUnsignedCents(a);
    ParseDecimalSigned(c < 0, body, a);
  }

  /* ---------- datetime.strptime(text, "%Y%m%d") ---------- */

  /**
   * The alternatives of the month group `1[0-2]|0[1-9]|[1-9]` that match at
   * `i`, in the order the regular expression tries them: value and end.
   */
  function MonthAlternatives(s: string, i: nat): (ms: seq<(nat, nat)>)
    ensures forall k :: 0 <= k < |ms| ==> 1 <= ms[k].0 <= 12 && i < ms[k].1 <= |s|
  {
    (if i + 1 < |s| && s[i] == '1' && '0' <= s[i + 1] <= '2' then [(10 + DigitValue(s[i + 1]), i + 2)] else [])
    + (if i + 1 < |s| && s[i] == '0' && '1' <= s[i + 1] <= '9' then [(DigitValue(s[i + 1]), i + 2)] else [])
    + (if i < |s| && '1' <= s[i] <= '9' then [(DigitValue(s[i]), i + 1)] else [])
  }

  /**
   * The alternatives of the day group `3[01]|[12]\d|0[1-9]|[1-9]| [1-9]`
   * that match at `i`, in order: value and end.
   */
  function DayAlternatives(s: string, i: nat): (ds: seq<(nat, nat)>)
    ensures forall k :: 0 <= k < |ds| ==> 1 <= ds[k].0 <= 31 && i < ds[k].1 <= |s|
  {
    (if i + 1 < |s| && s[i] == '3' && '0' <= s[i + 1] <= '1' then [(30 + DigitValue(s[i + 1]), i + 2)] else [])
    + (if i + 1 < |s| && '1' <= s[i] <= '2' && IsDigit(s[i + 1]) then [(10 * DigitValue(s[i]) + DigitValue(s[i + 1]), i + 2)] else [])
    + (if i + 1 < |s| && s[i] == '0' && '1' <= s[i + 1] <= '9' then [(DigitValue(s[i + 1]), i + 2)] else [])
    + (if i < |s| && '1' <= s[i] <= '9' then [(DigitValue(s[i]), i + 1)] else [])
    + (if i + 1 < |s| && s[i] == ' ' && '1' <= s[i + 1] <= '9' then [(DigitValue(s[i + 1]), i + 2)] else [])
  }

  /**
   * The match `re.match` finds: the first month alternative after which some
   * day alternative matches, with the first such day alternative.
   */
  function FirstMonthDay(s: string, ms: seq<(nat, nat)>): (r: Option<(nat, nat, nat)>)
    requires forall k :: 0 <= k < |ms| ==> ms[k].1 <= |s|
    ensures r.Some? ==> exists k :: 0 <= k < |ms| && r.value.0 == ms[k].0
    ensures r.Some? ==> 1 <= r.value.1 <= 31 && r.value.2 <= |s|
  {
    if ms == [] then None
    else
      var ds := DayAlternatives(s, ms[0].1);
      if ds != [] then Some((ms[0].0, ds[0].0, ds[0].1))
      else FirstMonthDay(s, ms[1..])
  }

  /**
   * `datetime.strptime(text, "%Y%m%d").date()`: four digits of year, then
   * the month and day groups; the match must use the whole text and name a
   * real date, or `ValueError` is raised.
   */
  function ParseYmd(text: string): (r: Option<Date>)
    ensures r.Some? ==> ValidDate(r.value)
  {
    if |text| < 4 || !AllDigits(text[..4]) then None
    else
      var ms := MonthAlternatives(text, 4);
      match FirstMonthDay(text, ms)
      case None => None
      case Some((m, d, end)) =>
        var date := Date(Value(text[..4]), m, d);
        if end != |text| || !ValidDate(date) then None else Some(date)
  }

  /** A date written with four, two and two digits. */
  function FormatYmd(d: Date): (s: string)
    requires ValidDate(d)
    ensures |s| == 8 && AllDigits(s)
  {
    Padded(d.year, 4) + Padded(d.month, 2) + Padded(d.day, 2)
  }

  /** A day past the end of its month is refused, as `date()` refuses it. */
  lemma ParseYmdDayPastMonthEnd()
    ensures ParseYmd("20250230") == None
  {
    var feb30 := "20250230";
    assert feb30[..4] == "2025";
    assert Value("2025") == 2025 by {
      assert "2025"[..3] == "202" && "202"[..2] == "20" && "20"[..1] == "2" && "2"[..0] == "";
    }
    assert MonthAlternatives(feb30, 4) == [(2, 6)];
    assert DayAlternatives(feb30, 6) == [(30, 8), (3, 7)];
  }

  /** Year 0 is refused, as `date()` refuses it. */
  lemma ParseYmdYearZero()
    ensures ParseYmd("00000101") == None
  {
    var zero := "00000101";
    assert zero[..4] == "0000";
    assert Value("0000") == 0 by {
      assert "0000"[..3] == "000" && "000"[..2] == "00" && "00"[..1] == "0" && "0"[..0] == "";
    }
    assert MonthAlternatives(zero, 4) == [(1, 6)];
    assert DayAlternatives(zero, 6) == [(1, 8)];
  }

  /** Text after a complete match is "unconverted data": the parse fails. */
  lemma ParseYmdTrailing()
    ensures ParseYmd("202501031") == None
  {
    var s := "202501031";
    assert MonthAlternatives(s, 4) == [(1, 6)];
    assert DayAlternatives(s, 6) == [(3, 8)];
  }

  /** A two-digit month is matched whole by the first alternative that applies. */
  lemma MonthTwoDigits(s: string, i: nat, m: nat)
    requires i + 1 < |s| && IsDigit(s[i]) && IsDigit(s[i + 1])
    requires m == 10 * DigitValue(s[i]) + DigitValue(s[i + 1]) && 1 <= m <= 12
    ensures MonthAlternatives(s, i) != [] && MonthAlternatives(s, i)[0] == (m, i + 2)
  {
  }

  /** A two-digit day is matched whole by the first alternative that applies. */
  lemma DayTwoDigits(s: string, i: nat, d: nat)
    requires i + 1 < |s| && IsDigit(s[i]) && IsDigit(s[i + 1])
    requires d == 10 * DigitValue(s[i]) + DigitValue(s[i + 1]) && 1 <= d <= 31
    ensures DayAlternatives(s, i) != [] && DayAlternatives(s, i)[0] == (d, i + 2)
  {
  }

  /** A date written in full `YYYYMMDD` form is read back unchanged. */
  lemma ParseYmdFormat(d: Date)
    requires ValidDate(d)
    ensures ParseYmd(FormatYmd(d)) == Some(d)
  {
    var y, m, dd := Padded(d.year, 4), Padded(d.month, 2), Padded(d.day, 2);
    var s := FormatYmd(d);
    assert s == y + m + dd;
    assert s[..4] == y;
    assert s[4] == m[0] && s[5] == m[1] && s[6] == dd[0] && s[7] == dd[1];
    ValueOfPadded(d.year, 4);
    ValueOfPadded(d.month, 2);
    ValueOfPadded(d.day, 2);
    ValueOfTwo(m);
    ValueOfTwo(dd);
    MonthTwoDigits(s, 4, d.month);
    DayTwoDigits(s, 6, d.day);
    assert FirstMonthDay(s, MonthAlternatives(s, 4)) == Some((d.month, d.day, 8));
  }

  /** Without padding the month is read greedily: "2025113" is 3 November. */
  lemma ParseYmdUnpadded()
    ensures ParseYmd("2025113") == Some(Date(2025, 11, 3))
  {
    var s := "2025113";
    assert s[..4] == "2025";
    assert Value("2025") == 2025 by {
      assert "2025"[..3] == "202" && "202"[..2] == "20" && "20"[..1] == "2" && "2"[..0] == "";
    }
    assert MonthAlternatives(s, 4) == [(11, 6), (1, 5)];
    assert DayAlternatives(s, 6) == [(3, 7)];
  }

  /** A date with dashes is refused. */
  lemma ParseYmdDashes()
    ensures ParseYmd("2025-01-03") == None
  {
    var s := "2025-01-03";
    assert MonthAlternatives(s, 4) == [];
  }

  /* ---------- parse_abn_amro_transactions ---------- */

  /**
   * One line of the statement. The record has no sender or receiver (the
   * parser does not fill them), so both are left empty.
   */
  function ParseLine(line: string): Result<Transaction, ParseError>
  {
    var parts := Split(line);
    if |parts| < 8 then Failure(InvalidRow(Strip(line)))
    else
      match ParseYmd(parts[2])
      case None => Failure(InvalidDate(Strip(line)))
      case Some(date) =>
        match ParseFloat(parts[3])
        case None => Failure(InvalidNumber(parts[3]))
        case Some(before) =>
          match ParseFloat(parts[4])
          case None => Failure(InvalidNumber(parts[4]))
          case Some(after) =>
            match ParseFloat(parts[6])
            case None => Failure(InvalidNumber(parts[6]))
            case Some(amount) =>
              Success(Transaction(parts[0], parts[1], date, before, after, amount, Join(parts[7..], " "), "", ""))
  }

  /** How the bank writes a row for `t`, with `other` as the ignored sixth field. */
  function FormatLine(t: Transaction, other: string): string
    requires ValidDate(t.date)
  {
    Join(Fields(t, other), " ")
  }

  /** An amount as the bank writes it is one whitespace-free field. */
  lemma AmountIsWord(c: int)
    ensures IsWord(FormatCents(c))
  {
    var a := if c < 0 then -c else c;
    var sign := if c < 0 then "-" else "";
    var whole, cents := Numeral(a / 100), Padded(a % 100, 2);
    var s := FormatCents(c);
    assert s == sign + whole + "," + cents;
    forall i | 0 <= i < |s| ensures !IsSpace(s[i]) {
      if |sign| <= i < |sign| + |whole| {
        assert s[i] == whole[i - |sign|];
      } else if i > |sign| + |whole| {
        assert s[i] == cents[i - |sign| - |whole| - 1];
      }
    }
  }

  lemma DigitsAreWord(s: string)
    requires AllDigits(s) && s != []
    ensures IsWord(s)
  {
    forall i | 0 <= i < |s| ensures !IsSpace(s[i]) {
      assert IsDigit(s[i]);
    }
  }

  /** The fields of a row written from `t`, in order. */
  function Fields(t: Transaction, other: string): seq<string>
    requires ValidDate(t.date)
  {
    [t.accountNumber, t.currency, FormatYmd(t.date), FormatCents(t.balanceBefore),
     FormatCents(t.balanceAfter), other, FormatCents(t.amount)] + Split(t.description)
  }

  /** Splitting a written row gives back its fields. */
  lemma SplitFormatLine(t: Transaction, other: string)
    requires ValidDate(t.date)
    requires IsWord(t.accountNumber) && IsWord(t.currency) && IsWord(other)
    ensures Split(FormatLine(t, other)) == Fields(t, other)
  {
    AmountIsWord(t.balanceBefore);
    AmountIsWord(t.balanceAfter);
    AmountIsWord(t.amount);
    var date := FormatYmd(t.date);
    DigitsAreWord(date);
    var head := [t.accountNumber, t.currency, date, FormatCents(t.balanceBefore),
                 FormatCents(t.balanceAfter), other, FormatCents(t.amount)];
    WordsAppend(head, Split(t.description));
    SplitJoin(head + Split(t.description));
  }

  /**
   * Field mapping: a line whose fields are those written from a transaction
   * (a description that is its own words joined by single spaces, and no
   * sender or receiver) is parsed back to that transaction, however the
   * fields are spaced.
   */
  lemma ParseLineFields(t: Transaction, other: string, line: string)
    requires ValidDate(t.date)
    requires Split(t.description) != [] && Join(Split(t.description), " ") == t.description
    requires t.sender == "" && t.receiver == ""
    requires Split(line) == Fields(t, other)
    ensures ParseLine(line) == Success(t)
  {
    var parts := Split(line);
    assert |parts| >= 8 && parts[0] == t.accountNumber && parts[1] == t.currency &&
      parts[2] == FormatYmd(t.date) && parts[3] == FormatCents(t.balanceBefore) &&
      parts[4] == FormatCents(t.balanceAfter) && parts[6] == FormatCents(t.amount) &&
      parts[7..] == Split(t.description) by {
      FieldsAt([t.accountNumber, t.currency, FormatYmd(t.date), FormatCents(t.balanceBefore),
                FormatCents(t.balanceAfter), other, FormatCents(t.amount)], Split(t.description));
    }
    ParseYmdFormat(t.date);
    ParseFloatFormatCents(t.balanceBefore);
    ParseFloatFormatCents(t.balanceAfter);
    ParseFloatFormatCents(t.amount);
    ParseLineOf(line, t.date, t.balanceBefore, t.balanceAfter, t.amount);
  }

  /** A row written from a transaction is parsed back to that transaction. */
  lemma ParseLineFormat(t: Transaction, other: string)
    requires ValidDate(t.date)
    requires IsWord(t.accountNumber) && IsWord(t.currency) && IsWord(other)
    requires Split(t.description) != [] && Join(Split(t.description), " ") == t.description
    requires t.sender == "" && t.receiver == ""
    ensures ParseLine(FormatLine(t, other)) == Success(t)
  {
    SplitFormatLine(t, other);
    ParseLineFields(t, other, FormatLine(t, other));
  }

  lemma FieldsAt(head: seq<string>, tail: seq<string>)
    requires |head| == 7
    ensures var ws := head + tail;
      ws[0] == head[0] && ws[1] == head[1] && ws[2] == head[2] && ws[3] == head[3] &&
      ws[4] == head[4] && ws[6] == head[6] && ws[7..] == tail
  {
  }

  /** A row of eight or more fields whose date and amounts parse is read field by field. */
  lemma ParseLineOf(line: string, date: Date, before: int, after: int, amount: int)
    requires |Split(line)| >= 8
    requires ParseYmd(Split(line)[2]) == Some(date)
    requires ParseFloat(Split(line)[3]) == Some(before) && ParseFloat(Split(line)[4]) == Some(after)
    requires ParseFloat(Split(line)[6]) == Some(amount)
    ensures var parts := Split(line);
      ParseLine(line) == Success(Transaction(parts[0], parts[1], date, before, after, amount, Join(parts[7..], " "), "", ""))
  {
  }

  /** A line with fewer than eight fields, a blank one included, is refused as a row. */
  lemma ShortLineRejected(line: string)
    requires |Split(line)| < 8
    ensures ParseLine(line) == Failure(InvalidRow(Strip(line)))
  {
  }

  /**
   * However the fields of a row are spaced, it parses as the same fields
   * joined by single spaces do; the description is its words joined by
   * single spaces, whatever whitespace separated them.
   */
  lemma ParseLineSpaced(ws: seq<string>, gaps: seq<string>)
    requires Gapped(ws, gaps)
    ensures ParseLine(Spaced(ws, gaps)).Success? <==> ParseLine(Join(ws, " ")).Success?
    ensures ParseLine(Spaced(ws, gaps)).Success? ==>
      |ws| >= 8 && ParseLine(Spaced(ws, gaps)) == ParseLine(Join(ws, " ")) &&
      ParseLine(Spaced(ws, gaps)).value.description == Join(ws[7..], " ")
  {
    SplitSpaced(ws, gaps);
    SplitJoin(ws);
    ParseLineSameFields(Spaced(ws, gaps), Join(ws, " "));
  }

  /**
   * Only the fields of a line decide whether and to what it parses; the
   * description is its words joined by single spaces.
   */
  lemma ParseLineSameFields(a: string, b: string)
    requires Split(a) == Split(b)
    ensures ParseLine(a).Success? <==> ParseLine(b).Success?
    ensures ParseLine(a).Success? ==>
      ParseLine(a) == ParseLine(b) && ParseLine(a).value.description == Join(Split(a)[7..], " ")
  {
    ParseLineSucceeds(a);
    ParseLineSucceeds(b);
    var p := Split(a);
    if ParseLine(a).Success? {
      ParseLineOf(a, ParseYmd(p[2]).value, ParseFloat(p[3]).value, ParseFloat(p[4]).value, ParseFloat(p[6]).value);
      ParseLineOf(b, ParseYmd(p[2]).value, ParseFloat(p[3]).value, ParseFloat(p[4]).value, ParseFloat(p[6]).value);
    }
  }

  /** A line parses exactly when it has eight fields or more, its third is a date and its fourth, fifth and seventh are numbers. */
  lemma ParseLineSucceeds(line: string)
    ensures var parts := Split(line);
      ParseLine(line).Success? <==>
        |parts| >= 8 && ParseYmd(parts[2]).Some? &&
        ParseFloat(parts[3]).Some? && ParseFloat(parts[4]).Some? && ParseFloat(parts[6]).Some?
  {
  }

  /** A row whose third field is not a `%Y%m%d` date is refused with the date error, before any amount is read. */
  lemma BadDateRejected(line: string)
    requires |Split(line)| >= 8 && ParseYmd(Split(line)[2]) == None
    ensures ParseLine(line) == Failure(InvalidDate(Strip(line)))
  {
  }

  /** What each line parses to, in line order. */
  function Results(lines: seq<string>): (rs: seq<Result<Transaction, ParseError>>)
    ensures |rs| == |lines|
    ensures forall i :: 0 <= i < |lines| ==> rs[i] == ParseLine(lines[i])
  {
    seq(|lines|, i requires 0 <= i < |lines| => ParseLine(lines[i]))
  }

  /**
   * Line results gathered the way the parser's loop gathers them: the
   * transactions in order, or the first error, which ends the parse.
   */
  function Collect(rs: seq<Result<Transaction, ParseError>>): Result<seq<Transaction>, ParseError>
  {
    if rs == [] then Success([])
    else
      match Collect(rs[..|rs| - 1])
      case Failure(e) => Failure(e)
      case Success(ts) =>
        match rs[|rs| - 1]
        case Failure(e) => Failure(e)
        case Success(t) => Success(ts + [t])
  }

  /** `parse_abn_amro_transactions` on the lines of a file. */
  function ParseAll(lines: seq<string>): Result<seq<Transaction>, ParseError>
  {
    Collect(Results(lines))
  }

  predicate AllSucceed(rs: seq<Result<Transaction, ParseError>>)
  {
    forall i :: 0 <= i < |rs| ==> rs[i].Success?
  }

  /**
   * The gathered results succeed exactly when every line's result does, and
   * then hold each line's transaction at that line's position; otherwise
   * they fail with the error of the first bad line.
   */
  lemma {:induction false} CollectMeaning(rs: seq<Result<Transaction, ParseError>>)
    ensures Collect(rs).Success? <==> AllSucceed(rs)
    ensures Collect(rs).Success? ==>
      |Collect(rs).value| == |rs| && forall i :: 0 <= i < |rs| ==> rs[i] == Success(Collect(rs).value[i])
    ensures Collect(rs).Failure? ==>
      exists i :: 0 <= i < |rs| && AllSucceed(rs[..i]) && rs[i] == Failure(Collect(rs).error)
  {
    if rs != [] {
      var init := rs[..|rs| - 1];
      CollectMeaning(init);
      assert forall i :: 0 <= i < |init| ==> init[i] == rs[i];
      if Collect(init).Failure? {
        var i :| 0 <= i < |init| && AllSucceed(init[..i]) && init[i] == Failure(Collect(init).error);
        assert init[..i] == rs[..i];
      }
    }
  }

  lemma {:induction false} CollectSticks(rs: seq<Result<Transaction, ParseError>>, n: nat)
    requires n <= |rs| && Collect(rs[..n]).Failure?
    ensures Collect(rs) == Collect(rs[..n])
    decreases |rs| - n
  {
    if n == |rs| {
      assert rs[..n] == rs;
    } else {
      assert rs[..n + 1][..n] == rs[..n];
      CollectSticks(rs, n + 1);
    }
  }

  /** One more line result: a failure is the final answer, a success is appended. */
  lemma CollectStep(rs: seq<Result<Transaction, ParseError>>, i: nat, ts: seq<Transaction>)
    requires i < |rs| && Collect(rs[..i]) == Success(ts)
    ensures rs[i].Failure? ==> Collect(rs) == Failure(rs[i].error)
    ensures rs[i].Success? ==> Collect(rs[..i + 1]) == Success(ts + [rs[i].value])
  {
    TakeOneMore(rs, i);
    if rs[i].Failure? {
      CollectSticks(rs, i + 1);
    }
  }

  /** The loop of `parse_abn_amro_transactions` over the lines of the file. */
  method ParseAbnAmroTransactions(lines: seq<string>) returns (r: Result<seq<Transaction>, ParseError>)
    ensures r == ParseAll(lines)
  {
    ghost var rs := Results(lines);
    var transactions := [];
    var i := 0;
    while i < |lines|
      invariant 0 <= i <= |lines|
      invariant Collect(rs[..i]) == Success(transactions)
    {
      var parsed := ParseLine(lines[i]);
      CollectStep(rs, i, transactions);
      if parsed.Failure? {
        return Failure(parsed.error);
      }
      transactions := transactions + [parsed.value];
      i := i + 1;
    }
    assert rs[..i] == rs;
    return Success(transactions);
  }
}
