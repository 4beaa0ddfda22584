/** `_utils.py`: the SQLite date adapter and converter, and the exception-swallowing
    decorator the scripts put on their per-item coroutines. */
module Utils {

  import opened Wrappers
  import opened Text

  newtype byte = x: int | 0 <= x < 256

  /** A `datetime.date`. */
  datatype Date = Date(year: int, month: int, day: int)

  predicate IsLeap(year: int) {
    year % 4 == 0 && (year % 100 != 0 || year % 400 == 0)
  }

  function DaysInMonth(year: int, month: int): (n: int)
    requires 1 <= month <= 12
    ensures 28 <= n <= 31
  {
    if month == 2 then (if IsLeap(year) then 29 else 28)
    else if month == 4 || month == 6 || month == 9 || month == 11 then 30
    else 31
  }

  /** The dates `datetime.date` accepts (`MINYEAR` 1 to `MAXYEAR` 9999). */
  predicate ValidDate(d: Date) {
    1 <= d.year <= 9999 && 1 <= d.month <= 12 && 1 <= d.day <= DaysInMonth(d.year, d.month)
  }

  function Digits(n: nat, width: nat): (s: string)
    ensures |s| == if |NatStr(n)| >= width then |NatStr(n)| else width
    ensures AllDigits(s)
  {
    PadLeft(NatStr(n), width, '0')
  }

  /** `adapt_date`: `date.isoformat()`, the full-date form `YYYY-MM-DD` of section 5.6 of
      RFC 3339 (four-digit year, two-digit month and day, zero-padded). */
  function AdaptDate(d: Date): (s: string)
    requires ValidDate(d)
    ensures |s| == 10 && s[4] == '-' && s[7] == '-'
    ensures AllDigits(s[..4]) && AllDigits(s[5..7]) && AllDigits(s[8..])
    ensures DigitsValue(s[..4]) == d.year && DigitsValue(s[5..7]) == d.month && DigitsValue(s[8..]) == d.day
  {
    FixedWidthDigits(d.year, 4);
    FixedWidthDigits(d.month, 2);
    FixedWidthDigits(d.day, 2);
    var s := Digits(d.year, 4) + "-" + Digits(d.month, 2) + "-" + Digits(d.day, 2);
    assert s[..4] == Digits(d.year, 4) && s[5..7] == Digits(d.month, 2) && s[8..] == Digits(d.day, 2);
    s
  }

  /** A number below `10^width` padded with zeros to `width` digits keeps its value. */
  lemma FixedWidthDigits(n: nat, width: nat)
    requires width >= 1 && n < Pow10(width)
    ensures |Digits(n, width)| == width && DigitsValue(Digits(n, width)) == n
  {
    NatStrLength(n, width);
    DigitsValueOfNatStr(n);
    LeadingZeros(NatStr(n), width - |NatStr(n)|);
  }

  function Pow10(k: nat): (p: nat)
    ensures p >= 1
  {
    if k == 0 then 1 else 10 * Pow10(k - 1)
  }

  lemma {:induction false} NatStrLength(n: nat, width: nat)
    requires width >= 1 && n < Pow10(width)
    ensures |NatStr(n)| <= width
    decreases width
  {
    if n >= 10 {
      NatStrLength(n / 10, width - 1);
    }
  }

  /** Zeros in front of a digit string do not change its value. */
  lemma {:induction false} LeadingZeros(s: string, k: nat)
    requires AllDigits(s)
    ensures AllDigits(Repeat('0', k) + s) && DigitsValue(Repeat('0', k) + s) == DigitsValue(s)
    decreases |s|
  {
    var t := Repeat('0', k) + s;
    if s == [] {
      assert t == Repeat('0', k);
      AllZeros(k);
    } else {
      LeadingZeros(s[..|s| - 1], k);
      assert t[..|t| - 1] == Repeat('0', k) + s[..|s| - 1];
    }
  }

  lemma {:induction false} AllZeros(k: nat)
    ensures DigitsValue(Repeat('0', k)) == 0
    decreases k
  {
    if k > 0 {
      var z := Repeat('0', k);
      assert z[..k - 1] == Repeat('0', k - 1);
      AllZeros(k - 1);
    }
  }

  datatype DateError =
    | NotAscii       // `UnicodeDecodeError` from `s.decode("ascii")`
    | FormatMismatch // "time data ... does not match format '%Y-%m-%d'"
    | Unconverted    // "unconverted data remains"
    | OutOfRange     // a matched year, month and day that form no date

  /** One alternative of a `_strptime` directive: the characters it consumed. */
  function MatchAt(s: string, i: nat, pattern: seq<set<char>>): (matched: bool)
    requires i <= |s|
  {
    i + |pattern| <= |s| && forall k :: 0 <= k < |pattern| ==> s[i + k] in pattern[k]
  }

  const D: set<char> := {'0', '1', '2', '3', '4', '5', '6', '7', '8', '9'}
  const D1: set<char> := D - {'0'}

  /** The alternatives of `%m` and of `%d` in `_strptime`, in the order the regular
      expression tries them. */
  const MonthAlternatives: seq<seq<set<char>>> := [[{'1'}, {'0', '1', '2'}], [{'0'}, D1], [D1]]
  const DayAlternatives: seq<seq<set<char>>> := [[{'3'}, {'0', '1'}], [{'1', '2'}, D], [{'0'}, D1], [D1], [{' '}, D1]]

  /** The length of the first alternative that matches at `i`, if any. */
  function FirstMatch(s: string, i: nat, alternatives: seq<seq<set<char>>>): (n: Option<nat>)
    requires i <= |s|
    ensures n.Some? ==> i + n.value <= |s|
    decreases |alternatives|
  {
    if alternatives == [] then None
    else if MatchAt(s, i, alternatives[0]) then Some(|alternatives[0]|)
    else FirstMatch(s, i, alternatives[1..])
  }

  /** The value of a matched field, ignoring the space `%d` allows in front of a digit. */
  function FieldValue(s: string): nat {
    if s == [] then 0
    else FieldValue(s[..|s| - 1]) * 10 + (if IsDigit(s[|s| - 1]) then DigitValue(s[|s| - 1]) else 0)
  }

  /** `datetime.strptime(text, "%Y-%m-%d").date()`: the format's regular expression
      matched at the start (four digits, a dash, a month, a dash, a day), the rest of the
      text required to be empty, and the fields required to form a date. */
  function Strptime(text: string): (r: Result<Date, DateError>)
    ensures r.Ok? ==> ValidDate(r.value)
  {
    if !(5 <= |text| && AllDigits(text[..4]) && text[4] == '-') then Err(FormatMismatch)
    else
      var m := FirstMatch(text, 5, MonthAlternatives);
      if m.None? || 5 + m.value >= |text| || text[5 + m.value] != '-' then Err(FormatMismatch)
      else
        var dStart := 6 + m.value;
        var d := FirstMatch(text, dStart, DayAlternatives);
        if d.None? then Err(FormatMismatch)
        else if dStart + d.value != |text| then Err(Unconverted)
        else
          var date := Date(DigitsValue(text[..4]), FieldValue(text[5..5 + m.value]), FieldValue(text[dStart..dStart + d.value]));
          if ValidDate(date) then Ok(date) else Err(OutOfRange)
  }

  /** `convert_date`: ASCII-decode the stored bytes, then parse them. */
  function ConvertDate(b: seq<byte>): (r: Result<Date, DateError>)
    ensures (exists k :: 0 <= k < |b| && b[k] >= 128) ==> r == Err(NotAscii)
    ensures r.Ok? ==> ValidDate(r.value)
  {
    if exists k :: 0 <= k < |b| && b[k] >= 128 then Err(NotAscii)
    else Strptime(seq(|b|, k requires 0 <= k < |b| => b[k] as char))
  }

  function Encode(s: string): seq<byte>
    requires forall k :: 0 <= k < |s| ==> s[k] as int < 128
  {
    seq(|s|, k requires 0 <= k < |s| => s[k] as int as byte)
  }

  /** Every valid date survives the trip through the database: adapted to text, stored as
      ASCII bytes and converted back, it is the same date. */
  lemma DateRoundTrip(d: Date)
    requires ValidDate(d)
    ensures var s := AdaptDate(d);
      (forall k :: 0 <= k < |s| ==> s[k] as int < 128) && ConvertDate(Encode(s)) == Ok(d)
  {
    var s := AdaptDate(d);
    assert forall k :: 0 <= k < |s| ==> s[k] as int < 128 by {
      forall k | 0 <= k < |s| ensures s[k] as int < 128 {
        if k != 4 && k != 7 {
          if k < 4 { assert s[..4][k] == s[k]; }
          else if k < 7 { assert s[5..7][k - 5] == s[k]; }
          else { assert s[8..][k - 8] == s[k]; }
        }
      }
    }
    var b := Encode(s);
    var t := seq(|b|, k requires 0 <= k < |b| => b[k] as char);
    assert t == s;
    assert !(exists k :: 0 <= k < |b| && b[k] >= 128);
    MonthMatch(s, d.month);
    DayMatch(s, d.day);
  }

  /** The two characters of a two-digit field, by value. */
  lemma TwoDigits(f: string)
    requires |f| == 2 && AllDigits(f)
    ensures DigitsValue(f) == DigitValue(f[0]) * 10 + DigitValue(f[1])
    ensures FieldValue(f) == DigitsValue(f)
  {
    assert f[..1][..0] == [] && f[..1][0] == f[0];
    assert f[..|f| - 1] == f[..1];
    assert DigitsValue(f[..1]) == DigitValue(f[0]);
    assert FieldValue(f[..1]) == DigitValue(f[0]);
  }

  lemma CharOfValue(c: char, v: nat)
    requires IsDigit(c) && DigitValue(c) == v
    ensures c as int == '0' as int + v
  {
  }

  lemma MonthMatch(s: string, month: int)
    requires |s| == 10 && s[7] == '-' && AllDigits(s[5..7]) && DigitsValue(s[5..7]) == month && 1 <= month <= 12
    ensures FirstMatch(s, 5, MonthAlternatives) == Some(2)
    ensures FieldValue(s[5..7]) == month
  {
    var f := s[5..7];
    TwoDigits(f);
    assert s[5] == f[0] && s[6] == f[1];
    CharOfValue(f[0], DigitValue(f[0]));
    CharOfValue(f[1], DigitValue(f[1]));
    if month >= 10 {
      assert s[5] == '1';
      assert s[6] == '0' || s[6] == '1' || s[6] == '2';
      assert MatchAt(s, 5, MonthAlternatives[0]);
    } else {
      assert s[5] == '0';
      assert s[6] in D1;
      assert s[5 + 0] !in MonthAlternatives[0][0];
      assert MatchAt(s, 5, MonthAlternatives[1]);
      assert MonthAlternatives[1..][0] == MonthAlternatives[1];
    }
  }

  lemma DayMatch(s: string, day: int)
    requires |s| == 10 && AllDigits(s[8..]) && DigitsValue(s[8..]) == day && 1 <= day <= 31
    ensures FirstMatch(s, 8, DayAlternatives) == Some(2)
    ensures FieldValue(s[8..10]) == day
  {
    var f := s[8..];
    TwoDigits(f);
    assert s[8] == f[0] && s[9] == f[1];
    assert s[8..10] == f;
    CharOfValue(f[0], DigitValue(f[0]));
    CharOfValue(f[1], DigitValue(f[1]));
    assert s[9] in D;
    if day >= 30 {
      assert s[8] == '3';
      assert s[9] == '0' || s[9] == '1';
      assert MatchAt(s, 8, DayAlternatives[0]);
    } else if day >= 10 {
      assert s[8] == '1' || s[8] == '2';
      assert s[8 + 0] !in DayAlternatives[0][0];
      assert MatchAt(s, 8, DayAlternatives[1]);
      assert DayAlternatives[1..][0] == DayAlternatives[1];
    } else {
      assert s[8] == '0';
      assert s[9] in D1;
      assert s[8 + 0] !in DayAlternatives[0][0];
      assert s[8 + 0] !in DayAlternatives[1][0];
      assert DayAlternatives[1..][1..] == DayAlternatives[2..];
      assert MatchAt(s, 8, DayAlternatives[2]);
      assert FirstMatch(s, 8, DayAlternatives[2..]) == Some(2);
      assert FirstMatch(s, 8, DayAlternatives[1..]) == Some(2);
    }
  }

  /** How a coroutine ended: with a value, with an `Exception`, or with a `BaseException`
      that is not an `Exception` (cancellation, keyboard interrupt). */
  datatype Completion<T> = Value(value: T) | RaisedException(message: string) | RaisedBaseException(message: string)

  /** What the decorated coroutine does: its value, or `None` with the error logged, or
      the base exception passed on. */
  datatype Handled<T> = Handled(completion: Completion<Option<T>>, logged: Option<string>)

  /** `handle_exceptions(f)` applied to the way `f` ended. */
  function HandleExceptions<T>(c: Completion<T>): (h: Handled<T>)
    ensures c.Value? ==> h == Handled(Value(Some(c.value)), None)
    ensures c.RaisedException? ==> h.completion == Value(None) && h.logged.Some?
    ensures c.RaisedBaseException? ==> h.completion == RaisedBaseException(c.message) && h.logged.None?
    ensures !h.completion.RaisedException?
  {
    match c
    case Value(v) => Handled(Value(Some(v)), None)
    case RaisedException(m) => Handled(Value(None), Some(m))
    case RaisedBaseException(m) => Handled(RaisedBaseException(m), None)
  }
}
