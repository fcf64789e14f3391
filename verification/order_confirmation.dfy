/** The order confirmation page (`app/product/vessel/order-confirmation/page.tsx`):
    the guard, the tracking dates it derives from today, and the labels it
    prints for them ("Mon, 21st Oct"). Calendar arithmetic is on day numbers;
    the weekday and month names come from the locale and are inputs. */
module OrderConfirmation {
  import opened Wrappers
  import opened Guard
  import Routes
  import SignIn
  import Middleware

  /** Logged out: to the bare sign-in page. No navigating button. */
  const Spec: PageSpec := PageSpec(Routes.OrderConfirmation, Routes.SignInPath, None)

  /** No return is carried: sign-in lands on the home page. */
  lemma SignInReturnsHome()
    ensures SignIn.RedirectTarget(SignIn.QueryOf(Spec.loggedOutTarget, Routes.SignInPath)) == Routes.Home
  {
  }

  /** Under `/product`, so the gate never stops it. */
  lemma OnlyTheClientGuardProtects(cookies: map<string, string>)
    ensures Middleware.Gate(Spec.route, cookies) == Middleware.Next
  {
    Middleware.ProductSubtreeIsPublic(Spec.route);
  }

  // ---------------------------------------------------------------------
  // Ordinal suffixes

  /** JavaScript's `%`: the remainder takes the sign of the dividend. */
  function JsRem(a: int, b: int): (r: int)
    requires b > 0
    ensures a >= 0 ==> 0 <= r < b
    ensures a < 0 ==> -b < r <= 0
    ensures a >= 0 ==> r == a % b
    ensures a < 0 ==> r == -((-a) % b)
  {
    if a >= 0 then a % b else -((-a) % b)
  }

  /** `getDaySuffix`: `th` from 4 to 20, otherwise by the last digit. */
  function DaySuffix(day: int): (r: string)
    ensures r == "st" || r == "nd" || r == "rd" || r == "th"
    ensures |r| == 2 && !IsDigit(r[0])
    ensures 3 < day < 21 ==> r == "th"
  {
    if day > 3 && day < 21 then "th"
    else
      match JsRem(day, 10)
      case 1 => "st"
      case 2 => "nd"
      case 3 => "rd"
      case _ => "th"
  }

  /** The English ordinal suffix of a positive number: `th` for numbers
      ending in 11, 12 or 13, otherwise by the last digit. */
  function OrdinalSuffix(n: nat): string {
    if 11 <= n % 100 <= 13 then "th"
    else if n % 10 == 1 then "st"
    else if n % 10 == 2 then "nd"
    else if n % 10 == 3 then "rd"
    else "th"
  }

  /** On every day of a month the page's rule is the English one. */
  lemma DaySuffixIsOrdinal(day: int)
    requires 1 <= day <= 31
    ensures DaySuffix(day) == OrdinalSuffix(day)
  {
    if day <= 3 {
      assert JsRem(day, 10) == day && day % 100 == day;
    } else if day < 21 {
    } else {
      assert JsRem(day, 10) == day % 10 && day % 100 == day;
    }
  }

  lemma DaySuffixExamples()
    ensures DaySuffix(1) == "st" && DaySuffix(21) == "st" && DaySuffix(31) == "st"
    ensures DaySuffix(2) == "nd" && DaySuffix(22) == "nd"
    ensures DaySuffix(3) == "rd" && DaySuffix(23) == "rd"
    ensures DaySuffix(11) == "th" && DaySuffix(12) == "th" && DaySuffix(13) == "th"
  {
  }

  /** The rule only covers days of a month: past 100 it parts from English. */
  lemma DaySuffixBeyondMonths()
    ensures DaySuffix(111) == "st" && OrdinalSuffix(111) == "th"
  {
  }

  // ---------------------------------------------------------------------
  // Decimal numerals

  predicate IsDigit(c: char) {
    '0' <= c <= '9'
  }

  function Digit(d: nat): (c: char)
    requires d < 10
    ensures IsDigit(c) && c as int - '0' as int == d
  {
    ('0' as int + d) as char
  }

  /** `${day}`: the decimal numeral of a number, without leading zeros. */
  function Decimal(n: nat): (s: string)
    ensures 1 <= |s|
    ensures forall i :: 0 <= i < |s| ==> IsDigit(s[i])
    ensures |s| > 1 ==> s[0] != '0'
  {
    if n < 10 then [Digit(n)] else Decimal(n / 10) + [Digit(n % 10)]
  }

  function DigitValue(c: char): (d: nat)
    requires IsDigit(c)
    ensures d < 10 && Digit(d) == c
  {
    c as int - '0' as int
  }

  /** The value of a string of digits. */
  function DecimalValue(s: string): nat
    requires forall i :: 0 <= i < |s| ==> IsDigit(s[i])
  {
    if s == [] then 0 else 10 * DecimalValue(s[..|s| - 1]) + DigitValue(s[|s| - 1])
  }

  lemma {:induction false} DecimalRoundTrip(n: nat)
    ensures DecimalValue(Decimal(n)) == n
  {
    var s := Decimal(n);
    if n >= 10 {
      assert s[..|s| - 1] == Decimal(n / 10);
      DecimalRoundTrip(n / 10);
    }
  }

  // ---------------------------------------------------------------------
  // Date labels

  /** What `formatDate` reads from a date: the short weekday name, the day
      of the month and the short month name. */
  datatype DateFields = DateFields(weekday: string, day: nat, month: string)

  /** `formatDate`: `Mon, 21st Oct`. */
  function FormatDate(date: DateFields): string {
    date.weekday + ", " + Decimal(date.day) + DaySuffix(date.day) + " " + date.month
  }

  /** The position of the first `c` in `s`, or `|s|`. */
  function IndexOf(s: string, c: char): (k: nat)
    ensures k <= |s|
    ensures forall i :: 0 <= i < k ==> s[i] != c
    ensures k < |s| ==> s[k] == c
  {
    if s == [] || s[0] == c then 0 else 1 + IndexOf(s[1..], c)
  }

  /** The length of the run of digits that starts `s`. */
  function DigitRun(s: string): (k: nat)
    ensures k <= |s|
    ensures forall i :: 0 <= i < k ==> IsDigit(s[i])
    ensures k < |s| ==> !IsDigit(s[k])
  {
    if s == [] || !IsDigit(s[0]) then 0 else 1 + DigitRun(s[1..])
  }

  /** Reads the part after `, ` back: the day's digits (no leading zero),
      its suffix, a space, and the month. */
  function ParseDayAndMonth(rest: string): (r: Option<(nat, string)>)
  {
    var k := DigitRun(rest);
    if k == 0 || (k > 1 && rest[0] == '0') || k + 3 > |rest| then None
    else
      var day := DecimalValue(rest[..k]);
      if rest[k..k + 2] != DaySuffix(day) || rest[k + 2] != ' ' then None
      else Some((day, rest[k + 3..]))
  }

  /** Splits a label at its first comma, which must be followed by a space. */
  function SplitAtComma(text: string): (r: Option<(string, string)>)
    ensures r.Some? ==> text == r.value.0 + ", " + r.value.1 && ',' !in r.value.0
  {
    var comma := IndexOf(text, ',');
    if comma + 2 > |text| || text[comma + 1] != ' ' then None
    else
      assert text == text[..comma] + ", " + text[comma + 2..];
      Some((text[..comma], text[comma + 2..]))
  }

  /** Reads a label back: the weekday up to the first comma, then `, `, the
      day and the month. */
  function ParseDateLabel(text: string): (r: Option<DateFields>)
  {
    match SplitAtComma(text)
    case None => None
    case Some((weekday, rest)) =>
      match ParseDayAndMonth(rest)
      case None => None
      case Some((day, month)) => Some(DateFields(weekday, day, month))
  }

  /** What `ParseDayAndMonth` checked when it accepts. */
  lemma DayAndMonthParts(rest: string)
    requires ParseDayAndMonth(rest).Some?
    ensures var k := DigitRun(rest);
            1 <= k && k + 3 <= |rest| && (k > 1 ==> rest[0] != '0') &&
            ParseDayAndMonth(rest).value.0 == DecimalValue(rest[..k]) &&
            rest[k..k + 2] == DaySuffix(ParseDayAndMonth(rest).value.0) &&
            rest[k + 2] == ' ' && ParseDayAndMonth(rest).value.1 == rest[k + 3..]
  {
  }

  /** When `ParseDayAndMonth` accepts. */
  lemma DayAndMonthAccepts(rest: string, k: nat, day: nat, month: string)
    requires 1 <= k == DigitRun(rest)
    requires k > 1 ==> rest[0] != '0'
    requires k + 3 <= |rest|
    requires DecimalValue(rest[..k]) == day
    requires rest[k..k + 2] == DaySuffix(day) && rest[k + 2] == ' '
    requires rest[k + 3..] == month
    ensures ParseDayAndMonth(rest) == Some((day, month))
  {
    var digitsOk := !(k == 0 || (k > 1 && rest[0] == '0') || k + 3 > |rest|);
    assert digitsOk;
  }

  lemma DayAndMonthSound(rest: string)
    requires ParseDayAndMonth(rest).Some?
    ensures var (day, month) := ParseDayAndMonth(rest).value;
            Decimal(day) + DaySuffix(day) + " " + month == rest
  {
    DayAndMonthParts(rest);
    var k := DigitRun(rest);
    var digits := rest[..k];
    DecimalOfValue(digits);
    assert rest == digits + rest[k..k + 2] + [rest[k + 2]] + rest[k + 3..];
  }

  lemma FormatDateSplit(weekday: string, day: nat, month: string)
    ensures FormatDate(DateFields(weekday, day, month)) == weekday + ", " + (Decimal(day) + DaySuffix(day) + " " + month)
  {
  }

  /** Whatever the parser accepts is a label `FormatDate` prints. */
  lemma ParseDateLabelSound(text: string)
    requires ParseDateLabel(text).Some?
    ensures FormatDate(ParseDateLabel(text).value) == text
  {
    var (weekday, rest) := SplitAtComma(text).value;
    var (day, month) := ParseDayAndMonth(rest).value;
    DayAndMonthSound(rest);
    FormatDateSplit(weekday, day, month);
  }

  /** A digit string without leading zeros is the numeral of its value. */
  lemma {:induction false} DecimalOfValue(s: string)
    requires 1 <= |s|
    requires forall i :: 0 <= i < |s| ==> IsDigit(s[i])
    requires |s| > 1 ==> s[0] != '0'
    ensures Decimal(DecimalValue(s)) == s
  {
    var init := s[..|s| - 1];
    var last := DigitValue(s[|s| - 1]);
    if |s| == 1 {
      assert Digit(last) == s[0];
    } else {
      DecimalOfValue(init);
      var v := DecimalValue(init);
      assert init[0] == s[0];
      assert DecimalValue(s) / 10 == v && DecimalValue(s) % 10 == last;
      assert Digit(last) == s[|s| - 1];
      assert s == init + [s[|s| - 1]];
    }
  }

  lemma {:induction false} IndexOfAfter(a: string, b: string, c: char)
    requires forall i :: 0 <= i < |a| ==> a[i] != c
    requires |b| > 0 && b[0] == c
    ensures IndexOf(a + b, c) == |a|
  {
    if a != [] {
      assert (a + b)[1..] == a[1..] + b;
      IndexOfAfter(a[1..], b, c);
    }
  }

  lemma {:induction false} DigitRunOf(a: string, b: string)
    requires forall i :: 0 <= i < |a| ==> IsDigit(a[i])
    requires |b| > 0 && !IsDigit(b[0])
    ensures DigitRun(a + b) == |a|
  {
    if a != [] {
      assert (a + b)[1..] == a[1..] + b;
      DigitRunOf(a[1..], b);
    }
  }

  /** A printed day followed by a non-digit: the digit run is the numeral,
      without leading zero, and reads back as the day. */
  lemma PrintedDayDigits(day: nat, tail: string)
    requires |tail| > 0 && !IsDigit(tail[0])
    ensures var rest, k := Decimal(day) + tail, |Decimal(day)|;
            1 <= k == DigitRun(rest) && (k > 1 ==> rest[0] != '0') && DecimalValue(rest[..k]) == day
  {
    var digits := Decimal(day);
    var rest := digits + tail;
    DigitRunOf(digits, tail);
    assert rest[..|digits|] == digits;
    assert rest[0] == digits[0];
    DecimalRoundTrip(day);
  }

  /** Where the parts of a `<digits><suffix> <month>` text sit. */
  lemma LabelSlices(digits: string, suffix: string, month: string)
    requires |suffix| == 2
    ensures var rest, k := digits + suffix + " " + month, |digits|;
            rest == digits + (suffix + " " + month) && (suffix + " " + month)[0] == suffix[0] &&
            k + 3 <= |rest| && rest[k..k + 2] == suffix && rest[k + 2] == ' ' && rest[k + 3..] == month
  {
    var rest, k := digits + suffix + " " + month, |digits|;
    assert rest[k..k + 2] == suffix;
    assert rest[k + 3..] == month;
  }

  /** The checks `ParseDayAndMonth` makes, on a printed day and month. */
  lemma DayAndMonthChecks(day: nat, month: string)
    ensures var rest := Decimal(day) + DaySuffix(day) + " " + month;
            var k := |Decimal(day)|;
            1 <= k == DigitRun(rest) && (k > 1 ==> rest[0] != '0') && k + 3 <= |rest| &&
            DecimalValue(rest[..k]) == day &&
            rest[k..k + 2] == DaySuffix(day) && rest[k + 2] == ' ' && rest[k + 3..] == month
  {
    var digits, suffix := Decimal(day), DaySuffix(day);
    LabelSlices(digits, suffix, month);
    PrintedDayDigits(day, suffix + " " + month);
  }

  lemma DayAndMonthRoundTrip(day: nat, month: string)
    ensures ParseDayAndMonth(Decimal(day) + DaySuffix(day) + " " + month) == Some((day, month))
  {
    DayAndMonthChecks(day, month);
    DayAndMonthAccepts(Decimal(day) + DaySuffix(day) + " " + month, |Decimal(day)|, day, month);
  }

  /** The split finds the comma the weekday ends at. */
  lemma SplitAtCommaOf(weekday: string, rest: string)
    requires ',' !in weekday
    ensures SplitAtComma(weekday + ", " + rest) == Some((weekday, rest))
  {
    var text := weekday + ", " + rest;
    assert text == weekday + (", " + rest);
    IndexOfAfter(weekday, ", " + rest, ',');
    assert text[|weekday| + 2..] == rest;
    assert text[..|weekday|] == weekday;
  }

  /** A label names its date: reading it back gives the fields, provided
      the weekday name holds no comma. */
  lemma FormatDateRoundTrip(date: DateFields)
    requires ',' !in date.weekday
    ensures ParseDateLabel(FormatDate(date)) == Some(date)
  {
    var rest := Decimal(date.day) + DaySuffix(date.day) + " " + date.month;
    FormatDateSplit(date.weekday, date.day, date.month);
    SplitAtCommaOf(date.weekday, rest);
    DayAndMonthRoundTrip(date.day, date.month);
  }

  /** Different dates never share a label (weekday names without commas). */
  lemma FormatDateInjective(d1: DateFields, d2: DateFields)
    requires ',' !in d1.weekday && ',' !in d2.weekday
    requires FormatDate(d1) == FormatDate(d2)
    ensures d1 == d2
  {
    FormatDateRoundTrip(d1);
    FormatDateRoundTrip(d2);
  }

  // ---------------------------------------------------------------------
  // Tracking dates

  /** A `Date` reduced to its day number; `setDate(getDate() + n)` moves it
      by `n` days, rolling over months as the calendar does. */
  class CalendarDay {
    var day: int

    /** `new Date()`: today. */
    constructor Now(today: int)
      ensures day == today
    {
      day := today;
    }

    /** `new Date(other)`: a separate copy. */
    constructor CopyOf(other: CalendarDay)
      ensures day == other.day
    {
      day := other.day;
    }

    /** `setDate(getDate() + n)`. */
    method AddDays(n: int)
      modifies this
      ensures day == old(day) + n
    {
      day := day + n;
    }
  }

  datatype Schedule = Schedule(confirmation: int, shipped: int, outForDelivery: int, delivered: int)

  /** The four tracking dates. The copies are separate objects, so moving
      the delivery date leaves the confirmation date where it was. */
  method TrackingSchedule(today: int) returns (s: Schedule)
    ensures s.confirmation == today + 1
    ensures s.shipped == s.confirmation && s.outForDelivery == s.confirmation
    ensures s.delivered == s.confirmation + 5
  {
    var confirmationDate := new CalendarDay.Now(today);
    confirmationDate.AddDays(1);
    var shippedDate := new CalendarDay.CopyOf(confirmationDate);
    var outForDeliveryDate := new CalendarDay.CopyOf(confirmationDate);
    var deliveredDate := new CalendarDay.CopyOf(confirmationDate);
    deliveredDate.AddDays(5);
    s := Schedule(confirmationDate.day, shippedDate.day, outForDeliveryDate.day, deliveredDate.day);
  }
}
