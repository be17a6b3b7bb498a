/** The page component of test/App.tsx: a title whose font family and weight
    are re-drawn at random every 100 ms, and a clock line rendered from the
    current date every second. The timers themselves are not modelled; each
    tick is a method call, and the clock reading and the random draws are
    its inputs. */
module ClockTitle {
  import opened Wrappers
  import opened JsString
  import opened RandomDraw

  /** The fourteen font families the title cycles through. */
  const Fonts: seq<string> := [
    "Montserrat", "Roboto", "Open Sans", "Lato", "Poppins", "Raleway",
    "Playfair Display", "Merriweather", "Oswald", "Nunito", "Pacifico",
    "Caveat", "Fira Sans", "Bebas Neue"
  ]

  datatype Weight = Normal | Bold

  /** `fonts[Math.floor(Math.random() * fonts.length)]`: never out of range,
      because a draw lies in [0, 1). */
  function PickFont(r: real): (font: string)
    requires IsDraw(r)
    ensures font in Fonts
  {
    Fonts[Index(r, |Fonts|)]
  }

  /** `Math.random() > 0.5 ? 'bold' : 'normal'`. */
  function PickWeight(r: real): (w: Weight)
    ensures w == Bold <==> r > 0.5
  {
    if r > 0.5 then Bold else Normal
  }

  /** The fields of a JavaScript Date that formatTime reads, in local time;
      `month` is getMonth(), which counts from 0. */
  datatype DateParts = DateParts(year: int, month: nat, day: nat, hours: nat, minutes: nat, seconds: nat)

  predicate ValidDate(d: DateParts) {
    d.month < 12 && 1 <= d.day <= 31 && d.hours < 24 && d.minutes < 60 && d.seconds < 60
  }

  /** `(num) => num.toString().padStart(2, '0')`. */
  function Pad(n: nat): (s: string)
  {
    PadStart(NatToString(n), 2, '0')
  }

  /** One digit gets a leading "0"; two or more digits are left as they are.
      Either way the result has at least two digits and reads back as n. */
  lemma PadShape(n: nat)
    ensures n < 10 ==> Pad(n) == ['0', DigitChar(n)]
    ensures n >= 10 ==> Pad(n) == NatToString(n)
    ensures |Pad(n)| >= 2 && (n < 100 ==> |Pad(n)| == 2)
    ensures AllDigits(Pad(n)) && DigitsValue(Pad(n)) == n
  {
    NatToStringShape(n);
    NatToStringRoundTrip(n);
    if n < 10 {
      assert NatToString(n) == [DigitChar(n)];
      assert Pad(n) == ['0'] + [DigitChar(n)];
      assert Pad(n)[..1] == ['0'];
    } else {
      assert NatToString(n / 10) == NatToString(n / 10);
      if n < 100 {
        NatToStringShape(n / 10);
      }
    }
  }

  /** The month is shown 1-based: getMonth() values 0..11 render as "01".."12". */
  lemma MonthShownOneBased(m: nat)
    requires m < 12
    ensures |Pad(m + 1)| == 2 && AllDigits(Pad(m + 1)) && DigitsValue(Pad(m + 1)) == m + 1
    ensures Pad(m + 1) == (if m < 9 then ['0', DigitChar(m + 1)] else ['1', DigitChar(m - 9)])
  {
    PadShape(m + 1);
    if m >= 9 {
      assert NatToString(m + 1) == NatToString((m + 1) / 10) + [DigitChar((m + 1) % 10)];
    }
  }

  /** formatTime: `year//MM//DD hh:mm:ss`, the year unpadded and the other five
      fields padded to two digits. */
  function FormatTime(d: DateParts): (s: string)
  {
    IntToString(d.year) + Tail(d)
  }

  /** Everything after the year: `//MM//DD hh:mm:ss`. */
  function Tail(d: DateParts): string {
    "//" + Pad(d.month + 1) + "//" + Pad(d.day) + " " +
    Pad(d.hours) + ":" + Pad(d.minutes) + ":" + Pad(d.seconds)
  }

  /** Reads a two-digit field. */
  function Field2(s: string): Option<nat>
    requires |s| == 2
  {
    if AllDigits(s) then Some(DigitsValue(s)) else None
  }

  /** Reads the 17-character tail back into month (0-based), day, hours,
      minutes and seconds. */
  function ParseTail(t: string): Option<DateParts>
    requires |t| == 17
  {
    var mo, dd, hh, mi, ss := Field2(t[2..4]), Field2(t[6..8]), Field2(t[9..11]), Field2(t[12..14]), Field2(t[15..17]);
    if t[..2] == "//" && t[4..6] == "//" && t[8] == ' ' && t[11] == ':' && t[14] == ':' &&
       mo.Some? && mo.value >= 1 && dd.Some? && hh.Some? && mi.Some? && ss.Some?
    then Some(DateParts(0, mo.value - 1, dd.value, hh.value, mi.value, ss.value))
    else None
  }

  /** Reads back a clock line: everything before the fixed-width tail
      (17 characters) is the year. */
  function ParseTime(s: string): Option<DateParts>
  {
    if |s| < 18 then None
    else
      var y, t := s[..|s| - 17], s[|s| - 17..];
      match ParseTail(t)
      case None => None
      case Some(fields) =>
        if AllDigits(y) || (y[0] == '-' && AllDigits(y[1..])) then Some(fields.(year := ParseInt(y))) else None
  }

  /** Laying five two-character fields out with the separators of the tail. */
  lemma TailLayout(a: string, b: string, c: string, d: string, e: string)
    requires |a| == 2 && |b| == 2 && |c| == 2 && |d| == 2 && |e| == 2
    ensures var t := "//" + a + "//" + b + " " + c + ":" + d + ":" + e;
      |t| == 17 && t[..2] == "//" && t[2..4] == a && t[4..6] == "//" && t[6..8] == b &&
      t[8] == ' ' && t[9..11] == c && t[11] == ':' && t[12..14] == d && t[14] == ':' && t[15..17] == e
  {
    var t := "//" + a + "//" + b + " " + c + ":" + d + ":" + e;
    assert t == ['/', '/', a[0], a[1], '/', '/', b[0], b[1], ' ', c[0], c[1], ':', d[0], d[1], ':', e[0], e[1]];
  }

  /** The tail of a valid date is 17 characters and reads back as its fields. */
  lemma TailRoundTrip(d: DateParts)
    requires ValidDate(d)
    ensures |Tail(d)| == 17 && ParseTail(Tail(d)) == Some(d.(year := 0))
  {
    PadShape(d.month + 1);
    PadShape(d.day);
    PadShape(d.hours);
    PadShape(d.minutes);
    PadShape(d.seconds);
    TailLayout(Pad(d.month + 1), Pad(d.day), Pad(d.hours), Pad(d.minutes), Pad(d.seconds));
  }

  /** Round trip: a clock line determines the date it was rendered from, so the
      year, the 1-based month and the padded fields sit where the format says. */
  lemma FormatTimeRoundTrip(d: DateParts)
    requires ValidDate(d)
    ensures ParseTime(FormatTime(d)) == Some(d)
  {
    var y := IntToString(d.year);
    IntToStringRoundTrip(d.year);
    TailRoundTrip(d);
    var s := FormatTime(d);
    assert s[..|s| - 17] == y && s[|s| - 17..] == Tail(d);
  }

  /** The component's state: the title's font and weight and the clock's date. */
  class Title {
    var currentFont: string
    var currentFontWeight: Weight
    var currentTime: DateParts

    /** The stored date holds the parts of a JavaScript Date. */
    predicate Valid()
      reads this`currentTime
    {
      ValidDate(currentTime)
    }

    /** Initial state: "Montserrat", normal weight, the date at mount. */
    constructor (now: DateParts)
      requires ValidDate(now)
      ensures Valid()
      ensures currentFont == "Montserrat" && currentFontWeight == Normal && currentTime == now
    {
      currentFont := "Montserrat";
      currentFontWeight := Normal;
      currentTime := now;
    }

    /** The 100 ms interval: one draw picks the font, a second the weight. */
    method FontTick(fontDraw: real, weightDraw: real)
      requires IsDraw(fontDraw) && IsDraw(weightDraw)
      modifies this`currentFont, this`currentFontWeight
      ensures currentFont == PickFont(fontDraw) && currentFont in Fonts
      ensures currentFontWeight == PickWeight(weightDraw)
    {
      currentFont := PickFont(fontDraw);
      currentFontWeight := PickWeight(weightDraw);
    }

    /** The one-second interval: store the new date. */
    method ClockTick(now: DateParts)
      requires ValidDate(now)
      modifies this`currentTime
      ensures Valid() && currentTime == now
    {
      currentTime := now;
    }

    /** The clock line the component renders: formatTime of the stored date,
        which determines that date. */
    method ClockText() returns (s: string)
      requires Valid()
      ensures s == FormatTime(currentTime)
      ensures ParseTime(s) == Some(currentTime)
    {
      s := FormatTime(currentTime);
      FormatTimeRoundTrip(currentTime);
    }
  }
}
