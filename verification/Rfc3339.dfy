/** Times in the format of section 5.6 of RFC 3339: writing them in UTC, and reading them as the standard
    library of the source's language does. It accepts more than it writes: an hour of one digit, a fraction
    of a second after a point or a comma, and any offset of up to 24 hours and 60 minutes. */
module Rfc3339 {
  import opened Options
  import opened Lexical
  import opened Calendar
  import opened Decimals

  // Writing.

  function DateText(c: Civil): (r: string)
    ensures |r| == 10
  {
    Digits(c.year, 4) + "-" + Digits(c.month, 2) + "-" + Digits(c.day, 2)
  }

  /** The instant c in the format of RFC 3339, in UTC. */
  function Stamp(c: Civil): (r: string)
    ensures |r| == 20
  {
    DateText(c) + "T" + Digits(c.hour, 2) + ":" + Digits(c.minute, 2) + ":" + Digits(c.second, 2) + "Z"
  }

  lemma OrderOfDates(a: Civil, b: Civil)
    requires Valid(a) && Valid(b)
    ensures Less(DateText(a), DateText(b)) <==> DateLess(a, b)
    ensures DateText(a) == DateText(b) <==> SameDate(a, b)
  {
    Powers();
    var y, z := Digits(a.year, 4), Digits(b.year, 4);
    OrderOfDigits(a.year, b.year, 4);
    OneMoreField(y, z, "-", a.month, b.month, 2);
    OneMoreField(y + "-" + Digits(a.month, 2), z + "-" + Digits(b.month, 2), "-", a.day, b.day, 2);
  }

  /** Time stamps sort by time, as section 5.1 of RFC 3339 intends. */
  lemma OrderOfStamps(a: Civil, b: Civil)
    requires Valid(a) && Valid(b)
    ensures Less(Stamp(a), Stamp(b)) <==> Seconds(a) < Seconds(b)
    ensures Stamp(a) == Stamp(b) <==> Seconds(a) == Seconds(b)
  {
    Powers();
    OrderOfDates(a, b);
    var a1, b1 := DateText(a) + "T" + Digits(a.hour, 2), DateText(b) + "T" + Digits(b.hour, 2);
    OneMoreField(DateText(a), DateText(b), "T", a.hour, b.hour, 2);
    var a2, b2 := a1 + ":" + Digits(a.minute, 2), b1 + ":" + Digits(b.minute, 2);
    OneMoreField(a1, b1, ":", a.minute, b.minute, 2);
    var a3, b3 := a2 + ":" + Digits(a.second, 2), b2 + ":" + Digits(b.second, 2);
    OneMoreField(a2, b2, ":", a.second, b.second, 2);
    LessAppend(a3, b3, "Z", "Z");
    assert Stamp(a)[..19] == a3 && Stamp(b)[..19] == b3;
    OrderOfFields(a, b);
  }

  // What can be read.

  datatype Fraction = NoFraction | Fraction(separator: char, digits: string)

  datatype Zone = Zulu | Offset(negative: bool, hours: nat, minutes: nat)

  datatype TimeText = TimeText(civil: Civil, shortHour: bool, fraction: Fraction, zone: Zone)

  predicate ValidText(x: TimeText) {
    && Valid(x.civil) && (x.shortHour ==> x.civil.hour < 10)
    && (x.fraction.Fraction? ==>
          x.fraction.separator in {'.', ','} && x.fraction.digits != "" && IsDigits(x.fraction.digits))
    && (x.zone.Offset? ==> x.zone.hours <= 24 && x.zone.minutes <= 60)
  }

  function HourText(hour: nat, short: bool): string {
    Digits(hour, if short then 1 else 2)
  }

  function FractionText(f: Fraction): string {
    match f
    case NoFraction => ""
    case Fraction(separator, digits) => [separator] + digits
  }

  function ZoneText(z: Zone): string {
    match z
    case Zulu => "Z"
    case Offset(negative, hours, minutes) => (if negative then "-" else "+") + Digits(hours, 2) + ":" + Digits(minutes, 2)
  }

  function ClockText(c: Civil, short: bool): string {
    HourText(c.hour, short) + ":" + Digits(c.minute, 2) + ":" + Digits(c.second, 2)
  }

  function Render(x: TimeText): string {
    DateText(x.civil) + "T" + (ClockText(x.civil, x.shortHour) + (FractionText(x.fraction) + ZoneText(x.zone)))
  }

  const SECOND: int := 1000000000

  /** Nanoseconds of a fraction; digits after the ninth do not count. */
  function Nanos(f: Fraction): int
    requires f.Fraction? ==> IsDigits(f.digits)
  {
    match f
    case NoFraction => 0
    case Fraction(_, digits) =>
      if |digits| >= 9 then Value(digits[..9]) else Value(digits) * Power(9 - |digits|)
  }

  /** Nanoseconds since 0000-01-01T00:00:00Z. */
  function Instant(x: TimeText): int
    requires ValidText(x)
  {
    var offset := match x.zone
                  case Zulu => 0
                  case Offset(negative, hours, minutes) => (if negative then -1 else 1) * (hours * 60 + minutes) * 60;
    (Seconds(x.civil) - offset) * SECOND + Nanos(x.fraction)
  }

  // Reading.

  predicate IsDigit(c: char) {
    '0' <= c <= '9'
  }

  function ParseZone(s: string): Option<Zone> {
    if s == "Z" then Some(Zulu)
    else if |s| == 6 && s[0] in {'+', '-'} && IsDigits(s[1..3]) && s[3] == ':' && IsDigits(s[4..6])
            && Value(s[1..3]) <= 24 && Value(s[4..6]) <= 60 then Some(Offset(s[0] == '-', Value(s[1..3]), Value(s[4..6])))
    else None
  }

  /** The digits at the start of s. */
  function LeadingDigits(s: string): (n: nat)
    ensures n <= |s| && IsDigits(s[..n]) && (n < |s| ==> !IsDigit(s[n]))
  {
    if s == "" || !IsDigit(s[0]) then 0
    else
      var n := LeadingDigits(s[1..]) + 1;
      assert s[..n] == [s[0]] + s[1..][..n - 1];
      n
  }

  /** A fraction of a second, if there is one, and what follows. */
  function ParseFraction(s: string): (Fraction, string) {
    if |s| >= 2 && s[0] in {'.', ','} && IsDigit(s[1]) then
      var n := LeadingDigits(s[1..]);
      (Fraction(s[0], s[1..n + 1]), s[n + 1..])
    else (NoFraction, s)
  }

  datatype Clock = Clock(hour: nat, short: bool, minute: nat, second: nat, rest: string)

  function HourWidth(s: string): nat {
    if s == "" || !IsDigit(s[0]) then 0 else if |s| == 1 || !IsDigit(s[1]) then 1 else 2
  }

  function ParseClock(s: string): Option<Clock> {
    var h := HourWidth(s);
    if h == 0 || |s| < h + 6 then None
    else if s[h] == ':' && IsDigits(s[h + 1..h + 3]) && s[h + 3] == ':' && IsDigits(s[h + 4..h + 6]) then
      assert IsDigits(s[..h]);
      Some(Clock(Value(s[..h]), h == 1, Value(s[h + 1..h + 3]), Value(s[h + 4..h + 6]), s[h + 6..]))
    else None
  }

  predicate DateShape(s: string) {
    |s| >= 11 && s[4] == '-' && s[7] == '-' && s[10] == 'T' && IsDigits(s[0..4]) && IsDigits(s[5..7]) && IsDigits(s[8..10])
  }

  /** The parts of a text, if it is a time. */
  function Read(s: string): Option<TimeText> {
    if !DateShape(s) then None else
    match ParseClock(s[11..])
    case None => None
    case Some(k) =>
      var (f, z) := ParseFraction(k.rest);
      match ParseZone(z)
      case None => None
      case Some(zone) =>
        var c := Civil(Value(s[0..4]), Value(s[5..7]), Value(s[8..10]), k.hour, k.minute, k.second);
        if Valid(c) then Some(TimeText(c, k.short, f, zone)) else None
  }

  // Reading undoes writing.

  lemma ZoneRoundTrip(z: Zone)
    requires z.Offset? ==> z.hours <= 24 && z.minutes <= 60
    ensures ParseZone(ZoneText(z)) == Some(z)
    ensures ZoneText(z) != "" && !IsDigit(ZoneText(z)[0]) && ZoneText(z)[0] !in {'.', ','}
  {
    if z.Offset? {
      Powers();
      DigitsRoundTrip(z.hours, 2);
      DigitsRoundTrip(z.minutes, 2);
      hide Digits, Value, IsDigits;
      var s := ZoneText(z);
      assert s[1..3] == Digits(z.hours, 2) && s[3] == ':' && s[4..6] == Digits(z.minutes, 2);
    }
  }

  lemma {:induction false} LeadingDigitsOf(d: string, rest: string)
    requires IsDigits(d) && rest != "" && !IsDigit(rest[0])
    ensures LeadingDigits(d + rest) == |d|
  {
    if d == "" {
      assert d + rest == rest;
    } else {
      assert (d + rest)[1..] == d[1..] + rest;
      LeadingDigitsOf(d[1..], rest);
    }
  }

  lemma FractionRoundTrip(f: Fraction, rest: string)
    requires f.Fraction? ==> f.separator in {'.', ','} && f.digits != "" && IsDigits(f.digits)
    requires rest != "" && !IsDigit(rest[0]) && rest[0] !in {'.', ','}
    ensures ParseFraction(FractionText(f) + rest) == (f, rest)
  {
    var s := FractionText(f) + rest;
    match f {
      case NoFraction => assert s == rest;
      case Fraction(separator, digits) =>
        assert s[0] == separator && s[1] == digits[0];
        assert s[1..] == digits + rest;
        LeadingDigitsOf(digits, rest);
        assert s[1..|digits| + 1] == digits && s[|digits| + 1..] == rest;
    }
  }

  lemma ClockPlaces(h: string, m: string, z: string, rest: string)
    requires |m| == 2 && |z| == 2
    ensures var s, n := h + ":" + m + ":" + z + rest, |h|;
            && |s| >= n + 6 && s[..n] == h && s[n] == ':' && s[n + 1..n + 3] == m && s[n + 3] == ':'
            && s[n + 4..n + 6] == z && s[n + 6..] == rest
  {
  }

  lemma ClockRoundTrip(c: Civil, short: bool, rest: string)
    requires Valid(c) && (short ==> c.hour < 10)
    ensures ParseClock(ClockText(c, short) + rest) == Some(Clock(c.hour, short, c.minute, c.second, rest))
  {
    Powers();
    var h := HourText(c.hour, short);
    DigitsRoundTrip(c.hour, if short then 1 else 2);
    DigitsRoundTrip(c.minute, 2);
    DigitsRoundTrip(c.second, 2);
    ClockPlaces(h, Digits(c.minute, 2), Digits(c.second, 2), rest);
    var s := ClockText(c, short) + rest;
    assert s == h + ":" + Digits(c.minute, 2) + ":" + Digits(c.second, 2) + rest;
    assert IsDigit(h[0]) && s[0] == h[0] && (!short ==> IsDigit(h[1]) && s[1] == h[1]) && (short ==> s[1] == ':');
    assert HourWidth(s) == |h|;
    hide Digits, Value, IsDigits;
  }

  lemma DatePlaces(y: string, o: string, d: string, rest: string)
    requires |y| == 4 && |o| == 2 && |d| == 2
    ensures var s := (y + "-" + o + "-" + d) + "T" + rest;
            && |s| >= 11 && s[0..4] == y && s[4] == '-' && s[5..7] == o && s[7] == '-' && s[8..10] == d && s[10] == 'T'
            && s[11..] == rest
  {
  }

  lemma DateRoundTrip(c: Civil, rest: string)
    requires Valid(c)
    ensures var s := DateText(c) + "T" + rest;
            && DateShape(s) && s[11..] == rest
            && Value(s[0..4]) == c.year && Value(s[5..7]) == c.month && Value(s[8..10]) == c.day
  {
    Powers();
    DigitsRoundTrip(c.year, 4);
    DigitsRoundTrip(c.month, 2);
    DigitsRoundTrip(c.day, 2);
    DatePlaces(Digits(c.year, 4), Digits(c.month, 2), Digits(c.day, 2), rest);
    hide Digits, Value, IsDigits;
  }

  /** Whatever the parts of a valid time, its text is read back as them. */
  lemma ReadRendered(x: TimeText)
    requires ValidText(x)
    ensures Read(Render(x)) == Some(x)
  {
    var z := ZoneText(x.zone);
    ZoneRoundTrip(x.zone);
    FractionRoundTrip(x.fraction, z);
    var tail := FractionText(x.fraction) + z;
    ClockRoundTrip(x.civil, x.shortHour, tail);
    DateRoundTrip(x.civil, ClockText(x.civil, x.shortHour) + tail);
    hide Digits, Value, IsDigits, DateText, ClockText, FractionText, ZoneText, ParseClock, ParseFraction, ParseZone, DateShape;
  }

  // Nothing else is read.

  lemma ZoneIsRendered(s: string)
    requires ParseZone(s).Some?
    ensures ZoneText(ParseZone(s).value) == s
    ensures var z := ParseZone(s).value; z.Offset? ==> z.hours <= 24 && z.minutes <= 60
  {
    if s != "Z" {
      ValueRoundTrip(s[1..3]);
      ValueRoundTrip(s[4..6]);
      assert s == [s[0]] + s[1..3] + ":" + s[4..6];
    }
  }

  lemma FractionIsRendered(s: string)
    ensures var (f, rest) := ParseFraction(s);
            && FractionText(f) + rest == s
            && (f.Fraction? ==> f.separator in {'.', ','} && f.digits != "" && IsDigits(f.digits))
  {
    if |s| >= 2 && s[0] in {'.', ','} && IsDigit(s[1]) {
      var n := LeadingDigits(s[1..]);
      assert n >= 1;
      assert s[1..n + 1] == s[1..][..n];
      assert s == [s[0]] + s[1..n + 1] + s[n + 1..];
    }
  }

  lemma ClockAssembled(s: string, h: nat)
    requires |s| >= h + 6 && s[h] == ':' && s[h + 3] == ':'
    ensures s == s[..h] + ":" + s[h + 1..h + 3] + ":" + s[h + 4..h + 6] + s[h + 6..]
  {
  }

  lemma OneOrTwoDigits(s: string)
    requires IsDigits(s) && 1 <= |s| <= 2
    ensures HourText(Value(s), |s| == 1) == s && (|s| == 1 ==> Value(s) < 10)
  {
    ValueRoundTrip(s);
    Powers();
  }

  lemma ClockIsRendered(s: string, y: nat, o: nat, d: nat)
    requires ParseClock(s).Some?
    ensures var k := ParseClock(s).value;
            && ClockText(Civil(y, o, d, k.hour, k.minute, k.second), k.short) + k.rest == s && (k.short ==> k.hour < 10)
  {
    var h := HourWidth(s);
    OneOrTwoDigits(s[..h]);
    ValueRoundTrip(s[h + 1..h + 3]);
    ValueRoundTrip(s[h + 4..h + 6]);
    ClockAssembled(s, h);
    hide Digits, Value, IsDigits, Power, HourText;
  }

  lemma DateIsRendered(s: string)
    requires DateShape(s)
    ensures Digits(Value(s[0..4]), 4) + "-" + Digits(Value(s[5..7]), 2) + "-" + Digits(Value(s[8..10]), 2) + "T" + s[11..] == s
  {
    ValueRoundTrip(s[0..4]);
    ValueRoundTrip(s[5..7]);
    ValueRoundTrip(s[8..10]);
    hide Digits, Value;
    assert s == s[0..4] + "-" + s[5..7] + "-" + s[8..10] + "T" + s[11..];
  }

  /** Only the texts of valid times are read. */
  lemma ReadIsRendered(s: string)
    requires Read(s).Some?
    ensures ValidText(Read(s).value) && Render(Read(s).value) == s
  {
    var k := ParseClock(s[11..]).value;
    var (f, z) := ParseFraction(k.rest);
    DateIsRendered(s);
    ClockIsRendered(s[11..], Value(s[0..4]), Value(s[5..7]), Value(s[8..10]));
    FractionIsRendered(k.rest);
    ZoneIsRendered(z);
    hide Digits, Value, ParseClock, ParseFraction, ParseZone, ClockText, FractionText, ZoneText;
  }

  /** The instant of a text, if it is a time. */
  function ParseInstant(s: string): Option<int> {
    match Read(s)
    case None => None
    case Some(x) => if ValidText(x) then Some(Instant(x)) else None
  }

  /** Exactly these texts are read as an instant: the texts of all valid times that denote it. */
  lemma TextsOfInstant(s: string, t: int)
    ensures ParseInstant(s) == Some(t) <==> exists x :: ValidText(x) && Render(x) == s && Instant(x) == t
  {
    if ParseInstant(s) == Some(t) {
      ReadIsRendered(s);
    }
    if x :| ValidText(x) && Render(x) == s && Instant(x) == t {
      ReadRendered(x);
    }
  }

  predicate IsPlain(x: TimeText) {
    !x.shortHour && x.fraction == NoFraction && x.zone == Zulu
  }

  lemma StampIsPlain(c: Civil)
    ensures Render(TimeText(c, false, NoFraction, Zulu)) == Stamp(c)
  {
    hide Digits;
    assert "" + "Z" == "Z";
  }

  /** Several texts denote an instant, but only one has the form in which times are written. */
  lemma PlainTextIsUnique(x: TimeText, y: TimeText)
    requires ValidText(x) && ValidText(y) && IsPlain(x) && IsPlain(y) && Instant(x) == Instant(y)
    ensures x == y && Render(x) == Stamp(x.civil)
  {
    OrderOfFields(x.civil, y.civil);
    StampIsPlain(x.civil);
    hide Render, Stamp;
    assert x == TimeText(x.civil, false, NoFraction, Zulu);
  }

  lemma RenderedInstant(x: TimeText)
    requires ValidText(x)
    ensures ParseInstant(Render(x)) == Some(Instant(x))
  {
    ReadRendered(x);
  }

  lemma LaterHour(c: Civil)
    ensures Seconds(c.(hour := c.hour + 1)) == Seconds(c) + 3600
  {
  }

  lemma ZeroFraction()
    ensures IsDigits("0") && Nanos(Fraction('.', "0")) == 0
  {
    assert Value("0") == 0;
  }

  /** For instance, with an offset of one hour the hour is one later. */
  lemma EasternText(c: Civil)
    requires Valid(c) && c.hour < 23
    ensures ParseInstant(Render(TimeText(c.(hour := c.hour + 1), false, NoFraction, Offset(false, 1, 0)))) == Some(Seconds(c) * SECOND)
  {
    hide Render, ParseInstant, DayNumber;
    LaterHour(c);
    RenderedInstant(TimeText(c.(hour := c.hour + 1), false, NoFraction, Offset(false, 1, 0)));
  }

  /** And a fraction of zero changes nothing. */
  lemma PointText(c: Civil)
    requires Valid(c)
    ensures ParseInstant(Render(TimeText(c, false, Fraction('.', "0"), Zulu))) == Some(Seconds(c) * SECOND)
  {
    hide Render, ParseInstant, Nanos;
    ZeroFraction();
    RenderedInstant(TimeText(c, false, Fraction('.', "0"), Zulu));
  }

  lemma StampIsRead(c: Civil)
    requires Valid(c)
    ensures ParseInstant(Stamp(c)) == Some(Seconds(c) * SECOND)
  {
    var x := TimeText(c, false, NoFraction, Zulu);
    StampIsPlain(c);
    ReadRendered(x);
  }
}
