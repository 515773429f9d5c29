/**
 ISO 8601 durations: the parser and the printer of src/retry.ts, and the validator of
 src/validation/schemas.ts. Milliseconds are exact rationals.
 */
module Duration {
  import opened Prelude
  import opened Regex

  // ---- Decimal digits ----

  predicate IsDigit(c: char) {
    '0' <= c <= '9'
  }

  predicate IsDigits(s: string) {
    s != "" && forall i | 0 <= i < |s| :: IsDigit(s[i])
  }

  /** parseInt(s, 10). */
  function NatOf(s: string): nat
    requires forall i | 0 <= i < |s| :: IsDigit(s[i])
  {
    if s == "" then 0 else
      assert IsDigit(s[|s| - 1]);
      10 * NatOf(Front(s)) + (s[|s| - 1] as int - '0' as int)
  }

  /** Decimal notation: no leading zero. */
  function Digits(n: nat): (s: string)
    ensures IsDigits(s) && (s[0] == '0' <==> n == 0) && (n < 10 ==> |s| == 1)
    decreases n
  {
    if n < 10 then ['0' + n as char] else Digits(n / 10) + ['0' + (n % 10) as char]
  }

  lemma {:induction false} DigitsRoundTrip(n: nat)
    ensures NatOf(Digits(n)) == n
    decreases n
  {
    if n < 10 {
      assert Front(Digits(n)) == "";
    } else {
      DigitsRoundTrip(n / 10);
      assert Front(Digits(n)) == Digits(n / 10);
    }
  }

  // ---- The patterns ----

  ghost const DIGITS := Plus(Class(IsDigit))

  /** (?:\.\d+)? */
  ghost const FRACTION := Opt(Cat(Char('.'), DIGITS))

  /** (?:(\d+)U)? for a unit U */
  ghost function CapturedUnit(unit: char): Re {
    Opt(Cat(Group(DIGITS), Char(unit)))
  }

  /** (?:(\d+(?:\.\d+)?)S)? */
  ghost const CAPTURED_SECONDS := Opt(Cat(Group(Cat(DIGITS, FRACTION)), Char('S')))

  /** (?:(\d+)H)?(?:(\d+)M)?(?:(\d+(?:\.\d+)?)S)? */
  ghost const CAPTURED_TIME := Cat(CapturedUnit('H'), Cat(CapturedUnit('M'), CAPTURED_SECONDS))

  /** The parser's pattern:
      P(?:(\d+)D)?(?:T(?:(\d+)H)?(?:(\d+)M)?(?:(\d+(?:\.\d+)?)S)?)? */
  ghost const PARSER_PATTERN := Cat(Char('P'), Cat(CapturedUnit('D'), Opt(Cat(Char('T'), CAPTURED_TIME))))

  /** (?:\d+U)? for a unit U */
  ghost function Unit(unit: char): Re {
    Opt(Cat(DIGITS, Char(unit)))
  }

  /** The validator's pattern:
      P(?:\d+D)?(?:T(?:\d+H)?(?:\d+M)?(?:\d+(?:\.\d+)?S)?)? */
  ghost const VALIDATOR_PATTERN :=
    Cat(Char('P'), Cat(Unit('D'), Opt(Cat(Char('T'),
      Cat(Unit('H'), Cat(Unit('M'), Opt(Cat(Cat(DIGITS, FRACTION), Char('S')))))))))

  // ---- What the parser's pattern captures ----

  /** The captured groups, the fourth one split at the point; `time` tells "P" from "PT". */
  datatype Groups = Groups(days: Option<string>, time: Option<Time>)

  datatype Time = Time(hours: Option<string>, minutes: Option<string>, seconds: Option<Seconds>)

  datatype Seconds = Seconds(whole: string, fraction: Option<string>)

  function UnitText(digits: Option<string>, unit: char): string {
    if digits.None? then "" else digits.value + [unit]
  }

  function SecondsText(s: Seconds): string {
    s.whole + (if s.fraction.None? then "" else "." + s.fraction.value)
  }

  function TimeText(t: Time): string {
    UnitText(t.hours, 'H')
    + (UnitText(t.minutes, 'M') + (if t.seconds.None? then "" else SecondsText(t.seconds.value) + "S"))
  }

  function TimeOptionText(t: Option<Time>): string {
    if t.None? then "" else "T" + TimeText(t.value)
  }

  /** The string that a list of groups matches. */
  function Text(g: Groups): string {
    "P" + (UnitText(g.days, 'D') + TimeOptionText(g.time))
  }

  predicate GoodUnit(digits: Option<string>) {
    digits.Some? ==> IsDigits(digits.value)
  }

  predicate GoodSeconds(s: Option<Seconds>) {
    s.Some? ==> IsDigits(s.value.whole) && GoodUnit(s.value.fraction)
  }

  predicate GoodTime(t: Time) {
    GoodUnit(t.hours) && GoodUnit(t.minutes) && GoodSeconds(t.seconds)
  }

  predicate Good(g: Groups) {
    GoodUnit(g.days) && (g.time.Some? ==> GoodTime(g.time.value))
  }

  // ---- A scanner for it ----

  function DigitRun(s: string): (n: nat)
    ensures n <= |s| && (forall i | 0 <= i < n :: IsDigit(s[i])) && (n < |s| ==> !IsDigit(s[n]))
  {
    if s == "" || !IsDigit(s[0]) then 0 else 1 + DigitRun(s[1..])
  }

  function ScanUnit(s: string, unit: char): (Option<string>, string) {
    var n := DigitRun(s);
    if 0 < n < |s| && s[n] == unit then (Some(s[..n]), s[n + 1..]) else (None, s)
  }

  /** The optional seconds, which must end the string. */
  function ScanSeconds(s: string): Option<Option<Seconds>> {
    if s == "" then Some(None) else
      var n := DigitRun(s);
      if n == 0 || n == |s| then None
      else if s[n] == 'S' then
        if n + 1 == |s| then Some(Some(Seconds(s[..n], None))) else None
      else if s[n] != '.' then None else
        var rest := s[n + 1..];
        var m := DigitRun(rest);
        if m > 0 && m + 1 == |rest| && rest[m] == 'S' then Some(Some(Seconds(s[..n], Some(rest[..m])))) else None
  }

  function ScanTime(s: string): Option<Time> {
    var (hours, s1) := ScanUnit(s, 'H');
    var (minutes, s2) := ScanUnit(s1, 'M');
    match ScanSeconds(s2)
    case None => None
    case Some(seconds) => Some(Time(hours, minutes, seconds))
  }

  function Scan(s: string): Option<Groups> {
    if s == "" || s[0] != 'P' then None else
      var (days, rest) := ScanUnit(s[1..], 'D');
      if rest == "" then Some(Groups(days, None))
      else if rest[0] != 'T' then None
      else
        match ScanTime(rest[1..])
        case None => None
        case Some(time) => Some(Groups(days, Some(time)))
  }

  // ---- The scanner is exact ----

  lemma {:induction false} DigitRunOf(digits: string, rest: string)
    requires forall i | 0 <= i < |digits| :: IsDigit(digits[i])
    requires rest == "" || !IsDigit(rest[0])
    ensures DigitRun(digits + rest) == |digits|
  {
    var s := digits + rest;
    assert forall i | 0 <= i < |digits| :: s[i] == digits[i];
    assert rest != "" ==> s[|digits|] == rest[0];
  }

  /** `rest` cannot be taken for a unit that ends in `unit`. */
  predicate NoUnit(rest: string, unit: char) {
    var n := DigitRun(rest);
    n == 0 || n == |rest| || rest[n] != unit
  }

  lemma {:induction false} ScanUnitOf(digits: Option<string>, unit: char, rest: string)
    requires GoodUnit(digits) && !IsDigit(unit) && (digits.None? ==> NoUnit(rest, unit))
    ensures ScanUnit(UnitText(digits, unit) + rest, unit) == (digits, rest)
  {
    if digits.Some? {
      var s := digits.value + ([unit] + rest);
      assert UnitText(digits, unit) + rest == s;
      DigitRunOf(digits.value, [unit] + rest);
      assert s[..|digits.value|] == digits.value && s[|digits.value| + 1..] == rest && s[|digits.value|] == unit;
    } else {
      assert "" + rest == rest;
    }
  }

  lemma {:induction false} ScanUnitText(s: string, unit: char)
    ensures var (digits, rest) := ScanUnit(s, unit);
            GoodUnit(digits) && s == UnitText(digits, unit) + rest
  {
    var n := DigitRun(s);
    if 0 < n < |s| && s[n] == unit {
      assert s == s[..n] + [unit] + s[n + 1..];
    } else {
      assert "" + s == s;
    }
  }

  function SecondsPart(seconds: Option<Seconds>): string {
    if seconds.None? then "" else SecondsText(seconds.value) + "S"
  }

  lemma {:induction false} ScanWhole(w: string)
    requires IsDigits(w)
    ensures DigitRun(w + "S") == |w| && ScanSeconds(w + "S") == Some(Some(Seconds(w, None)))
  {
    DigitRunOf(w, "S");
    assert (w + "S")[..|w|] == w;
  }

  lemma {:induction false} ScanFraction(w: string, f: string)
    requires IsDigits(w) && IsDigits(f)
    ensures var s := w + ("." + (f + "S"));
            DigitRun(s) == |w| && s[|w|] == '.' && ScanSeconds(s) == Some(Some(Seconds(w, Some(f))))
  {
    var s := w + ("." + (f + "S"));
    DigitRunOf(w, "." + (f + "S"));
    DigitRunOf(f, "S");
    assert s[..|w|] == w && s[|w|] == '.' && s[|w| + 1..] == f + "S";
    assert (f + "S")[..|f|] == f && (f + "S")[|f|] == 'S';
  }

  lemma {:induction false} ScanSecondsOf(seconds: Option<Seconds>)
    requires GoodSeconds(seconds)
    ensures ScanSeconds(SecondsPart(seconds)) == Some(seconds)
    ensures NoUnit(SecondsPart(seconds), 'H') && NoUnit(SecondsPart(seconds), 'M')
  {
    if seconds.Some? {
      var w := seconds.value.whole;
      if seconds.value.fraction.None? {
        assert SecondsPart(seconds) == w + "S";
        ScanWhole(w);
      } else {
        var f := seconds.value.fraction.value;
        assert SecondsPart(seconds) == w + ("." + (f + "S"));
        ScanFraction(w, f);
      }
    }
  }

  lemma {:induction false} WholeText(s: string, n: nat)
    requires |s| == n + 1 && s[n] == 'S'
    ensures s == s[..n] + "" + "S"
  {
  }

  lemma {:induction false} FractionText(s: string, n: nat, m: nat)
    requires |s| == n + m + 2 && s[n] == '.' && s[n + 1..][m] == 'S'
    ensures s == s[..n] + ("." + s[n + 1..][..m]) + "S"
  {
  }

  lemma {:induction false} ScanSecondsText(s: string)
    requires ScanSeconds(s).Some?
    ensures GoodSeconds(ScanSeconds(s).value) && s == SecondsPart(ScanSeconds(s).value)
  {
    if s != "" {
      var n := DigitRun(s);
      if s[n] == 'S' {
        WholeText(s, n);
        assert ScanSeconds(s).value == Some(Seconds(s[..n], None));
      } else {
        ScanFractionText(s, n);
      }
    }
  }

  lemma {:induction false} ScanFractionText(s: string, n: nat)
    requires n == DigitRun(s) && 0 < n < |s| && s[n] == '.' && ScanSeconds(s).Some?
    ensures GoodSeconds(ScanSeconds(s).value) && s == SecondsPart(ScanSeconds(s).value)
  {
    var rest := s[n + 1..];
    var m := DigitRun(rest);
    FractionText(s, n, m);
    assert ScanSeconds(s).value == Some(Seconds(s[..n], Some(rest[..m])));
    assert IsDigits(s[..n]) && IsDigits(rest[..m]);
  }

  lemma {:induction false} UnitStarts(digits: string, unit: char, rest: string, other: char)
    requires IsDigits(digits) && !IsDigit(unit) && unit != other
    ensures NoUnit(digits + [unit] + rest, other)
  {
    assert digits + [unit] + rest == digits + ([unit] + rest);
    DigitRunOf(digits, [unit] + rest);
    assert (digits + ([unit] + rest))[|digits|] == unit;
  }

  lemma {:induction false} ScanTimeOf(t: Time)
    requires GoodTime(t)
    ensures ScanTime(TimeText(t)) == Some(t)
  {
    var tail := SecondsPart(t.seconds);
    var s1 := UnitText(t.minutes, 'M') + tail;
    ScanSecondsOf(t.seconds);
    if t.minutes.Some? {
      UnitStarts(t.minutes.value, 'M', tail, 'H');
    } else {
      assert s1 == tail;
    }
    ScanUnitOf(t.hours, 'H', s1);
    ScanUnitOf(t.minutes, 'M', tail);
  }

  lemma {:induction false} ScanTimeText(s: string)
    requires ScanTime(s).Some?
    ensures GoodTime(ScanTime(s).value) && s == TimeText(ScanTime(s).value)
  {
    var (hours, s1) := ScanUnit(s, 'H');
    var (minutes, s2) := ScanUnit(s1, 'M');
    ScanUnitText(s, 'H');
    ScanUnitText(s1, 'M');
    ScanSecondsText(s2);
  }

  lemma {:induction false} ScanOfText(g: Groups)
    requires Good(g)
    ensures Scan(Text(g)) == Some(g)
  {
    var rest := TimeOptionText(g.time);
    assert Text(g)[1..] == UnitText(g.days, 'D') + rest;
    ScanUnitOf(g.days, 'D', rest);
    if g.time.Some? {
      assert rest[1..] == TimeText(g.time.value);
      ScanTimeOf(g.time.value);
    }
  }

  lemma {:induction false} TextOfScan(s: string)
    requires Scan(s).Some?
    ensures Good(Scan(s).value) && s == Text(Scan(s).value)
  {
    var (days, rest) := ScanUnit(s[1..], 'D');
    ScanUnitText(s[1..], 'D');
    Behind('P', s);
    if rest != "" {
      ScanTimeText(rest[1..]);
      Behind('T', rest);
      assert Scan(s) == Some(Groups(days, ScanTime(rest[1..])));
    }
  }

  lemma {:induction false} Behind(c: char, s: string)
    requires s != "" && s[0] == c
    ensures s == [c] + s[1..]
  {
  }

  /** The scanner accepts exactly the texts of well-formed groups, so no text has two readings. */
  lemma {:induction false} ScanIsExact(s: string, g: Groups)
    ensures Scan(s) == Some(g) <==> Good(g) && s == Text(g)
  {
    if Good(g) && s == Text(g) {
      ScanOfText(g);
    }
    if Scan(s) == Some(g) {
      TextOfScan(s);
    }
  }

  // ---- The scanner captures what the pattern captures ----

  function SecondsCapture(s: Option<Seconds>): Option<string> {
    if s.None? then None else Some(SecondsText(s.value))
  }

  function TimeCaptures(t: Time): Captured {
    [t.hours] + ([t.minutes] + [SecondsCapture(t.seconds)])
  }

  function TimeOptionCaptures(t: Option<Time>): Captured {
    if t.None? then NoCaptures(3) else TimeCaptures(t.value)
  }

  function CapturesOf(g: Groups): Captured {
    [g.days] + TimeOptionCaptures(g.time)
  }

  lemma OptGroup(r: Re, c: char)
    ensures GroupCount(Opt(Cat(Group(r), Char(c)))) == 1
  {
    assert GroupCount(Cat(Group(r), Char(c))) == 1;
  }

  lemma {:induction false} DigitsMatch(s: string)
    ensures Matches(DIGITS, s) <==> IsDigits(s)
  {
    ClassRepeats(IsDigit, s);
  }

  lemma {:induction false} UnitCaptures(unit: char, s: string, caps: Captured)
    ensures Captures(CapturedUnit(unit), s, caps)
       <==> |caps| == 1 && GoodUnit(caps[0]) && s == UnitText(caps[0], unit)
  {
    if Captures(Cat(Group(DIGITS), Char(unit)), s, caps) {
      var i, some, more := SplitCaptures(Group(DIGITS), Char(unit), s, caps);
      DigitsMatch(s[..i]);
      assert s[i..] == [unit] && caps == [Some(s[..i])];
    }
    if |caps| == 1 && caps[0].Some? && GoodUnit(caps[0]) && s == UnitText(caps[0], unit) {
      DigitsMatch(caps[0].value);
      CapturesCat(Group(DIGITS), Char(unit), caps[0].value, [unit], [caps[0]], []);
      assert caps == [caps[0]] + [];
    }
    assert NoCaptures(1) == [None];
  }

  lemma {:induction false} FractionMatches(s: string)
    ensures Matches(FRACTION, s) <==> s == "" || (s[0] == '.' && IsDigits(s[1..]))
  {
    if s != "" && Matches(FRACTION, s) {
      var i := SplitCat(Char('.'), DIGITS, s);
      DigitsMatch(s[i..]);
      assert s[..i][0] == s[0];
    }
    if s != "" && s[0] == '.' && IsDigits(s[1..]) {
      DigitsMatch(s[1..]);
      assert Matches(Char('.'), s[..1]);
    }
  }

  lemma {:induction false} NumberOfText(s: Seconds)
    requires GoodSeconds(Some(s))
    ensures Matches(Cat(DIGITS, FRACTION), SecondsText(s))
  {
    var text := SecondsText(s);
    var rest := text[|s.whole|..];
    DigitsMatch(s.whole);
    FractionMatches(rest);
    assert text[..|s.whole|] == s.whole;
    assert s.fraction.Some? ==> rest[1..] == s.fraction.value;
  }

  lemma {:induction false} TextOfNumber(text: string) returns (s: Seconds)
    requires Matches(Cat(DIGITS, FRACTION), text)
    ensures GoodSeconds(Some(s)) && text == SecondsText(s)
  {
    var i := SplitCat(DIGITS, FRACTION, text);
    DigitsMatch(text[..i]);
    FractionMatches(text[i..]);
    s := Seconds(text[..i], if i == |text| then None else Some(text[i + 1..]));
    assert text == text[..i] + text[i..];
    assert i < |text| ==> text[i..] == "." + text[i + 1..];
  }

  lemma {:induction false} SecondsCaptured(s: Option<Seconds>)
    requires GoodSeconds(s)
    ensures Captures(CAPTURED_SECONDS, SecondsPart(s), [SecondsCapture(s)])
  {
    assert NoCaptures(1) == [None];
    if s.Some? {
      var number := Cat(DIGITS, FRACTION);
      NumberOfText(s.value);
      CapturesCat(Group(number), Char('S'), SecondsText(s.value), "S", [SecondsCapture(s)], []);
      assert [SecondsCapture(s)] + [] == [SecondsCapture(s)];
    }
  }

  lemma {:induction false} CapturedSecondsText(text: string, caps: Captured) returns (s: Option<Seconds>)
    requires Captures(CAPTURED_SECONDS, text, caps)
    ensures GoodSeconds(s) && text == SecondsPart(s) && caps == [SecondsCapture(s)]
  {
    var number := Cat(DIGITS, FRACTION);
    if Captures(Cat(Group(number), Char('S')), text, caps) {
      var i, some, more := SplitCaptures(Group(number), Char('S'), text, caps);
      var value := TextOfNumber(text[..i]);
      assert text[i..] == "S" && some == [Some(text[..i])] && more == [];
      assert caps == [Some(text[..i])];
      s := Some(value);
    } else {
      OptGroup(number, 'S');
      assert caps == NoCaptures(1) == [None];
      s := None;
    }
  }

  lemma {:induction false} TimeCaptured(t: Time)
    requires GoodTime(t)
    ensures Captures(CAPTURED_TIME, TimeText(t), TimeCaptures(t))
  {
    UnitCaptures('H', UnitText(t.hours, 'H'), [t.hours]);
    UnitCaptures('M', UnitText(t.minutes, 'M'), [t.minutes]);
    SecondsCaptured(t.seconds);
    var minutes, seconds := UnitText(t.minutes, 'M'), SecondsPart(t.seconds);
    CapturesCat(CapturedUnit('M'), CAPTURED_SECONDS, minutes, seconds, [t.minutes], [SecondsCapture(t.seconds)]);
    CapturesCat(CapturedUnit('H'), Cat(CapturedUnit('M'), CAPTURED_SECONDS), UnitText(t.hours, 'H'),
                minutes + seconds, [t.hours], [t.minutes] + [SecondsCapture(t.seconds)]);
  }

  lemma {:induction false} CapturedTimeText(text: string, caps: Captured) returns (t: Time)
    requires Captures(CAPTURED_TIME, text, caps)
    ensures GoodTime(t) && text == TimeText(t) && caps == TimeCaptures(t)
  {
    var i, hours, rest := SplitCaptures(CapturedUnit('H'), Cat(CapturedUnit('M'), CAPTURED_SECONDS), text, caps);
    UnitCaptures('H', text[..i], hours);
    var j, minutes, last := SplitCaptures(CapturedUnit('M'), CAPTURED_SECONDS, text[i..], rest);
    UnitCaptures('M', text[i..][..j], minutes);
    var seconds := CapturedSecondsText(text[i..][j..], last);
    t := Time(hours[0], minutes[0], seconds);
    assert hours == [hours[0]] && minutes == [minutes[0]];
  }

  lemma TimeHasThreeGroups()
    ensures GroupCount(Cat(Char('T'), CAPTURED_TIME)) == 3
  {
    OptGroup(DIGITS, 'H');
    OptGroup(DIGITS, 'M');
    OptGroup(Cat(DIGITS, FRACTION), 'S');
    assert GroupCount(CAPTURED_TIME) == 3;
  }

  lemma {:induction false} TimeOptionCaptured(t: Option<Time>)
    requires t.Some? ==> GoodTime(t.value)
    ensures Captures(Opt(Cat(Char('T'), CAPTURED_TIME)), TimeOptionText(t), TimeOptionCaptures(t))
    ensures |TimeOptionCaptures(t)| == 3
  {
    TimeHasThreeGroups();
    if t.Some? {
      TimeCaptured(t.value);
      CapturesCat(Char('T'), CAPTURED_TIME, "T", TimeText(t.value), [], TimeCaptures(t.value));
      assert [] + TimeCaptures(t.value) == TimeCaptures(t.value);
    }
  }

  lemma {:induction false} GroupsCaptured(g: Groups)
    requires Good(g)
    ensures Captures(PARSER_PATTERN, Text(g), CapturesOf(g))
  {
    var time := Opt(Cat(Char('T'), CAPTURED_TIME));
    var day, text, caps := UnitText(g.days, 'D'), TimeOptionText(g.time), TimeOptionCaptures(g.time);
    TimeHasThreeGroups();
    OptGroup(DIGITS, 'D');
    TimeOptionCaptured(g.time);
    UnitCaptures('D', day, [g.days]);
    CapturesCat(CapturedUnit('D'), time, day, text, [g.days], caps);
    CapturesCat(Char('P'), Cat(CapturedUnit('D'), time), "P", day + text, [], CapturesOf(g));
    assert [] + CapturesOf(g) == CapturesOf(g);
  }

  lemma {:induction false} CapturedTimeOption(text: string, caps: Captured) returns (t: Option<Time>)
    requires Captures(Opt(Cat(Char('T'), CAPTURED_TIME)), text, caps)
    ensures (t.Some? ==> GoodTime(t.value)) && text == TimeOptionText(t) && caps == TimeOptionCaptures(t)
  {
    TimeHasThreeGroups();
    if Captures(Cat(Char('T'), CAPTURED_TIME), text, caps) {
      var k, nothing, times := SplitCaptures(Char('T'), CAPTURED_TIME, text, caps);
      var time := CapturedTimeText(text[k..], times);
      assert text[..k] == "T" && caps == times;
      t := Some(time);
    } else {
      t := None;
    }
  }

  lemma {:induction false} CapturedText(s: string, caps: Captured) returns (g: Groups)
    requires Captures(PARSER_PATTERN, s, caps)
    ensures Good(g) && s == Text(g) && caps == CapturesOf(g)
  {
    var time := Opt(Cat(Char('T'), CAPTURED_TIME));
    var i, none, rest := SplitCaptures(Char('P'), Cat(CapturedUnit('D'), time), s, caps);
    var j, days, last := SplitCaptures(CapturedUnit('D'), time, s[i..], rest);
    var day, text := s[i..][..j], s[i..][j..];
    UnitCaptures('D', day, days);
    var t := CapturedTimeOption(text, last);
    assert s[..i] == "P" && caps == rest && days == [days[0]];
    g := Groups(days[0], t);
    assert s == "P" + (day + text);
  }

  lemma {:induction false} ScannerCaptures(s: string, caps: Captured)
    ensures Captures(PARSER_PATTERN, s, caps) <==> Scan(s).Some? && caps == CapturesOf(Scan(s).value)
  {
    if Captures(PARSER_PATTERN, s, caps) {
      var g := CapturedText(s, caps);
      ScanOfText(g);
    }
    if Scan(s).Some? {
      TextOfScan(s);
      GroupsCaptured(Scan(s).value);
    }
  }

  /** The scanner accepts exactly what the parser's pattern matches, and returns what the groups capture; so the
      pattern never matches in two ways. */
  lemma {:induction false} ScannerIsPattern(s: string)
    ensures forall caps :: Captures(PARSER_PATTERN, s, caps) <==> Scan(s).Some? && caps == CapturesOf(Scan(s).value)
    ensures Matches(PARSER_PATTERN, s) <==> Scan(s).Some?
  {
    forall caps
      ensures Captures(PARSER_PATTERN, s, caps) <==> Scan(s).Some? && caps == CapturesOf(Scan(s).value)
    {
      ScannerCaptures(s, caps);
    }
    MatchesIffCaptures(PARSER_PATTERN, s);
    if Scan(s).Some? {
      assert Captures(PARSER_PATTERN, s, CapturesOf(Scan(s).value));
    }
  }

  // ---- Milliseconds ----

  function Pow10(n: nat): (r: nat)
    ensures r >= 1
  {
    if n == 0 then 1 else 10 * Pow10(n - 1)
  }

  function UnitValue(digits: Option<string>): nat
    requires GoodUnit(digits)
  {
    if digits.None? then 0 else NatOf(digits.value)
  }

  /** parseFloat of the captured seconds, without rounding. */
  function SecondsValue(s: Option<Seconds>): real
    requires GoodSeconds(s)
  {
    if s.None? then 0.0 else
      NatOf(s.value.whole) as real
      + (if s.value.fraction.None? then 0.0
         else NatOf(s.value.fraction.value) as real / Pow10(|s.value.fraction.value|) as real)
  }

  function Millis(g: Groups): real
    requires Good(g)
  {
    UnitValue(g.days) as real * 86400000.0
    + (if g.time.None? then 0.0 else
         UnitValue(g.time.value.hours) as real * 3600000.0
         + UnitValue(g.time.value.minutes) as real * 60000.0
         + SecondsValue(g.time.value.seconds) * 1000.0)
  }

  function ParseDurationToMs(s: string): Result<real, string> {
    match Scan(s)
    case None => Err("Invalid ISO 8601 duration")
    case Some(g) => ScanIsExact(s, g); Ok(Millis(g))
  }

  /** A text parses to the sum of the parts it has: days, hours, minutes, and seconds with their decimals. */
  lemma {:induction false} ParseParts(g: Groups) returns (d: nat, h: nat, m: nat, s: nat, f: real)
    requires Good(g)
    ensures ParseDurationToMs(Text(g))
         == Ok(d as real * 86400000.0 + (h as real * 3600000.0 + m as real * 60000.0 + (s as real + f) * 1000.0))
    ensures d == if g.days.Some? then NatOf(g.days.value) else 0
    ensures h == if g.time.Some? && g.time.value.hours.Some? then NatOf(g.time.value.hours.value) else 0
    ensures m == if g.time.Some? && g.time.value.minutes.Some? then NatOf(g.time.value.minutes.value) else 0
    ensures g.time.Some? && g.time.value.seconds.Some? ==>
              var seconds := g.time.value.seconds.value;
              && s == NatOf(seconds.whole)
              && f == if seconds.fraction.None? then 0.0
                      else NatOf(seconds.fraction.value) as real / Pow10(|seconds.fraction.value|) as real
    ensures g.time.None? || g.time.value.seconds.None? ==> s == 0 && f == 0.0
  {
    ScanOfText(g);
    d, h, m, s, f := UnitValue(g.days), 0, 0, 0, 0.0;
    if g.time.Some? {
      var t := g.time.value;
      h, m := UnitValue(t.hours), UnitValue(t.minutes);
      if t.seconds.Some? {
        s := NatOf(t.seconds.value.whole);
        f := SecondsValue(t.seconds) - s as real;
        assert t.seconds.value.fraction.None? ==> f == 0.0;
      }
      assert SecondsValue(t.seconds) == s as real + f;
    }
  }

  function Components(d: nat, h: nat, m: nat, s: nat): Groups {
    Groups(Some(Digits(d)), Some(Time(Some(Digits(h)), Some(Digits(m)), Some(Seconds(Digits(s), None)))))
  }

  lemma {:induction false} ComponentsText(d: nat, h: nat, m: nat, s: nat)
    ensures Text(Components(d, h, m, s))
         == "P" + (Digits(d) + "D" + ("T" + (Digits(h) + "H" + (Digits(m) + "M" + (Digits(s) + "S")))))
  {
    assert SecondsText(Seconds(Digits(s), None)) == Digits(s);
  }

  lemma {:induction false} ComponentsMillis(d: nat, h: nat, m: nat, s: nat)
    ensures Millis(Components(d, h, m, s)) == ((((d * 24 + h) * 60 + m) * 60 + s) * 1000) as real
  {
    DigitsRoundTrip(d);
    DigitsRoundTrip(h);
    DigitsRoundTrip(m);
    DigitsRoundTrip(s);
  }

  /** Days, hours, minutes and seconds parse as 24 hours, 60 minutes, 60 seconds and 1000 milliseconds. */
  lemma {:induction false} ParseComponents(d: nat, h: nat, m: nat, s: nat)
    ensures ParseDurationToMs(
              "P" + (Digits(d) + "D" + ("T" + (Digits(h) + "H" + (Digits(m) + "M" + (Digits(s) + "S"))))))
         == Ok(((((d * 24 + h) * 60 + m) * 60 + s) * 1000) as real)
  {
    ComponentsText(d, h, m, s);
    ComponentsMillis(d, h, m, s);
    ScanOfText(Components(d, h, m, s));
  }

  // ---- The validator ----

  ghost predicate ValidateDuration(s: string) {
    s != "" && Matches(VALIDATOR_PATTERN, s) && s != "P" && s != "PT"
  }

  lemma {:induction false} ValidatorPatternIsUngrouped()
    ensures Ungrouped(PARSER_PATTERN) == VALIDATOR_PATTERN
  {
    var number := Cat(DIGITS, FRACTION);
    assert Ungrouped(DIGITS) == DIGITS;
    assert Ungrouped(Cat(Char('.'), DIGITS)) == Cat(Char('.'), DIGITS);
    assert Ungrouped(number) == Cat(DIGITS, Ungrouped(FRACTION)) == number;
    assert Ungrouped(Cat(Group(number), Char('S'))) == Cat(number, Char('S'));
    assert Ungrouped(CAPTURED_SECONDS) == Opt(Cat(number, Char('S')));
    assert forall unit :: Ungrouped(CapturedUnit(unit)) == Unit(unit);
    assert Ungrouped(CAPTURED_TIME)
        == Cat(Unit('H'), Cat(Unit('M'), Opt(Cat(number, Char('S')))));
  }

  /** The validator's pattern, written apart from the parser's, matches the same strings; so the validator
      accepts what parses, without "P" and "PT". */
  lemma {:induction false} ValidatorAcceptsAllButTwo(s: string)
    ensures Matches(VALIDATOR_PATTERN, s) <==> Matches(PARSER_PATTERN, s)
    ensures ParseDurationToMs(s).Ok? <==> Matches(PARSER_PATTERN, s)
    ensures ParseDurationToMs(s).Ok? <==> ValidateDuration(s) || s == "P" || s == "PT"
  {
    ValidatorPatternIsUngrouped();
    UngroupedMatches(PARSER_PATTERN, s);
    ScannerIsPattern(s);
    ScanOfText(Groups(None, None));
    ScanOfText(Groups(None, Some(Time(None, None, None))));
    assert Text(Groups(None, None)) == "P" && Text(Groups(None, Some(Time(None, None, None)))) == "PT";
  }

  // ---- Printing ----

  function DigitChar(d: nat): char
    requires d < 10
  {
    '0' + d as char
  }

  /** The nearest integer; the larger of two. */
  function Round(x: real): (n: nat)
    requires x >= 0.0
    ensures n as real - 0.5 <= x < n as real + 0.5
  {
    (x + 0.5).Floor
  }

  /** (n / 1000).toFixed(3) for an integer n. */
  function Thousandths(n: nat): string {
    Digits(n / 1000) + "." + [DigitChar(n / 100 % 10), DigitChar(n / 10 % 10), DigitChar(n % 10)]
  }

  /** (ms / 1000).toFixed(3). */
  function ToFixed3(ms: real): string {
    if ms < 0.0 then "-" + Thousandths(Round(-ms)) else Thousandths(Round(ms))
  }

  /** s.replace(/0+$/, ''). */
  function StripZeros(s: string): string {
    if s != "" && Last(s) == '0' then StripZeros(Front(s)) else s
  }

  /** s.replace(/\.$/, ''). */
  function StripDot(s: string): string {
    if s != "" && Last(s) == '.' then Front(s) else s
  }

  function AddUnit(result: string, n: nat, unit: string): string {
    if n > 0 then result + (Digits(n) + unit) else result
  }

  function SecondsOf(ms: real): (total: nat)
    requires ms >= 1000.0
    ensures total >= 1 && (total * 1000) as real <= ms < (total * 1000 + 1000) as real
  {
    (ms / 1000.0).Floor
  }

  function IsoDuration(ms: real): string {
    if ms < 1000.0 then "PT" + StripDot(StripZeros(ToFixed3(ms))) + "S" else
      var total := SecondsOf(ms);
      var result := AddUnit(AddUnit(AddUnit("PT", total / 3600, "H"), total % 3600 / 60, "M"), total % 60, "S");
      if result == "PT" then "PT0S" else result
  }

  method MsToIsoDuration(ms: real) returns (result: string)
    ensures result == IsoDuration(ms)
  {
    if ms < 1000.0 {
      return "PT" + StripDot(StripZeros(ToFixed3(ms))) + "S";
    }
    var totalSeconds := (ms / 1000.0).Floor;
    var hours := totalSeconds / 3600;
    var minutes := totalSeconds % 3600 / 60;
    var seconds := totalSeconds % 60;
    result := "PT";
    if hours > 0 {
      result := result + (Digits(hours) + "H");
    }
    if minutes > 0 {
      result := result + (Digits(minutes) + "M");
    }
    if seconds > 0 {
      result := result + (Digits(seconds) + "S");
    }
    if result == "PT" {
      result := "PT0S";
    }
  }

  // Below one second

  /** The decimals of n thousandths that survive stripping. */
  function Decimals(n: nat): string {
    DecimalsOf(n / 100 % 10, n / 10 % 10, n % 10)
  }

  function DecimalsOf(x: nat, y: nat, z: nat): string
    requires x < 10 && y < 10 && z < 10
  {
    if z > 0 then [DigitChar(x), DigitChar(y), DigitChar(z)]
    else if y > 0 then [DigitChar(x), DigitChar(y)]
    else if x > 0 then [DigitChar(x)]
    else ""
  }

  lemma {:induction false} StripAppend(s: string, c: char)
    ensures StripZeros(s + [c]) == if c == '0' then StripZeros(s) else s + [c]
  {
    assert Front(s + [c]) == s;
  }

  lemma {:induction false} StrippedDecimals(n: nat)
    ensures StripZeros(Thousandths(n)) == Digits(n / 1000) + "." + Decimals(n)
  {
    var w := Digits(n / 1000) + ".";
    var a, b, c := DigitChar(n / 100 % 10), DigitChar(n / 10 % 10), DigitChar(n % 10);
    var s1, s2, s3 := w + [a], w + [a, b], w + [a, b, c];
    assert s3 == s2 + [c] && s2 == s1 + [b];
    StripAppend(s2, c);
    StripAppend(s1, b);
    StripAppend(w, a);
    assert Last(w) == '.' && w + "" == w;
  }

  lemma {:induction false} NatOfAppend(s: string, d: nat)
    requires (forall i | 0 <= i < |s| :: IsDigit(s[i])) && d < 10
    ensures NatOf(s + [DigitChar(d)]) == 10 * NatOf(s) + d
  {
    assert Front(s + [DigitChar(d)]) == s;
  }

  lemma {:induction false} DecimalsOfValue(x: nat, y: nat, z: nat) returns (n: nat, k: nat)
    requires x < 10 && y < 10 && z < 10
    ensures var d := DecimalsOf(x, y, z);
            && (forall i | 0 <= i < |d| :: IsDigit(d[i]))
            && (d == "" <==> x == y == z == 0)
            && NatOf(d) == n && |d| == k <= 3
    ensures k == 3 ==> n == 100 * x + 10 * y + z
    ensures k == 2 ==> n == 10 * x + y && z == 0
    ensures k == 1 ==> n == x && y == z == 0
    ensures k == 0 ==> n == x == y == z == 0
  {
    n, k := NatOf(DecimalsOf(x, y, z)), |DecimalsOf(x, y, z)|;
    NatOfThree(x, y, z);
  }

  lemma {:induction false} NatOfThree(x: nat, y: nat, z: nat)
    requires x < 10 && y < 10 && z < 10
    ensures NatOf("") == 0 && NatOf([DigitChar(x)]) == x
    ensures NatOf([DigitChar(x), DigitChar(y)]) == 10 * x + y
    ensures NatOf([DigitChar(x), DigitChar(y), DigitChar(z)]) == 100 * x + 10 * y + z
  {
    var a, b := [DigitChar(x)], [DigitChar(x), DigitChar(y)];
    NatOfAppend("", x);
    assert "" + a == a;
    NatOfAppend(a, y);
    assert a + [DigitChar(y)] == b;
    NatOfAppend(b, z);
    assert b + [DigitChar(z)] == [DigitChar(x), DigitChar(y), DigitChar(z)];
  }

  lemma {:induction false} DecimalsValue(n: nat)
    ensures forall i | 0 <= i < |Decimals(n)| :: IsDigit(Decimals(n)[i])
    ensures n % 1000 == 0 <==> Decimals(n) == ""
    ensures NatOf(Decimals(n)) * 1000 == n % 1000 * Pow10(|Decimals(n)|)
  {
    var v, k := DecimalsOfValue(n / 100 % 10, n / 10 % 10, n % 10);
    ThreeDigits(n);
    ScaledDecimals(v, k, n % 1000);
  }

  lemma {:induction false} ThreeDigits(n: nat)
    ensures n % 1000 == 100 * (n / 100 % 10) + 10 * (n / 10 % 10) + n % 10
  {
    assert n / 100 == n / 10 / 10 && n / 1000 == n / 100 / 10;
  }

  lemma {:induction false} ScaledDecimals(v: nat, k: nat, n: nat)
    requires k <= 3 && n == v * (if k == 3 then 1 else if k == 2 then 10 else if k == 1 then 100 else 1)
    requires k == 0 ==> v == 0
    ensures v * 1000 == n * Pow10(k)
  {
    assert Pow10(0) == 1 && Pow10(1) == 10 && Pow10(2) == 100 && Pow10(3) == 1000;
  }

  // The groups of a printed duration

  function NonZero(n: nat): Option<string> {
    if n > 0 then Some(Digits(n)) else None
  }

  function FixedSeconds(n: nat): Seconds {
    Seconds(Digits(n / 1000), if n % 1000 == 0 then None else Some(Decimals(n)))
  }

  function Printed(ms: real): Groups
    requires ms >= 0.0
  {
    if ms < 1000.0 then
      Groups(None, Some(Time(None, None, Some(FixedSeconds(Round(ms))))))
    else
      var total := SecondsOf(ms);
      Groups(None, Some(Time(NonZero(total / 3600), NonZero(total % 3600 / 60),
                             if total % 60 > 0 then Some(Seconds(Digits(total % 60), None)) else None)))
  }

  lemma {:induction false} OnlySeconds(seconds: Seconds)
    ensures Text(Groups(None, Some(Time(None, None, Some(seconds))))) == "PT" + SecondsText(seconds) + "S"
  {
  }

  lemma {:induction false} StrippedText(n: nat)
    ensures StripDot(StripZeros(Thousandths(n))) == SecondsText(FixedSeconds(n))
    ensures GoodSeconds(Some(FixedSeconds(n)))
  {
    StrippedDecimals(n);
    DecimalsValue(n);
    var w, d := Digits(n / 1000), Decimals(n);
    if d == "" {
      assert w + "." + "" == w + "." && Front(w + ".") == w && w + "" == w;
    } else {
      assert Last(w + "." + d) == Last(d) == d[|d| - 1];
      assert w + "." + d == w + ("." + d);
    }
  }

  lemma {:induction false} PrintedSmall(ms: real)
    requires 0.0 <= ms < 1000.0
    ensures Good(Printed(ms)) && IsoDuration(ms) == Text(Printed(ms))
  {
    StrippedText(Round(ms));
    OnlySeconds(FixedSeconds(Round(ms)));
  }

  lemma {:induction false} Glue(h: string, m: string, s: string)
    ensures "PT" + h + m + s == "P" + ("" + ("T" + (h + (m + s))))
  {
  }

  lemma {:induction false} AddUnitText(result: string, n: nat, unit: char)
    ensures AddUnit(result, n, [unit]) == result + UnitText(NonZero(n), unit)
  {
    assert result + "" == result;
  }

  lemma {:induction false} PrintedLarge(ms: real)
    requires ms >= 1000.0
    ensures Good(Printed(ms)) && IsoDuration(ms) == Text(Printed(ms))
  {
    var total := SecondsOf(ms);
    var x, y, z := total / 3600, total % 3600 / 60, total % 60;
    TotalParts(total);
    AddUnitText("PT", x, 'H');
    AddUnitText(AddUnit("PT", x, "H"), y, 'M');
    AddUnitText(AddUnit(AddUnit("PT", x, "H"), y, "M"), z, 'S');
    var h, m, s := UnitText(NonZero(x), 'H'), UnitText(NonZero(y), 'M'), UnitText(NonZero(z), 'S');
    assert s == SecondsPart(Printed(ms).time.value.seconds) by {
      assert Digits(z) + "" == Digits(z);
    }
    Glue(h, m, s);
    assert |"PT" + h + m + s| > 2;
  }

  lemma {:induction false} TotalParts(total: nat)
    ensures total == total / 3600 * 3600 + total % 3600 / 60 * 60 + total % 60
  {
    assert total % 3600 % 60 == total % 60;
  }

  /** What printing keeps of a number of milliseconds: it is rounded below a second, and cut to whole seconds
      from there on. */
  function Kept(ms: real): nat
    requires ms >= 0.0
  {
    if ms < 1000.0 then Round(ms) else SecondsOf(ms) * 1000
  }

  lemma {:induction false} FixedSecondsValue(n: nat)
    ensures GoodSeconds(Some(FixedSeconds(n))) && SecondsValue(Some(FixedSeconds(n))) * 1000.0 == n as real
  {
    StrippedText(n);
    DecimalsValue(n);
    DigitsRoundTrip(n / 1000);
    assert n == n / 1000 * 1000 + n % 1000;
    if n % 1000 > 0 {
      Scaled(NatOf(Decimals(n)), Pow10(|Decimals(n)|), n % 1000);
    }
  }

  lemma {:induction false} PrintedMillis(ms: real)
    requires ms >= 0.0 && Good(Printed(ms))
    ensures Millis(Printed(ms)) == Kept(ms) as real
  {
    if ms < 1000.0 {
      FixedSecondsValue(Round(ms));
    } else {
      var total := SecondsOf(ms);
      TotalParts(total);
      DigitsRoundTrip(total / 3600);
      DigitsRoundTrip(total % 3600 / 60);
      DigitsRoundTrip(total % 60);
    }
  }

  lemma {:induction false} Scaled(n: nat, p: nat, ms: nat)
    requires p >= 1 && n * 1000 == ms * p
    ensures n as real / p as real * 1000.0 == ms as real
  {
    var x := n as real / p as real;
    assert x * p as real == n as real;
    assert n as real * 1000.0 == (n * 1000) as real == (ms * p) as real == ms as real * p as real;
    assert (x * 1000.0) * p as real == ms as real * p as real;
  }

  lemma {:induction false} PrintedText(ms: real)
    requires ms >= 0.0
    ensures Good(Printed(ms)) && IsoDuration(ms) == Text(Printed(ms))
  {
    if ms < 1000.0 {
      PrintedSmall(ms);
    } else {
      PrintedLarge(ms);
    }
  }

  lemma {:induction false} MinusIsNotScanned(rest: string)
    ensures Scan("PT-" + rest) == None
  {
    var s := "PT-" + rest;
    assert s[1..] == "T-" + rest && ("T-" + rest)[1..] == "-" + rest;
    assert DigitRun("T-" + rest) == 0 && DigitRun("-" + rest) == 0;
  }

  lemma {:induction false} NegativePrintsMinus(ms: real) returns (rest: string)
    requires ms < 0.0
    ensures IsoDuration(ms) == "PT-" + rest
  {
    var n := Round(-ms);
    var t := Thousandths(n);
    StripMinus(t);
    StrippedDecimals(n);
    var stripped := StripZeros(t);
    assert StripDot("-" + stripped) == "-" + StripDot(stripped) by {
      assert Last("-" + stripped) == Last(stripped) && Front("-" + stripped) == "-" + Front(stripped);
    }
    rest := StripDot(stripped) + "S";
    assert "PT" + ("-" + StripDot(stripped)) + "S" == "PT-" + rest;
  }

  lemma {:induction false} StripMinus(s: string)
    ensures StripZeros("-" + s) == "-" + StripZeros(s)
  {
    if s == "" {
      assert "-" + s == "-";
    } else {
      assert Front("-" + s) == "-" + Front(s) && Last("-" + s) == Last(s);
      StripMinus(Front(s));
    }
  }

  /** What is printed parses, and passes the validator, exactly when it was not negative; then parsing gives
      the milliseconds rounded below a second and whole seconds above. */
  lemma {:induction false} PrintParse(ms: real)
    ensures ParseDurationToMs(IsoDuration(ms)).Ok? <==> ms >= 0.0
    ensures ms >= 0.0 ==> ParseDurationToMs(IsoDuration(ms)) == Ok(Kept(ms) as real)
    ensures ValidateDuration(IsoDuration(ms)) <==> ms >= 0.0
  {
    if ms >= 0.0 {
      PrintedText(ms);
      ScanOfText(Printed(ms));
      PrintedMillis(ms);
    } else {
      var rest := NegativePrintsMinus(ms);
      MinusIsNotScanned(rest);
    }
    NeitherPNorPt(ms);
    ValidatorAcceptsAllButTwo(IsoDuration(ms));
  }

  /** From a second on, what is printed are the whole seconds as hours, minutes below 60 and seconds below 60,
      without the parts that are 0. */
  lemma {:induction false} PrintedUnits(ms: real) returns (h: nat, m: nat, s: nat)
    requires ms >= 1000.0
    ensures m < 60 && s < 60
    ensures (((h * 60 + m) * 60 + s) * 1000) as real <= ms < (((h * 60 + m) * 60 + s + 1) * 1000) as real
    ensures IsoDuration(ms)
         == "PT" + (if h > 0 then Digits(h) + "H" else "")
            + (if m > 0 then Digits(m) + "M" else "")
            + (if s > 0 then Digits(s) + "S" else "")
  {
    var total := SecondsOf(ms);
    h, m, s := total / 3600, total % 3600 / 60, total % 60;
    TotalParts(total);
    var x := AddUnit("PT", h, "H");
    var y := AddUnit(x, m, "M");
    assert "PT" + "" == "PT" && x + "" == x && y + "" == y;
  }

  /** Below a second, the digits of the nearest number of thousandths are printed, without zeros at the end. */
  lemma {:induction false} PrintedDecimals(ms: real) returns (n: nat, d: string)
    requires 0.0 <= ms < 1000.0
    ensures n as real - 0.5 <= ms < n as real + 0.5
    ensures (d == "" <==> n % 1000 == 0) && |d| <= 3 && (d != "" ==> IsDigits(d) && d[|d| - 1] != '0')
    ensures d != "" ==> NatOf(d) * 1000 == n % 1000 * Pow10(|d|)
    ensures IsoDuration(ms) == "PT" + Digits(n / 1000) + (if d == "" then "" else "." + d) + "S"
  {
    n := Round(ms);
    d := Decimals(n);
    StrippedText(n);
    DecimalsValue(n);
    assert "PT" + (Digits(n / 1000) + "." + d) + "S" == "PT" + Digits(n / 1000) + ("." + d) + "S";
    assert "PT" + Digits(n / 1000) + "" == "PT" + Digits(n / 1000);
    assert SecondsText(FixedSeconds(n)) == Digits(n / 1000) + (if d == "" then "" else "." + d);
  }

  lemma {:induction false} NeitherPNorPt(ms: real)
    ensures IsoDuration(ms) != "" && IsoDuration(ms) != "P" && IsoDuration(ms) != "PT"
  {
    if ms < 1000.0 {
      assert |IsoDuration(ms)| >= 3;
    }
  }

  lemma {:induction false} KeptPrintsTheSame(ms: real)
    requires ms >= 0.0
    ensures Printed(Kept(ms) as real) == Printed(ms)
  {
    if ms < 1000.0 {
      var n := Round(ms);
      if n < 1000 {
        assert Round(n as real) == n;
      } else {
        assert n == 1000 && SecondsOf(1000.0) == 1;
      }
    } else {
      assert SecondsOf(Kept(ms) as real) == SecondsOf(ms);
    }
  }

  /** Printing what a printed duration parses to prints it again. */
  lemma {:induction false} PrintIsIdempotent(ms: real)
    requires ParseDurationToMs(IsoDuration(ms)).Ok?
    ensures IsoDuration(ParseDurationToMs(IsoDuration(ms)).value) == IsoDuration(ms)
  {
    PrintParse(ms);
    KeptPrintsTheSame(ms);
    PrintedText(ms);
    PrintedText(Kept(ms) as real);
  }
}
