/** The date and time normalisers of `bookAppointment` in
    `backend/controllers/userController.js`: a slot date is `D_M_YYYY`/`DD_MM_YYYY` or
    `YYYY-MM-DD`; a slot time is 24-hour `H:mm` or 12-hour `hh:mm am/pm` and is always
    turned into a zero-padded `HH:mm`. */
module SlotFormat {
  import opened Common
  import opened LegacyModels

  // ---------------------------------------------------------------- decimal digits

  predicate AllDigits(s: string) {
    forall i :: 0 <= i < |s| ==> IsDigit(s[i])
  }

  function DigitValue(c: char): nat
    requires IsDigit(c)
  {
    c as int - '0' as int
  }

  function DigitChar(n: nat): (c: char)
    requires n < 10
    ensures IsDigit(c) && DigitValue(c) == n
  {
    ('0' as int + n) as char
  }

  /** `Number(s)` / `parseInt(s, 10)` of a string of decimal digits. */
  function ParseDecimal(s: string): nat
    requires AllDigits(s)
  {
    if s == [] then 0 else ParseDecimal(s[..|s| - 1]) * 10 + DigitValue(s[|s| - 1])
  }

  /** `String(n)` for a natural number. */
  function Decimal(n: nat): (r: string)
    ensures 1 <= |r| && AllDigits(r)
    ensures n < 10 <==> |r| == 1
  {
    if n < 10 then [DigitChar(n)] else Decimal(n / 10) + [DigitChar(n % 10)]
  }

  /** `s.padStart(width, '0')`. */
  function PadStart(s: string, width: nat): (r: string)
    ensures |r| == if |s| >= width then |s| else width
    decreases width - |s|
  {
    if |s| >= width then s else PadStart("0" + s, width)
  }

  lemma {:induction false} DecimalRoundTrip(n: nat)
    ensures ParseDecimal(Decimal(n)) == n
  {
    if n >= 10 {
      var r := Decimal(n);
      assert r[..|r| - 1] == Decimal(n / 10);
      DecimalRoundTrip(n / 10);
    }
  }

  lemma {:induction false} DecimalLength(n: nat)
    ensures n < 100 ==> |Decimal(n)| <= 2
    ensures n < 10000 ==> |Decimal(n)| <= 4
  {
    if n >= 10 {
      DecimalLength(n / 10);
    }
  }

  lemma {:induction false} LeadingZeroValue(s: string)
    requires AllDigits(s)
    ensures AllDigits("0" + s) && ParseDecimal("0" + s) == ParseDecimal(s)
  {
    if s != [] {
      var z := "0" + s;
      assert z[..|z| - 1] == "0" + s[..|s| - 1];
      LeadingZeroValue(s[..|s| - 1]);
    }
  }

  /** Zero padding keeps the digits and their value. */
  lemma {:induction false} PadStartValue(s: string, width: nat)
    requires AllDigits(s)
    ensures AllDigits(PadStart(s, width)) && ParseDecimal(PadStart(s, width)) == ParseDecimal(s)
    decreases width - |s|
  {
    if |s| < width {
      LeadingZeroValue(s);
      PadStartValue("0" + s, width);
    }
  }

  // ---------------------------------------------------------------- trimming and case

  /** The characters JavaScript's `trim` removes and `\s` matches: WhiteSpace and LineTerminator. */
  predicate IsSpace(c: char) {
    || c == '\t' || c == '\n' || c == '\U{000B}' || c == '\U{000C}' || c == '\r' || c == ' '
    || c == '\U{00A0}' || c == '\U{1680}' || ('\U{2000}' <= c <= '\U{200A}')
    || c == '\U{2028}' || c == '\U{2029}' || c == '\U{202F}' || c == '\U{205F}'
    || c == '\U{3000}' || c == '\U{FEFF}'
  }

  predicate AllSpace(s: string) {
    forall i :: 0 <= i < |s| ==> IsSpace(s[i])
  }

  /** Drops the longest all-space prefix. */
  function TrimStart(s: string): (r: string)
    ensures |r| <= |s| && r == s[|s| - |r|..]
    ensures AllSpace(s[..|s| - |r|])
    ensures r != [] ==> !IsSpace(r[0])
  {
    if s != [] && IsSpace(s[0]) then
      var rest := TrimStart(s[1..]);
      assert s[..|s| - |rest|] == [s[0]] + s[1..][..|s| - 1 - |rest|];
      rest
    else s
  }

  /** Drops the longest all-space suffix. */
  function TrimEnd(s: string): (r: string)
    ensures |r| <= |s| && r == s[..|r|]
    ensures AllSpace(s[|r|..])
    ensures r != [] ==> !IsSpace(r[|r| - 1])
  {
    if s != [] && IsSpace(s[|s| - 1]) then
      var rest := TrimEnd(s[..|s| - 1]);
      assert s[|rest|..] == s[..|s| - 1][|rest|..] + [s[|s| - 1]];
      rest
    else s
  }

  /** `String.prototype.trim`. */
  function Trim(s: string): string {
    TrimEnd(TrimStart(s))
  }

  function LowerChar(c: char): char {
    if 'A' <= c <= 'Z' then (c as int + 32) as char else c
  }

  /** `toLowerCase` on the letters that matter here. Only ASCII letters are folded: as the two
      patterns below consist of ASCII digits, `:`, spaces and `am`/`pm`, folding any other
      character cannot make a string match. */
  function Lower(s: string): (r: string)
    ensures |r| == |s| && forall i :: 0 <= i < |s| ==> r[i] == LowerChar(s[i])
  {
    seq(|s|, i requires 0 <= i < |s| => LowerChar(s[i]))
  }

  /** `String(slotTime).trim().toLowerCase()`. */
  function Canonical(raw: string): string {
    Lower(Trim(raw))
  }

  // ---------------------------------------------------------------- time patterns

  /** `/^([01]?\d|2[0-3]):([0-5]\d)$/`, which is the `slotTime` validator's pattern:
      the length of the hour group when `t` matches. */
  function Match24(t: string): (k: Option<nat>)
    ensures k.Some? <==> SlotTimeValid(t)
    ensures k.Some? ==> (k.value == 1 || k.value == 2) && |t| == k.value + 3 && t[k.value] == ':'
  {
    if |t| == 4 && SlotTimeValid(t) then Some(1)
    else if |t| == 5 && SlotTimeValid(t) then Some(2)
    else None
  }

  /** `/^(\d{1,2}):([0-5]\d)\s*(am|pm)$/` with the hour group of length `k`. */
  predicate Clock12At(t: string, k: nat) {
    && (k == 1 || k == 2) && |t| >= k + 5
    && AllDigits(t[..k]) && t[k] == ':' && Minutes(t[k + 1..k + 3])
    && AllSpace(t[k + 3..|t| - 2]) && (t[|t| - 2..] == "am" || t[|t| - 2..] == "pm")
  }

  /** The length of the hour group when `t` matches the 12-hour pattern. */
  function Match12(t: string): (k: Option<nat>)
    ensures k.Some? ==> Clock12At(t, k.value)
    ensures k.None? ==> !Clock12At(t, 1) && !Clock12At(t, 2)
  {
    if Clock12At(t, 1) then Some(1) else if Clock12At(t, 2) then Some(2) else None
  }

  /** `pm` adds 12 unless the hour is 12; `12 am` is hour 0. */
  function To24Hour(hour: nat, pm: bool): nat {
    if pm && hour != 12 then hour + 12
    else if !pm && hour == 12 then 0
    else hour
  }

  /** The 12-hour branch as written: the hour group is any one or two digits. */
  function From12(t: string, k: nat): string
    requires Clock12At(t, k)
  {
    var hour := To24Hour(ParseDecimal(t[..k]), t[|t| - 2..] == "pm");
    PadStart(Decimal(hour), 2) + ":" + t[k + 1..k + 3]
  }

  function From24(t: string, k: nat): string
    requires (k == 1 || k == 2) && |t| == k + 3
  {
    PadStart(t[..k], 2) + ":" + t[k + 1..]
  }

  /** The conversion as written in the source, on a trimmed lower-case time: a 12-hour time
      with an hour above 12 is converted too, so `13:00 pm` becomes `25:00`. */
  function ConvertAsWritten(t: string): Option<string> {
    var k24 := Match24(t);
    var k12 := Match12(t);
    if k24.Some? then Some(From24(t, k24.value))
    else if k12.Some? then Some(From12(t, k12.value))
    else None
  }

  /** The conversion with the 12-hour hour bounded by 12, the behaviour the `hh:mm am/pm`
      format promises; every other input is treated as written. */
  function Convert(t: string): Option<string> {
    var k24 := Match24(t);
    var k12 := Match12(t);
    if k24.Some? then Some(From24(t, k24.value))
    else if k12.Some? && ParseDecimal(t[..k12.value]) <= 12 then Some(From12(t, k12.value))
    else None
  }

  /** The time normaliser as written in the source. */
  function NormalizeTimeAsWritten(raw: string): Option<string> {
    ConvertAsWritten(Canonical(raw))
  }

  /** The corrected time normaliser, which the booking flow of this model uses. */
  function NormalizeTime(raw: string): Option<string> {
    Convert(Canonical(raw))
  }

  lemma TwoDigitHour(h: nat)
    requires h < 24
    ensures |PadStart(Decimal(h), 2)| == 2 && Hour24(PadStart(Decimal(h), 2))
  {
    if h >= 10 {
      var d := Decimal(h);
      assert Decimal(h / 10) == [DigitChar(h / 10)];
      assert d == [DigitChar(h / 10), DigitChar(h % 10)];
    }
  }

  /** Every normalised time is a padded `HH:mm` that the `slotTime` validator accepts. */
  lemma NormalizedTimeIsValid(raw: string)
    requires NormalizeTime(raw).Some?
    ensures |NormalizeTime(raw).value| == 5 && SlotTimeValid(NormalizeTime(raw).value)
  {
    var t := Canonical(raw);
    if Match24(t).Some? {
      From24IsValid(t, Match24(t).value);
    } else {
      From12IsValid(t, Match12(t).value);
    }
  }

  lemma From24IsValid(t: string, k: nat)
    requires (k == 1 || k == 2) && |t| == k + 3 && SlotTimeValid(t)
    ensures |From24(t, k)| == 5 && SlotTimeValid(From24(t, k))
  {
    var out := From24(t, k);
    var h := PadStart(t[..k], 2);
    assert Hour24(t[..k]);
    assert |h| == 2 && Hour24(h) by {
      if k == 1 {
        assert PadStart(t[..1], 2) == PadStart("0" + t[..1], 2);
        assert h == "0" + t[..1];
      }
    }
    assert out == h + ":" + t[k + 1..];
    assert out[..2] == h && out[3..] == t[k + 1..];
  }

  lemma From12IsValid(t: string, k: nat)
    requires Clock12At(t, k) && ParseDecimal(t[..k]) <= 12
    ensures |From12(t, k)| == 5 && SlotTimeValid(From12(t, k))
  {
    var out := From12(t, k);
    var hour := To24Hour(ParseDecimal(t[..k]), t[|t| - 2..] == "pm");
    var h := PadStart(Decimal(hour), 2);
    TwoDigitHour(hour);
    assert out == h + ":" + t[k + 1..k + 3];
    assert out[..2] == h && out[3..] == t[k + 1..k + 3];
  }

  /** The correction only rejects inputs: whatever it accepts, the source's normaliser
      turns into the same string. */
  lemma NormalizeTimeAgreesWithSource(raw: string)
    requires NormalizeTime(raw).Some?
    ensures NormalizeTimeAsWritten(raw) == NormalizeTime(raw)
  {
  }

  /** A string with no surrounding whitespace and no upper-case letter is already canonical. */
  lemma CanonicalOfPlain(s: string)
    requires s != [] && !IsSpace(s[0]) && !IsSpace(s[|s| - 1])
    requires forall i :: 0 <= i < |s| ==> !('A' <= s[i] <= 'Z')
    ensures Canonical(s) == s
  {
    assert TrimStart(s) == s;
    assert TrimEnd(s) == s;
  }

  lemma ParseTwoDigits(s: string)
    requires |s| == 2 && AllDigits(s)
    ensures ParseDecimal(s) == DigitValue(s[0]) * 10 + DigitValue(s[1])
  {
    var a := s[..1];
    assert a[..0] == [];
    assert ParseDecimal(a) == DigitValue(s[0]);
  }

  lemma DecimalTwoDigits(n: nat)
    requires 10 <= n < 100
    ensures Decimal(n) == [DigitChar(n / 10), DigitChar(n % 10)]
  {
  }

  /** `hh:mm am` / `hh:mm pm` with a two-digit hour and one space matches only the 12-hour
      pattern, with the hour group of length 2. */
  lemma TwelveHourShape(t: string)
    requires |t| == 8 && IsDigit(t[0]) && IsDigit(t[1]) && t[2] == ':' && '0' <= t[3] <= '5' && IsDigit(t[4])
    requires t[5] == ' ' && (t[6] == 'a' || t[6] == 'p') && t[7] == 'm'
    ensures ParseDecimal(t[..2]) == DigitValue(t[0]) * 10 + DigitValue(t[1])
    ensures Match24(t) == None && Match12(t) == Some(2)
    ensures (t[|t| - 2..] == "pm") == (t[6] == 'p')
    ensures ConvertAsWritten(t) == Some(From12(t, 2))
    ensures Convert(t) == if ParseDecimal(t[..2]) <= 12 then Some(From12(t, 2)) else None
  {
    assert AllDigits(t[..2]);
    ParseTwoDigits(t[..2]);
    assert AllSpace(t[5..6]);
    assert Minutes(t[3..5]);
    assert t[|t| - 2..] == [t[6], t[7]];
  }

  /** The 12-hour conversion of a time whose 24-hour hour has two digits. */
  lemma From12TwoDigits(t: string)
    requires Clock12At(t, 2)
    requires 10 <= To24Hour(ParseDecimal(t[..2]), t[|t| - 2..] == "pm") < 100
    ensures var h := To24Hour(ParseDecimal(t[..2]), t[|t| - 2..] == "pm");
      From12(t, 2) == [DigitChar(h / 10), DigitChar(h % 10), ':', t[3], t[4]]
  {
    var h := To24Hour(ParseDecimal(t[..2]), t[|t| - 2..] == "pm");
    DecimalTwoDigits(h);
    assert PadStart(Decimal(h), 2) == Decimal(h);
  }

  /** The source's normaliser turns `13:00 pm` into `25:00`, which the `slotTime` validator
      refuses; the corrected one rejects the input. */
  lemma AsWrittenHourOverflow(t: string)
    requires t == "13:00 pm"
    ensures NormalizeTimeAsWritten(t) == Some("25:00")
    ensures !SlotTimeValid(NormalizeTimeAsWritten(t).value)
    ensures NormalizeTime(t) == None
  {
    ThirteenPm(t);
    var u := NormalizeTimeAsWritten(t).value;
    HourTwentyFiveRefused(u);
  }

  lemma ThirteenPm(t: string)
    requires t == "13:00 pm"
    ensures NormalizeTimeAsWritten(t) == Some("25:00")
    ensures NormalizeTime(t) == None
  {
    CanonicalOfPlain(t);
    ThirteenPmConverts(t);
  }

  lemma ThirteenPmConverts(t: string)
    requires t == "13:00 pm"
    ensures ConvertAsWritten(t) == Some("25:00") && Convert(t) == None
  {
    TwelveHourShape(t);
    From12TwoDigits(t);
    assert From12(t, 2) == "25:00";
  }

  lemma HourTwentyFiveRefused(u: string)
    requires u == "25:00"
    ensures !SlotTimeValid(u)
  {
    assert u[..2] == "25";
  }

  /** The other side of the bound: the source books `13:00 am` as the valid `13:00`, which
      the corrected normaliser refuses with every other 12-hour time whose hour exceeds 12. */
  lemma ThirteenAm(t: string)
    requires t == "13:00 am"
    ensures NormalizeTimeAsWritten(t) == Some("13:00")
    ensures SlotTimeValid(NormalizeTimeAsWritten(t).value)
    ensures NormalizeTime(t) == None
  {
    CanonicalOfPlain(t);
    TwelveHourShape(t);
    From12TwoDigits(t);
    assert From12(t, 2) == "13:00";
    var u := NormalizeTimeAsWritten(t).value;
    assert u[..2] == "13" && u[3..] == "00";
  }

  /** `02:30 pm` is 14:30. */
  lemma AfternoonTime(p: string)
    requires p == "02:30 pm"
    ensures NormalizeTime(p) == Some("14:30")
  {
    CanonicalOfPlain(p);
    AfternoonConverts(p);
  }

  lemma AfternoonConverts(p: string)
    requires p == "02:30 pm"
    ensures Convert(p) == Some("14:30")
  {
    TwelveHourShape(p);
    From12TwoDigits(p);
    assert From12(p, 2) == "14:30";
  }

  /** `02:30 pm` and `14:30` normalise to the same `14:30`. */
  lemma TwelveAndTwentyFourHourAgree(p: string, q: string)
    requires p == "02:30 pm" && q == "14:30"
    ensures NormalizeTime(p) == Some("14:30")
    ensures NormalizeTime(q) == Some("14:30")
  {
    AfternoonTime(p);
    AfternoonIsValid(q);
    ValidTimeIsFixed(q);
  }

  lemma AfternoonIsValid(q: string)
    requires q == "14:30"
    ensures |q| == 5 && SlotTimeValid(q)
  {
    assert q[..2] == "14" && q[3..] == "30";
  }

  /** Normalising a normalised time gives it back. */
  lemma NormalizeTimeIdempotent(raw: string)
    requires NormalizeTime(raw).Some?
    ensures NormalizeTime(NormalizeTime(raw).value) == NormalizeTime(raw)
  {
    var t := NormalizeTime(raw).value;
    NormalizedTimeIsValid(raw);
    ValidTimeIsFixed(t);
  }

  /** A padded valid `HH:mm` is canonical and converts to itself. */
  lemma ValidTimeIsFixed(t: string)
    requires |t| == 5 && SlotTimeValid(t)
    ensures NormalizeTime(t) == Some(t)
  {
    assert forall i :: 0 <= i < |t| ==> IsDigit(t[i]) || t[i] == ':';
    CanonicalOfPlain(t);
    assert Match24(t) == Some(2);
    assert t == t[..2] + ":" + t[3..];
    assert From24(t, 2) == t;
  }

  // ---------------------------------------------------------------- date patterns

  /** `/^\d{1,2}_\d{1,2}_\d{4}$/` with the day group of length `i` and the second `_` at `j`. */
  predicate DmyAt(s: string, i: nat, j: nat) {
    && (i == 1 || i == 2) && (j == i + 2 || j == i + 3) && |s| == j + 5
    && s[i] == '_' && s[j] == '_'
    && AllDigits(s[..i]) && AllDigits(s[i + 1..j]) && AllDigits(s[j + 1..])
  }

  /** The positions of the two `_` when `s` is a `D_M_YYYY` date. */
  function MatchDmy(s: string): (r: Option<(nat, nat)>)
    ensures r.Some? ==> DmyAt(s, r.value.0, r.value.1)
  {
    var i := if |s| > 1 && s[1] == '_' then 1 else 2;
    var j := if |s| > i + 2 && s[i + 2] == '_' then i + 2 else i + 3;
    if DmyAt(s, i, j) then Some((i, j)) else None
  }

  /** A digit group is never `_`, so the two `_` of a `D_M_YYYY` date sit where
      `MatchDmy` looks for them. */
  lemma DmyPositions(s: string, i: nat, j: nat)
    requires DmyAt(s, i, j)
    ensures i == (if s[1] == '_' then 1 else 2)
    ensures j == (if s[i + 2] == '_' then i + 2 else i + 3)
  {
    if i == 2 {
      assert IsDigit(s[..i][1]);
    }
    if j == i + 3 {
      assert IsDigit(s[i + 1..j][1]);
    }
  }

  /** The pattern finds every `D_M_YYYY` date, at the only positions it can have. */
  lemma MatchDmyComplete(s: string, i: nat, j: nat)
    requires DmyAt(s, i, j)
    ensures MatchDmy(s) == Some((i, j))
  {
    DmyPositions(s, i, j);
  }

  /** `/^\d{4}-\d{2}-\d{2}$/`. */
  predicate IsoShape(s: string) {
    && |s| == 10 && s[4] == '-' && s[7] == '-'
    && AllDigits(s[..4]) && AllDigits(s[5..7]) && AllDigits(s[8..])
  }

  /** The date normaliser: a `D_M_YYYY` date is read as written; an ISO date parses when its
      month is 01-12 and its day 01-31; anything else is refused. */
  function NormalizeDate(raw: string): Option<CalendarDate> {
    var dmy := MatchDmy(raw);
    if dmy.Some? then
      var (i, j) := dmy.value;
      Some(CalendarDate(ParseDecimal(raw[j + 1..]), ParseDecimal(raw[i + 1..j]), ParseDecimal(raw[..i])))
    else if IsoShape(raw) then
      var month := ParseDecimal(raw[5..7]);
      var day := ParseDecimal(raw[8..]);
      if 1 <= month <= 12 && 1 <= day <= 31 then Some(CalendarDate(ParseDecimal(raw[..4]), month, day))
      else None
    else None
  }

  /** A date written as the ISO `YYYY-MM-DD`. */
  function IsoDate(d: CalendarDate): string {
    PadStart(Decimal(d.year), 4) + "-" + PadStart(Decimal(d.month), 2) + "-" + PadStart(Decimal(d.day), 2)
  }

  /** A date written as the `D_M_YYYY` form the front end sends. */
  function DmyDate(d: CalendarDate): string {
    Decimal(d.day) + "_" + Decimal(d.month) + "_" + PadStart(Decimal(d.year), 4)
  }

  lemma PaddedDecimal(n: nat, width: nat)
    ensures AllDigits(PadStart(Decimal(n), width)) && ParseDecimal(PadStart(Decimal(n), width)) == n
  {
    PadStartValue(Decimal(n), width);
    DecimalRoundTrip(n);
  }

  /** Every valid day written in ISO form normalises back to itself. */
  lemma IsoDateRoundTrip(d: CalendarDate)
    requires d.year < 10000 && 1 <= d.month <= 12 && 1 <= d.day <= 31
    ensures NormalizeDate(IsoDate(d)) == Some(d)
  {
    var y, m, dd := PadStart(Decimal(d.year), 4), PadStart(Decimal(d.month), 2), PadStart(Decimal(d.day), 2);
    DecimalLength(d.year);
    DecimalLength(d.month);
    DecimalLength(d.day);
    PaddedDecimal(d.year, 4);
    PaddedDecimal(d.month, 2);
    PaddedDecimal(d.day, 2);
    IsoParts(y, m, dd);
    IsoParse(IsoDate(d));
  }

  /** `YYYY-MM-DD` assembled from digit groups of the right lengths has the ISO shape. */
  lemma IsoParts(y: string, m: string, dd: string)
    requires |y| == 4 && |m| == 2 && |dd| == 2 && AllDigits(y) && AllDigits(m) && AllDigits(dd)
    ensures var s := y + "-" + m + "-" + dd; IsoShape(s) && s[..4] == y && s[5..7] == m && s[8..] == dd
  {
    var s := y + "-" + m + "-" + dd;
    assert s[..4] == y && s[5..7] == m && s[8..] == dd;
  }

  /** An ISO-shaped string is not a `D_M_YYYY` date, so it is read by the ISO branch. */
  lemma IsoParse(s: string)
    requires IsoShape(s)
    ensures var month, day := ParseDecimal(s[5..7]), ParseDecimal(s[8..]);
      NormalizeDate(s) == if 1 <= month <= 12 && 1 <= day <= 31 then Some(CalendarDate(ParseDecimal(s[..4]), month, day)) else None
  {
    assert IsDigit(s[..4][1]) && IsDigit(s[..4][2]);
    assert MatchDmy(s) == None;
  }

  /** Every day with a one- or two-digit day and month, written as `D_M_YYYY`, normalises
      back to itself. */
  lemma DmyDateRoundTrip(d: CalendarDate)
    requires d.year < 10000 && d.month < 100 && d.day < 100
    ensures NormalizeDate(DmyDate(d)) == Some(d)
  {
    var dd, m, y := Decimal(d.day), Decimal(d.month), PadStart(Decimal(d.year), 4);
    DecimalLength(d.year);
    DecimalLength(d.month);
    DecimalLength(d.day);
    DecimalRoundTrip(d.day);
    DecimalRoundTrip(d.month);
    PaddedDecimal(d.year, 4);
    DmyParts(dd, m, y);
  }

  /** `D_M_YYYY` assembled from digit groups of the right lengths reads back as those groups. */
  lemma DmyParts(dd: string, m: string, y: string)
    requires 1 <= |dd| <= 2 && 1 <= |m| <= 2 && |y| == 4 && AllDigits(dd) && AllDigits(m) && AllDigits(y)
    ensures NormalizeDate(dd + "_" + m + "_" + y) == Some(CalendarDate(ParseDecimal(y), ParseDecimal(m), ParseDecimal(dd)))
  {
    var s := dd + "_" + m + "_" + y;
    var i, j := |dd|, |dd| + 1 + |m|;
    var rest := m + "_" + y;
    assert s == dd + "_" + rest;
    assert s[..i] == dd;
    assert s[i + 1..] == rest;
    assert rest[..|m|] == m && rest[|m| + 1..] == y;
    assert s[i + 1..j] == m;
    assert s[j + 1..] == y;
    assert s[i] == '_' && s[j] == '_';
    DmyParse(s, i, j);
  }

  lemma DmyParse(s: string, i: nat, j: nat)
    requires DmyAt(s, i, j)
    ensures NormalizeDate(s) == Some(CalendarDate(ParseDecimal(s[j + 1..]), ParseDecimal(s[i + 1..j]), ParseDecimal(s[..i])))
  {
    MatchDmyComplete(s, i, j);
  }

  lemma ParseFourDigits(s: string)
    requires |s| == 4 && AllDigits(s)
    ensures ParseDecimal(s) == DigitValue(s[0]) * 1000 + DigitValue(s[1]) * 100 + DigitValue(s[2]) * 10 + DigitValue(s[3])
  {
    var a := s[..3];
    assert s[..|s| - 1] == a && a[..|a| - 1] == s[..2];
    ParseTwoDigits(s[..2]);
  }

  /** `12_11_2025` and `2025-11-12` name the same day. */
  lemma BothDateFormsAgree(dmy: string, iso: string)
    requires dmy == "12_11_2025" && iso == "2025-11-12"
    ensures NormalizeDate(dmy) == Some(CalendarDate(2025, 11, 12))
    ensures NormalizeDate(iso) == Some(CalendarDate(2025, 11, 12))
  {
    DmyExample(dmy);
    IsoExample(iso);
  }

  lemma DmyExample(dmy: string)
    requires dmy == "12_11_2025"
    ensures NormalizeDate(dmy) == Some(CalendarDate(2025, 11, 12))
  {
    assert AllDigits(dmy[..2]) && AllDigits(dmy[3..5]) && AllDigits(dmy[6..]);
    DmyParse(dmy, 2, 5);
    ParseTwoDigits(dmy[..2]);
    ParseTwoDigits(dmy[3..5]);
    ParseFourDigits(dmy[6..]);
  }

  lemma IsoExample(iso: string)
    requires iso == "2025-11-12"
    ensures NormalizeDate(iso) == Some(CalendarDate(2025, 11, 12))
  {
    assert AllDigits(iso[..4]) && AllDigits(iso[5..7]) && AllDigits(iso[8..]);
    IsoParse(iso);
    ParseFourDigits(iso[..4]);
    ParseTwoDigits(iso[5..7]);
    ParseTwoDigits(iso[8..]);
  }

}
