/** When a candle closes a period of a larger timeframe, told from the clock of its end. */
module Calendar {
  import opened Types
  import opened Multiples

  /** A source timeframe, with its parsed duration in seconds, and a target timeframe. */
  datatype Resampling = Resampling(source: string, duration: Option<int>, target: string)

  const DAY := 86400

  function Second(t: int): int { t % 60 }

  function Minute(t: int): int { t / 60 % 60 }

  function Hour(t: int): int { t / 3600 % 24 }

  /** Days since Sunday; the epoch was a Thursday. */
  function Weekday(t: int): int { (t / DAY + 4) % 7 }

  datatype Period =
    | Minutes1 | Minutes5 | Minutes10 | Minutes15 | Minutes30
    | Hours1 | Hours2 | Hours4 | Hours12 | Days1 | Weeks1

  function Parse(target: string): Option<Period> {
    match target
    case "1m" => Some(Minutes1)
    case "5m" => Some(Minutes5)
    case "10m" => Some(Minutes10)
    case "15m" => Some(Minutes15)
    case "30m" => Some(Minutes30)
    case "1h" => Some(Hours1)
    case "2h" => Some(Hours2)
    case "4h" => Some(Hours4)
    case "12h" => Some(Hours12)
    case "1d" => Some(Days1)
    case "1w" => Some(Weeks1)
    case _ => None
  }

  /** Whether a period ends at the instant, told from its clock. */
  predicate EndsAt(next: int, p: Period) {
    match p
    case Minutes1 => Second(next) % 60 == 0
    case Minutes5 => Minute(next) % 5 == 0
    case Minutes10 => Minute(next) % 10 == 0
    case Minutes15 => Minute(next) % 15 == 0
    case Minutes30 => Minute(next) % 30 == 0
    case Hours1 => Minute(next) % 60 == 0
    case Hours2 => Minute(next) == 0 && Hour(next) % 2 == 0
    case Hours4 => Minute(next) == 0 && Hour(next) % 4 == 0
    case Hours12 => Minute(next) == 0 && Hour(next) % 12 == 0
    case Days1 => Minute(next) == 0 && Hour(next) % 24 == 0
    case Weeks1 => Minute(next) == 0 && Hour(next) % 24 == 0 && Weekday(next) == 0
  }

  function IsLastCandlePeriod(t: int, r: Resampling): Option<bool> {
    if r.source == r.target then Some(true)
    else if r.duration.None? then None
    else match Parse(r.target)
      case None => None
      case Some(p) => Some(EndsAt(t + r.duration.value, p))
  }

  function IsFirstCandlePeriod(t: int, r: Resampling): Option<bool> {
    if r.duration.None? then None else IsLastCandlePeriod(t - r.duration.value, r)
  }

  /** The length of a period in seconds. */
  function Length(p: Period): int {
    match p
    case Minutes1 => 60
    case Minutes5 => 300
    case Minutes10 => 600
    case Minutes15 => 900
    case Minutes30 => 1800
    case Hours1 => 3600
    case Hours2 => 7200
    case Hours4 => 14400
    case Hours12 => 43200
    case Days1 => DAY
    case Weeks1 => 7 * DAY
  }

  /** The seconds in the unit that a timeframe's last letter names. */
  function Unit(letter: char): Option<int> {
    match letter
    case 'm' => Some(60)
    case 'h' => Some(60 * 60)
    case 'd' => Some(24 * 60 * 60)
    case 'w' => Some(7 * 24 * 60 * 60)
    case _ => None
  }

  /** The number that decimal digits write. */
  function Number(digits: string): int {
    if digits == "" then 0 else 10 * Number(digits[..|digits| - 1]) + (digits[|digits| - 1] as int - '0' as int)
  }

  /** A target timeframe that is understood means as many of its units as its number says. */
  lemma TargetMeansItsText(target: string)
    requires Parse(target).Some?
    ensures target != ""
    ensures var n, unit := Number(target[..|target| - 1]), Unit(target[|target| - 1]);
      unit.Some? && Length(Parse(target).value) == n * unit.value
  {
    hide Number;
    if |target| == 2 { OneDigit(target[..1]); } else { TwoDigits(target[..2]); }
  }

  /** These are all the targets that are understood. */
  lemma UnderstoodTargets(target: string)
    ensures Parse(target).Some? <==>
      target in ["1m", "5m", "10m", "15m", "30m", "1h", "2h", "4h", "12h", "1d", "1w"]
  {
  }

  lemma OneDigit(s: string)
    requires |s| == 1
    ensures Number(s) == s[0] as int - '0' as int
  {
    assert s[..0] == "" && Number("") == 0;
  }

  lemma TwoDigits(s: string)
    requires |s| == 2
    ensures Number(s) == 10 * (s[0] as int - '0' as int) + (s[1] as int - '0' as int)
  {
    OneDigit(s[..1]);
  }

  /** Weeks are counted from Sunday 4 January 1970, all other periods from the epoch. */
  function Origin(p: Period): int { if p == Weeks1 then 3 * DAY else 0 }

  predicate Boundary(t: int, p: Period) { Multiple(t - Origin(p), Length(p)) }

  lemma Minute5(t: int)
    requires t % 60 == 0
    ensures Minute(t) % 5 == 0 <==> t % 300 == 0
  {
  }

  lemma Minute10(t: int)
    requires t % 60 == 0
    ensures Minute(t) % 10 == 0 <==> t % 600 == 0
  {
    var h, k, r := t / 3600, Minute(t) / 10, Minute(t) % 10;
    assert t == 3600 * h + 60 * Minute(t);
    assert t == 600 * (6 * h + k) + 60 * r;
  }

  lemma Minute15(t: int)
    requires t % 60 == 0
    ensures Minute(t) % 15 == 0 <==> t % 900 == 0
  {
  }

  lemma Minute30(t: int)
    requires t % 60 == 0
    ensures Minute(t) % 30 == 0 <==> t % 1800 == 0
  {
  }

  lemma Minute60(t: int)
    requires t % 60 == 0
    ensures Minute(t) % 60 == 0 <==> t % 3600 == 0
    ensures Minute(t) % 60 == 0 <==> Minute(t) == 0
  {
  }

  lemma Hour2(t: int)
    requires t % 3600 == 0
    ensures Hour(t) % 2 == 0 <==> t % 7200 == 0
  {
  }

  lemma Hour4(t: int)
    requires t % 3600 == 0
    ensures Hour(t) % 4 == 0 <==> t % 14400 == 0
  {
  }

  lemma Hour12(t: int)
    requires t % 3600 == 0
    ensures Hour(t) % 12 == 0 <==> t % 43200 == 0
  {
  }

  lemma Hour24(t: int)
    requires t % 3600 == 0
    ensures Hour(t) % 24 == 0 <==> t % 86400 == 0
  {
  }

  lemma SundayMidnight(t: int)
    requires t % DAY == 0
    ensures Weekday(t) == 0 <==> (t - 3 * DAY) % (7 * DAY) == 0
  {
  }

  /** A multiple of a longer period is a multiple of the hour it is made of. */
  lemma HoursInPeriods(t: int)
    ensures t % 7200 == 0 || t % 14400 == 0 || t % 43200 == 0 || t % DAY == 0 || (t - 3 * DAY) % (7 * DAY) == 0
      ==> t % 3600 == 0
    ensures (t - 3 * DAY) % (7 * DAY) == 0 ==> t % DAY == 0
  {
  }

  /** For minute-aligned instants the clock tests find exactly the boundaries of the target's grid. */
  lemma PeriodsEndOnBoundaries(t: int, p: Period)
    requires t % 60 == 0
    ensures EndsAt(t, p) <==> Boundary(t, p)
  {
    hide Minute, Hour, Weekday;
    Minute5(t);
    Minute10(t);
    Minute15(t);
    Minute30(t);
    Minute60(t);
    HoursInPeriods(t);
    if t % 3600 == 0 {
      Hour2(t);
      Hour4(t);
      Hour12(t);
      Hour24(t);
      if t % DAY == 0 { SundayMidnight(t); }
    }
  }
}
