/**
 * `timeago`: how long ago a thought was posted, as a short label. The
 * timestamp parsing and the clock are not modelled; the difference between
 * now and the timestamp arrives already computed, as a `timedelta` would hold
 * it (whole days, and the seconds within the day).
 */
module TimeAgo {
  import opened Options

  /** A `timedelta`'s seconds field is always within one day. */
  type DaySeconds = s: int | 0 <= s < 86400

  /** `now - ts`: the days may be negative when the timestamp lies in the future. */
  datatype Delta = Delta(days: int, seconds: DaySeconds)

  /** The four kinds of label. */
  datatype Label = DaysAgo(days: nat) | HoursAgo(hours: nat) | MinutesAgo(minutes: nat) | JustNow

  const SecondsPerHour := 3600
  const SecondsPerMinute := 60

  /**
   * The bucket: whole days when there is at least one, else whole hours above
   * one hour, else whole minutes above one minute, else "just now". The
   * thresholds are strict, so exactly one hour reads as 60 minutes and exactly
   * one minute as "just now".
   */
  function Bucket(d: Delta): (l: Label)
    ensures l.DaysAgo? <==> d.days > 0
    ensures l.DaysAgo? ==> l.days == d.days
    ensures l.HoursAgo? <==> d.days <= 0 && d.seconds > SecondsPerHour
    ensures l.HoursAgo? ==> 1 <= l.hours <= 23 && l.hours * SecondsPerHour <= d.seconds < (l.hours + 1) * SecondsPerHour
    ensures l.MinutesAgo? <==> d.days <= 0 && SecondsPerMinute < d.seconds <= SecondsPerHour
    ensures l.MinutesAgo? ==> 1 <= l.minutes <= 60 && l.minutes * SecondsPerMinute <= d.seconds < (l.minutes + 1) * SecondsPerMinute
    ensures l.JustNow? <==> d.days <= 0 && d.seconds <= SecondsPerMinute
  {
    if d.days > 0 then DaysAgo(d.days)
    else if d.seconds > SecondsPerHour then HoursAgo(d.seconds / SecondsPerHour)
    else if d.seconds > SecondsPerMinute then MinutesAgo(d.seconds / SecondsPerMinute)
    else JustNow
  }

  predicate IsDigit(c: char) {
    '0' <= c <= '9'
  }

  predicate AllDigits(s: string) {
    forall i :: 0 <= i < |s| ==> IsDigit(s[i])
  }

  /** Python's `str(n)` for a natural number: decimal digits without leading zeros. */
  function NatToString(n: nat): (s: string)
    ensures |s| >= 1 && AllDigits(s)
    ensures |s| > 1 ==> s[0] != '0'
    decreases n
  {
    var last := ('0' as int + n % 10) as char;
    if n < 10 then [last] else NatToString(n / 10) + [last]
  }

  /** The number a string of decimal digits denotes. */
  function DecimalValue(s: string): nat
    requires AllDigits(s)
  {
    if s == [] then 0 else DecimalValue(s[..|s| - 1]) * 10 + (s[|s| - 1] as int - '0' as int)
  }

  /** The digits written for a number read back as that number. */
  lemma {:induction false} DecimalRoundTrip(n: nat)
    ensures DecimalValue(NatToString(n)) == n
    decreases n
  {
    var s := NatToString(n);
    if n >= 10 {
      DecimalRoundTrip(n / 10);
      assert s[..|s| - 1] == NatToString(n / 10);
    }
  }

  /** The text shown for a label: "{n}d ago", "{n}h ago", "{n}m ago" or "just now". */
  function Text(l: Label): string {
    match l
    case DaysAgo(n) => NatToString(n) + "d ago"
    case HoursAgo(n) => NatToString(n) + "h ago"
    case MinutesAgo(n) => NatToString(n) + "m ago"
    case JustNow => "just now"
  }

  /** Read a label back from its text; None for any other string. */
  function ParseText(s: string): Option<Label> {
    if s == "just now" then Some(JustNow)
    else if |s| < 6 || s[|s| - 5..] !in {"d ago", "h ago", "m ago"} then None
    else
      var digits := s[..|s| - 5];
      if !AllDigits(digits) then None
      else
        var n := DecimalValue(digits);
        match s[|s| - 5]
        case 'd' => Some(DaysAgo(n))
        case 'h' => Some(HoursAgo(n))
        case _ => Some(MinutesAgo(n))
  }

  /** Different labels never show the same text: every text reads back as its label. */
  lemma TextRoundTrip(l: Label)
    ensures ParseText(Text(l)) == Some(l)
  {
    match l
    case JustNow =>
    case DaysAgo(n) => TextOfCount(n, "d ago");
    case HoursAgo(n) => TextOfCount(n, "h ago");
    case MinutesAgo(n) => TextOfCount(n, "m ago");
  }

  lemma {:induction false} TextOfCount(n: nat, unit: string)
    requires unit in {"d ago", "h ago", "m ago"}
    ensures var s := NatToString(n) + unit;
      s != "just now" && |s| >= 6 && s[|s| - 5..] == unit && s[..|s| - 5] == NatToString(n) &&
      DecimalValue(s[..|s| - 5]) == n
  {
    var s := NatToString(n) + unit;
    assert s[..|s| - 5] == NatToString(n);
    assert s[|s| - 5..] == unit;
    assert IsDigit(s[0]);
    DecimalRoundTrip(n);
  }

  /**
   * `timeago(iso_ts)`: "" for a missing or empty timestamp; the timestamp
   * itself when parsing it failed (`parsed` is None); otherwise the label of
   * the elapsed time.
   */
  function TimeAgo(isoTs: Option<string>, parsed: Option<Delta>): (r: string)
    ensures (isoTs == None || isoTs == Some("")) <==> r == ""
    ensures isoTs.Some? && isoTs.value != "" && parsed == None ==> r == isoTs.value
    ensures isoTs.Some? && isoTs.value != "" && parsed.Some? ==>
      r == Text(Bucket(parsed.value)) && ParseText(r) == Some(Bucket(parsed.value))
  {
    if isoTs == None || isoTs == Some("") then ""
    else
      match parsed
      case None => isoTs.value
      case Some(d) =>
        TextRoundTrip(Bucket(d));
        TextNonEmpty(Bucket(d));
        Text(Bucket(d))
  }

  lemma TextNonEmpty(l: Label)
    ensures Text(l) != ""
  {
  }

  /** Exactly one hour is still counted in minutes. */
  lemma OneHourExample()
    ensures Text(Bucket(Delta(0, 3600))) == "60m ago"
  {
  }

  /** Exactly one minute is "just now"; one second more is a minute. */
  lemma OneMinuteExample()
    ensures Text(Bucket(Delta(0, 60))) == "just now"
    ensures Text(Bucket(Delta(0, 61))) == "1m ago"
  {
  }

  /** A timestamp a day or less in the future (days = -1) is bucketed by its seconds field alone. */
  lemma FutureTimestampExample()
    ensures Bucket(Delta(-1, 86399)) == HoursAgo(23)
  {
  }
}
