/** The public bin map: the status badge and label of a bin, the relative
    "last updated" text, and the placeholder marker positions. The current
    time is a parameter (milliseconds since the epoch). */
module PublicMapPage {
  import opened Strings
  import opened MockData

  /** `getStatusBadgeVariant`. */
  function StatusBadgeVariant(status: BinStatus): (variant: string)
    ensures variant == "default" <==> status == Ok
    ensures variant == "secondary" <==> status == NeedsPickup
    ensures variant == "destructive" <==> status == Overflowing
  {
    match status
    case Ok => "default"
    case NeedsPickup => "secondary"
    case Overflowing => "destructive"
  }

  /** `getStatusLabel`. */
  function StatusLabel(status: BinStatus): (text: string)
    ensures text == "OK" <==> status == Ok
    ensures text == "Needs Pickup" <==> status == NeedsPickup
    ensures text == "Overflowing" <==> status == Overflowing
  {
    match status
    case Ok => "OK"
    case NeedsPickup => "Needs Pickup"
    case Overflowing => "Overflowing"
  }

  const MinuteMillis: nat := 60000
  const HourMillis: nat := 3600000
  const DayMillis: nat := 86400000

  /** How long ago a bin was updated, in the unit the page shows. */
  datatype Elapsed = JustNow | Minutes(n: nat) | Hours(n: nat) | Days(n: nat)

  /** `floor(floor(x / a) / b)` is `floor(x / (a * b))`, given as bounds. */
  lemma FloorDivBounds(x: int, q: int, a: nat, b: nat)
    requires a > 0 && b > 0
    requires q == x / a
    ensures (q / b) * (a * b) <= x < (q / b + 1) * (a * b)
  {
    var h := q / b;
    DivBounds(x, a);
    DivBounds(q, b);
    MulMonotone(a, b * h, q);
    MulMonotone(a, q + 1, b * h + b);
    MulRegroup(a, b, h, q);
  }

  /** Euclidean division by a positive divisor. */
  lemma DivBounds(x: int, a: nat)
    requires a > 0
    ensures a * (x / a) <= x < a * (x / a) + a
  {
  }

  /** The products the bound above regroups. */
  lemma MulRegroup(a: nat, b: nat, h: int, q: int)
    ensures a * (b * h) == h * (a * b)
    ensures a * (b * h + b) == (h + 1) * (a * b)
    ensures a * (q + 1) == a * q + a
  {
  }

  lemma MulMonotone(a: nat, x: int, y: int)
    requires x <= y
    ensures a * x <= a * y
  {
    assert a * y - a * x == a * (y - x);
  }

  /** The elapsed time between `diffMs` milliseconds ago and now, with the
      page's thresholds: under a minute (including a date in the future), under
      an hour, under a day, and days. Each unit count is the whole number of
      units elapsed. */
  function ElapsedOf(diffMs: int): (e: Elapsed)
    ensures e == JustNow <==> diffMs < MinuteMillis
    ensures e.Minutes? <==> MinuteMillis <= diffMs < HourMillis
    ensures e.Hours? <==> HourMillis <= diffMs < DayMillis
    ensures e.Days? <==> DayMillis <= diffMs
    ensures e.Minutes? ==> 1 <= e.n < 60 && e.n * MinuteMillis <= diffMs < (e.n + 1) * MinuteMillis
    ensures e.Hours? ==> 1 <= e.n < 24 && e.n * HourMillis <= diffMs < (e.n + 1) * HourMillis
    ensures e.Days? ==> 1 <= e.n && e.n * DayMillis <= diffMs < (e.n + 1) * DayMillis
  {
    var mins := diffMs / MinuteMillis;
    if mins < 1 then JustNow
    else if mins < 60 then Minutes(mins)
    else
      var hours := mins / 60;
      FloorDivBounds(diffMs, mins, MinuteMillis, 60);
      if hours < 24 then Hours(hours)
      else
        FloorDivBounds(diffMs, hours, HourMillis, 24);
        Days(hours / 24)
  }

  /** The unit word, plural exactly when the count is above one. */
  function UnitWord(e: Elapsed): (w: string)
    requires !e.JustNow?
    ensures |w| > 0 && ' ' !in w
    ensures (w[|w| - 1] == 's') <==> e.n > 1
  {
    var base := match e
      case Minutes(_) => "min"
      case Hours(_) => "hour"
      case Days(_) => "day";
    if e.n > 1 then base + "s" else base
  }

  /** The text shown for an elapsed time: "Just now", or "<n> <unit> ago". */
  function Render(e: Elapsed): (text: string)
  {
    if e.JustNow? then "Just now"
    else NatToString(e.n) + " " + UnitWord(e) + " ago"
  }

  /** <n> <unit> ago reads back as its three words: the number, the unit
      word and "ago". */
  lemma RenderWords(e: Elapsed)
    requires !e.JustNow?
    ensures Split(Render(e), ' ') == [NatToString(e.n), UnitWord(e), "ago"]
    ensures DecimalValue(Split(Render(e), ' ')[0]) == e.n
  {
    var num := NatToString(e.n);
    var unit := UnitWord(e);
    var tail := unit + [' '] + "ago";
    NumberHasNoSpace(e.n);
    calc {
      Split(Render(e), ' ');
      { assert Render(e) == num + [' '] + tail; }
      Split(num + [' '] + tail, ' ');
      { SplitFirstWord(num, tail, ' '); }
      [num] + Split(tail, ' ');
      { SplitFirstWord(unit, "ago", ' '); }
      [num] + ([unit] + Split("ago", ' '));
      { SplitNoSeparator("ago", ' '); }
      [num, unit, "ago"];
    }
    DecimalRoundTrip(e.n);
  }

  /** A rendered number is all digits, so it holds no space. */
  lemma NumberHasNoSpace(n: nat)
    ensures ' ' !in NatToString(n)
  {
    var num := NatToString(n);
    assert forall i | 0 <= i < |num| :: '0' <= num[i] <= '9';
  }

  /** Only a time under a minute is shown as "Just now": every other text
      starts with a digit. */
  lemma RenderJustNowOnly(e: Elapsed)
    ensures Render(e) == "Just now" <==> e.JustNow?
  {
    if !e.JustNow? {
      assert Render(e)[0] == NatToString(e.n)[0];
    }
  }

  /** Different elapsed times are shown as different texts. */
  lemma RenderInjective(e1: Elapsed, e2: Elapsed)
    ensures Render(e1) == Render(e2) ==> e1 == e2
  {
    RenderJustNowOnly(e1);
    RenderJustNowOnly(e2);
    if !e1.JustNow? && !e2.JustNow? {
      RenderWords(e1);
      RenderWords(e2);
      NatToStringInjective(e1.n, e2.n);
    }
  }

  /** `formatLastUpdated`: "Just now" exactly when under a minute has passed,
      a date in the future included; otherwise three words ending in "ago". */
  function FormatLastUpdated(now: int, date: int): (text: string)
    ensures text == "Just now" <==> now - date < MinuteMillis
    ensures now - date >= MinuteMillis ==> |Split(text, ' ')| == 3 && Split(text, ' ')[2] == "ago"
  {
    var e := ElapsedOf(now - date);
    RenderJustNowOnly(e);
    if e.JustNow? then Render(e)
    else
      RenderWords(e);
      Render(e)
  }

  datatype Position = Position(top: string, left: string)

  const Positions: seq<Position> := [
    Position("20%", "30%"), Position("40%", "60%"), Position("60%", "25%"),
    Position("35%", "75%"), Position("70%", "50%")]

  /** The placeholder position of the bin at index `idx`. */
  function MarkerPosition(idx: nat): Position
  {
    Positions[idx % |Positions|]
  }

  /** The markers repeat every five bins ... */
  lemma MarkerPeriodic(idx: nat)
    ensures MarkerPosition(idx + 5) == MarkerPosition(idx)
  {
    assert (idx + 5) % 5 == idx % 5;
  }

  /** ... and any five consecutive bins get five different positions. */
  lemma MarkerDistinctWithinFive(i: nat, j: nat)
    requires i < j < i + 5
    ensures MarkerPosition(i) != MarkerPosition(j)
  {
    var a := i % 5;
    var b := j % 5;
    assert j - i == (if b >= a then b - a else b - a + 5) by {
      assert i == 5 * (i / 5) + a;
      assert j == 5 * (j / 5) + b;
    }
  }
}
