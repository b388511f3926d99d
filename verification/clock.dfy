/**
 * The clock: the local time as `HH:MM:SS` (or a placeholder before the
 * first tick) and a greeting that follows the hour of the day.
 */
module Clock {
  import opened Wrappers
  import opened JsText

  /** The local-time fields a `Date` yields. */
  datatype LocalTime = LocalTime(hours: nat, minutes: nat, seconds: nat)

  predicate InRange(t: LocalTime) {
    t.hours < 24 && t.minutes < 60 && t.seconds < 60
  }

  /** `formatTime(date)`; `None` is the state before the first tick. */
  function FormatTime(date: Option<LocalTime>): string {
    match date
    case None => "--:--:--"
    case Some(t) => PadTwo(t.hours) + ":" + PadTwo(t.minutes) + ":" + PadTwo(t.seconds)
  }

  /** Before the first tick the clock shows dashes; afterwards eight
      characters with colons at places 2 and 5, whose three fields read
      back as the hour, minute and second. */
  lemma FormatTimeSpec(date: Option<LocalTime>)
    requires date.Some? ==> InRange(date.value)
    ensures date.None? ==> FormatTime(date) == "--:--:--"
    ensures date.Some? ==>
      var r, t := FormatTime(date), date.value;
      && |r| == 8 && r[2] == ':' && r[5] == ':'
      && ParseTwo(r[..2]) == t.hours && ParseTwo(r[3..5]) == t.minutes && ParseTwo(r[6..]) == t.seconds
  {
    if date.Some? {
      var r, t := FormatTime(date), date.value;
      PadTwoRoundTrip(t.hours);
      PadTwoRoundTrip(t.minutes);
      PadTwoRoundTrip(t.seconds);
      assert r[..2] == PadTwo(t.hours);
      assert r[3..5] == PadTwo(t.minutes);
      assert r[6..] == PadTwo(t.seconds);
    }
  }

  /** Two different times read differently. */
  lemma FormatTimeInjective(a: LocalTime, b: LocalTime)
    requires InRange(a) && InRange(b) && a != b
    ensures FormatTime(Some(a)) != FormatTime(Some(b))
  {
    FormatTimeSpec(Some(a));
    FormatTimeSpec(Some(b));
  }

  const Morning: string := "Good Morning ~"
  const Afternoon: string := "Good Afternoon ~"
  const Evening: string := "Good Evening ~"
  const Night: string := "Good Night ~"

  /** `getGreeting(date)`, from the local hour. */
  function Greeting(hour: Option<nat>): string {
    match hour
    case None => ""
    case Some(h) =>
      if 5 <= h < 12 then Morning
      else if 12 <= h < 17 then Afternoon
      else if 17 <= h < 21 then Evening
      else Night
  }

  /** The four greetings split the day: each hour gets exactly one, the
      greeting changes only at 5, 12, 17 and 21 o'clock, and the night
      runs on across midnight. */
  lemma GreetingBuckets(h: nat)
    requires h < 24
    ensures Greeting(Some(h)) in {Morning, Afternoon, Evening, Night}
    ensures 0 < h && Greeting(Some(h)) != Greeting(Some(h - 1)) ==> h == 5 || h == 12 || h == 17 || h == 21
    ensures Greeting(Some(23)) == Greeting(Some(0)) == Night
    ensures Greeting(Some(h)) == Night <==> h < 5 || 21 <= h
  {
  }
}
