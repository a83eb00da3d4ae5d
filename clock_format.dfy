/**
 * Wall-clock values as the browser scripts display them: an instant carries its
 * epoch milliseconds and the hour and minute the display's time zone gives it
 * (the time-zone conversion itself is done by the browser and is not modelled),
 * and times are written `HH:MM`.
 */
module ClockFormat {
  import opened Wrappers
  import opened Strings

  type Hour = h: nat | h < 24
  type Minute = m: nat | m < 60

  datatype Instant = Instant(epochMs: int, hour: Hour, minute: Minute)

  /** `pad2(n)`: a '0' before a number below ten, the plain decimal otherwise. */
  function Pad2(n: nat): (s: string)
    ensures n < 100 ==> |s| == 2 && s[0] == DigitChar(n / 10) && s[1] == DigitChar(n % 10)
    ensures n >= 10 ==> s == NatToString(n)
  {
    (if n < 10 then "0" else "") + NatToString(n)
  }

  /** `HH:MM`, as `pad2(h) + ':' + pad2(m)` and as a 2-digit `toLocaleTimeString` both give it. */
  function HourMinute(t: Instant): (s: string)
    ensures |s| == 5 && s[2] == ':'
    ensures forall i :: 0 <= i < 5 && i != 2 ==> IsDigit(s[i])
  {
    Pad2(t.hour) + ":" + Pad2(t.minute)
  }

  /** Reading an `HH:MM` string back. */
  function ReadHourMinute(s: string): (nat, nat)
    requires |s| == 5 && forall i :: 0 <= i < 5 && i != 2 ==> IsDigit(s[i])
  {
    (10 * DigitValue(s[0]) + DigitValue(s[1]), 10 * DigitValue(s[3]) + DigitValue(s[4]))
  }

  /** The rendered clock gives back exactly the hour and minute it was made from. */
  lemma HourMinuteRoundTrip(t: Instant)
    ensures ReadHourMinute(HourMinute(t)) == (t.hour as nat, t.minute as nat)
  {
    var s := HourMinute(t);
    assert s[0] == DigitChar(t.hour / 10) && s[1] == DigitChar(t.hour % 10);
    assert s[3] == DigitChar(t.minute / 10) && s[4] == DigitChar(t.minute % 10);
  }

  /** `pad2(date.getHours())` on a possibly Invalid Date: NaN renders as "NaN". */
  function Pad2Field(t: Option<Instant>, minute: bool): (s: string)
    ensures t.None? ==> s == "NaN"
    ensures t.Some? ==> s == Pad2(if minute then t.value.minute else t.value.hour)
  {
    if t.None? then "NaN"
    else Pad2(if minute then t.value.minute else t.value.hour)
  }

  /** `pad2(getHours()) + ':' + pad2(getMinutes())` of the `web/` views. */
  function PaddedTime(t: Option<Instant>): (s: string)
    ensures t.Some? ==> s == HourMinute(t.value)
    ensures t.None? ==> s == "NaN:NaN"
  {
    Pad2Field(t, false) + ":" + Pad2Field(t, true)
  }

  /** `toLocaleTimeString` with 2-digit hour and minute, as the `ui/` views call it. */
  function LocaleTime(t: Option<Instant>): (s: string)
    ensures t.Some? ==> s == HourMinute(t.value)
    ensures t.None? ==> s == "Invalid Date"
  {
    if t.Some? then HourMinute(t.value) else "Invalid Date"
  }
}
