/**
 * The deal card's countdown: the time left until the deal ends, split into hours, minutes and
 * seconds, and shown as "HH:MM:SS" with each field zero-padded to two characters.
 */
module Deal {
  import opened Text
  import opened Arith

  const MillisPerSecond := 1000
  const MillisPerMinute := 60 * 1000
  const MillisPerHour := 60 * 60 * 1000

  datatype TimeLeft = TimeLeft(hours: nat, minutes: nat, seconds: nat)

  /**
   * `calculateTimeLeft` for a difference of `d` milliseconds. For `d > 0` the floors of the
   * source's real divisions and remainders are the integer quotients and remainders used here.
   */
  function CalculateTimeLeft(d: int): (t: TimeLeft)
    ensures d <= 0 ==> t == TimeLeft(0, 0, 0)
    ensures t.minutes < 60 && t.seconds < 60
  {
    if d <= 0 then TimeLeft(0, 0, 0)
    else TimeLeft(d / MillisPerHour, (d / MillisPerMinute) % 60, (d / MillisPerSecond) % 60)
  }

  /** For `d > 0` the three fields recombine to the whole seconds left: `d div 1000`. */
  lemma TimeLeftRecombines(d: int)
    requires d > 0
    ensures var t := CalculateTimeLeft(d);
      t.hours * 3600 + t.minutes * 60 + t.seconds == d / MillisPerSecond
  {
    var total := d / 1000;
    var mins := total / 60;
    DivDiv(d, 1000, 60);
    DivDiv(d, 60000, 60);
    DivDiv(total, 60, 60);
    assert d / MillisPerMinute == mins;
    assert d / MillisPerHour == mins / 60;
    assert total == 60 * mins + total % 60;
    assert mins == 60 * (mins / 60) + mins % 60;
  }

  /** `String(x).padStart(2, '0')`. */
  function Pad2(x: nat): (r: string)
    ensures |r| >= 2 && AllDigits(r)
  {
    PadStart(NatToString(x), 2, '0')
  }

  /** `HH:MM:SS` as the timer shows it. */
  function TimerText(t: TimeLeft): string {
    Pad2(t.hours) + ":" + Pad2(t.minutes) + ":" + Pad2(t.seconds)
  }

  lemma {:induction false} LeadingZero(s: string)
    requires AllDigits(s)
    ensures AllDigits("0" + s) && DecimalValue("0" + s) == DecimalValue(s)
    decreases |s|
  {
    var z := "0" + s;
    if s != [] {
      assert z[..|z| - 1] == "0" + s[..|s| - 1];
      assert z[|z| - 1] == s[|s| - 1];
      LeadingZero(s[..|s| - 1]);
    }
  }

  /**
   * A padded field denotes the number it shows; below 100 it is exactly two digits, so the
   * minutes and seconds always are.
   */
  lemma Pad2Denotes(x: nat)
    ensures DecimalValue(Pad2(x)) == x
    ensures x < 100 ==> |Pad2(x)| == 2
  {
    var digits := NatToString(x);
    if |digits| < 2 {
      assert Pad2(x) == "0" + digits;
      LeadingZero(digits);
    }
    if 10 <= x < 100 {
      var p := NatToString(x / 10);
      assert digits == p + [DigitChar(x % 10)];
    }
  }

  /** Three two-character fields joined by ":" sit at 0-2, 3-5 and 6-8. */
  lemma {:induction false} ThreeFields(h: string, m: string, s: string)
    requires |h| == 2 && |m| == 2 && |s| == 2
    ensures var text := h + ":" + m + ":" + s;
      && |text| == 8 && text[2] == ':' && text[5] == ':'
      && text[..2] == h && text[3..5] == m && text[6..] == s
  {
    var text := h + ":" + m + ":" + s;
    assert text == h + (":" + (m + (":" + s)));
    assert text[..2] == h;
    assert text[3..5] == m;
    assert text[6..] == s;
  }

  /**
   * While fewer than 100 hours are left, the timer is eight characters, the fields sit at
   * 0-2, 3-5 and 6-8 separated by ":", and each denotes its part of the time left.
   */
  lemma TimerTextLayout(t: TimeLeft)
    requires t.hours < 100 && t.minutes < 60 && t.seconds < 60
    ensures var text := TimerText(t);
      && |text| == 8 && text[2] == ':' && text[5] == ':'
      && text[..2] == Pad2(t.hours) && text[3..5] == Pad2(t.minutes) && text[6..] == Pad2(t.seconds)
      && DecimalValue(text[..2]) == t.hours
      && DecimalValue(text[3..5]) == t.minutes
      && DecimalValue(text[6..]) == t.seconds
  {
    Pad2Denotes(t.hours);
    Pad2Denotes(t.minutes);
    Pad2Denotes(t.seconds);
    ThreeFields(Pad2(t.hours), Pad2(t.minutes), Pad2(t.seconds));
  }

  /** The card's `timeLeft` state, refreshed every second by an interval. */
  class DealTimer {
    const endsAt: int
    var timeLeft: TimeLeft

    /** The initial state; `now` stands for `new Date()`. */
    constructor (endsAt: int, now: int)
      ensures this.endsAt == endsAt && timeLeft == CalculateTimeLeft(endsAt - now)
    {
      this.endsAt := endsAt;
      timeLeft := CalculateTimeLeft(endsAt - now);
    }

    /** One interval tick at time `now`. */
    method Tick(now: int)
      modifies this`timeLeft
      ensures timeLeft == CalculateTimeLeft(endsAt - now)
      ensures now >= endsAt ==> timeLeft == TimeLeft(0, 0, 0)
    {
      timeLeft := CalculateTimeLeft(endsAt - now);
    }
  }
}
