/**
 * src/app/match/page.tsx: the once-a-second countdown of the match page, which splits the
 * milliseconds left before a match expires into hours, minutes and seconds.
 */
module Countdown {

  const MillisPerHour: nat := 3600000
  const MillisPerMinute: nat := 60000
  const MillisPerSecond: nat := 1000

  /** One tick: expired, or the time left in whole hours, minutes and seconds. */
  datatype Remaining = Expired | Left(hours: nat, minutes: nat, seconds: nat)

  /** The milliseconds a time left stands for. */
  function Millis(h: nat, m: nat, s: nat): nat {
    h * MillisPerHour + m * MillisPerMinute + s * MillisPerSecond
  }

  /** `d == q * b + r` with `0 <= r < b` fixes the quotient and the remainder. */
  lemma DivModUnique(d: int, b: int, q: int, r: int)
    requires b > 0 && 0 <= r < b && d == q * b + r
    ensures d / b == q && d % b == r
  {
    var q' := d / b;
    var r' := d % b;
    assert (q - q') * b == r' - r by {
      assert q * b - q' * b == (q - q') * b;
    }
    if q' != q {
      var k := if q > q' then q - q' else q' - q;
      AtLeastOneTimes(k, b);
    }
  }

  lemma AtLeastOneTimes(k: int, b: int)
    requires k >= 1 && b > 0
    ensures k * b >= b
  {
    assert k * b == (k - 1) * b + b;
  }

  /** The remainder by an hour, taken by a minute, is the remainder by a minute. */
  lemma MinuteRemainder(d: nat)
    ensures (d % MillisPerHour) % MillisPerMinute == d % MillisPerMinute
    ensures (d % MillisPerMinute) / MillisPerSecond < 60
  {
    var q := d / MillisPerHour;
    var r := d % MillisPerHour;
    var m := r / MillisPerMinute;
    var r2 := r % MillisPerMinute;
    assert d == (q * 60 + m) * MillisPerMinute + r2;
    DivModUnique(d, MillisPerMinute, q * 60 + m, r2);
  }

  /**
   * The interval callback on `distance = expires - now`: a negative distance is expired;
   * otherwise `floor(d / 3600000)` hours, `floor((d % 3600000) / 60000)` minutes and
   * `floor((d % 60000) / 1000)` seconds.
   */
  function Tick(distance: int): (r: Remaining)
    ensures r.Expired? <==> distance < 0
    ensures r.Left? ==> r.minutes < 60 && r.seconds < 60
    ensures r.Left? ==> Millis(r.hours, r.minutes, r.seconds) <= distance < Millis(r.hours, r.minutes, r.seconds) + MillisPerSecond
  {
    if distance < 0 then Expired
    else
      var h := distance / MillisPerHour;
      var m := (distance % MillisPerHour) / MillisPerMinute;
      var s := (distance % MillisPerMinute) / MillisPerSecond;
      Recompose(distance);
      Left(h, m, s)
  }

  /** The three parts add back up to the distance, short of less than a second. */
  lemma Recompose(d: nat)
    ensures var h := d / MillisPerHour;
            var m := (d % MillisPerHour) / MillisPerMinute;
            var s := (d % MillisPerMinute) / MillisPerSecond;
            && m < 60 && s < 60
            && Millis(h, m, s) <= d < Millis(h, m, s) + MillisPerSecond
  {
    MinuteRemainder(d);
    var h := d / MillisPerHour;
    var rh := d % MillisPerHour;
    var m := rh / MillisPerMinute;
    var rm := d % MillisPerMinute;
    var s := rm / MillisPerSecond;
    assert rh == m * MillisPerMinute + rm;
    assert rm == s * MillisPerSecond + rm % MillisPerSecond;
    assert d == h * MillisPerHour + rh;
  }

  /** Each whole second left is its own tick: the parts are exactly those of the time they stand for. */
  lemma TickOfExactTime(h: nat, m: nat, s: nat, extra: nat)
    requires m < 60 && s < 60 && extra < MillisPerSecond
    ensures Tick(Millis(h, m, s) + extra) == Left(h, m, s)
  {
    var d := Millis(h, m, s) + extra;
    var t := Tick(d);
    DivModUnique(d, MillisPerHour, h, m * MillisPerMinute + s * MillisPerSecond + extra);
    DivModUnique(m * MillisPerMinute + s * MillisPerSecond + extra, MillisPerMinute, m, s * MillisPerSecond + extra);
    MinuteRemainder(d);
    DivModUnique(s * MillisPerSecond + extra, MillisPerSecond, s, extra);
  }

  /** The decimal digits of `n`, as `${n}` writes them. */
  function NatToString(n: nat): (r: string)
    ensures |r| >= 1
    ensures forall i :: 0 <= i < |r| ==> '0' <= r[i] <= '9'
    decreases n
  {
    if n < 10 then [Digit(n)] else NatToString(n / 10) + [Digit(n % 10)]
  }

  function Digit(d: nat): (c: char)
    requires d < 10
    ensures '0' <= c <= '9'
  {
    ('0' as int + d) as char
  }

  /** Reads decimal digits back. */
  function ParseNat(s: string): nat
    requires forall i :: 0 <= i < |s| ==> '0' <= s[i] <= '9'
  {
    if s == [] then 0 else ParseNat(s[..|s| - 1]) * 10 + (s[|s| - 1] as int - '0' as int)
  }

  /** `${n}` loses nothing: reading the digits back gives `n`. */
  lemma {:induction false} ParseNatToString(n: nat)
    ensures ParseNat(NatToString(n)) == n
    decreases n
  {
    if n >= 10 {
      ParseNatToString(n / 10);
      var s := NatToString(n);
      assert s[..|s| - 1] == NatToString(n / 10);
    }
  }

  const ExpiredText: string := "만료됨"

  /** `setTimeRemaining(...)`: "만료됨", or `${hours}시간 ${minutes}분 ${seconds}초`. */
  function Display(r: Remaining): string {
    match r
    case Expired => ExpiredText
    case Left(h, m, s) => NatToString(h) + "시간 " + NatToString(m) + "분 " + NatToString(s) + "초"
  }

  /** The timer keeps running exactly while the distance is not negative. */
  function KeepsRunning(distance: int): (b: bool)
    ensures b <==> Tick(distance).Left?
  {
    distance >= 0
  }

  /** A tick that is not expired never shows the expiry text, and the hours lead its text. */
  lemma DisplayDistinguishesExpiry(distance: int)
    ensures Tick(distance).Left? ==> Display(Tick(distance)) != ExpiredText
    ensures Tick(distance).Left? ==>
              var t := Display(Tick(distance));
              var h := NatToString(Tick(distance).hours);
              |h| < |t| && t[..|h|] == h && ParseNat(h) == Tick(distance).hours
  {
    if Tick(distance).Left? {
      var r := Tick(distance);
      var t := Display(r);
      var h := NatToString(r.hours);
      ParseNatToString(r.hours);
      assert t == h + ("시간 " + NatToString(r.minutes) + "분 " + NatToString(r.seconds) + "초");
      assert t[..|h|] == h;
      assert '0' <= t[0] <= '9';
      assert ExpiredText[0] == '만';
    }
  }
}
