/** The health panel of the HUD: the HP percentage, the twelve-block HP
    bar, and the match clock shown as `mm:ss` with a random jitter of up to
    three seconds either way. */
module HealthPanel {
  import opened Common

  /** JavaScript's rounding to a whole number: halves round up. */
  function Round(x: real): (r: int)
    ensures r as real <= x + 0.5 < r as real + 1.0
  {
    (x + 0.5).Floor
  }

  lemma RoundMonotone(x: real, y: real)
    requires x <= y
    ensures Round(x) <= Round(y)
  {
  }

  /** The HP share in whole percent, 0 when the maximum is not positive:
      the whole number nearest to the exact percentage, halves rounding up. */
  function HpPercent(hp: int, maxHP: int): (p: int)
    ensures maxHP <= 0 ==> p == 0
    ensures maxHP > 0 ==> p as real - 0.5 <= (hp * 100) as real / maxHP as real < p as real + 0.5
    ensures maxHP > 0 && 0 <= hp <= maxHP ==> 0 <= p <= 100
    ensures maxHP > 0 && hp == maxHP ==> p == 100
    ensures maxHP > 0 && hp == 0 ==> p == 0
  {
    if maxHP > 0 then
      var share := hp as real / maxHP as real;
      ShareBounds(hp as real, maxHP as real);
      assert share * 100.0 == (hp * 100) as real / maxHP as real;
      Round(share * 100.0)
    else 0
  }

  /** More health never shows a smaller percentage. */
  lemma {:induction false} HpPercentMonotone(hp: int, hp': int, maxHP: int)
    requires hp <= hp'
    ensures HpPercent(hp, maxHP) <= HpPercent(hp', maxHP)
  {
    if maxHP > 0 {
      var m := maxHP as real;
      assert hp as real / m <= hp' as real / m by {
        assert hp' as real / m - hp as real / m == (hp' - hp) as real / m;
      }
      RoundMonotone(hp as real / m * 100.0, hp' as real / m * 100.0);
    }
  }

  lemma ShareBounds(a: real, b: real)
    requires b > 0.0
    ensures 0.0 <= a <= b ==> 0.0 <= a / b <= 1.0
    ensures a == b ==> a / b == 1.0
    ensures a == 0.0 ==> a / b == 0.0
  {
    var q := a / b;
    assert q * b == a;
  }

  const BAR_BLOCKS: int := 12

  /** The percentage in twelfths, rounded and clamped to `[0, 12]`: for a
      percentage in range, the whole number of twelfths nearest to it. The
      bar is empty exactly below 5 percent and full exactly from 96. */
  function HpBlocks(percent: int): (b: int)
    ensures 0 <= b <= BAR_BLOCKS
    ensures 0 <= percent <= 100 ==>
      b as real - 0.5 <= (percent * 12) as real / 100.0 < b as real + 0.5
    ensures b == 0 <==> percent <= 4
    ensures b == BAR_BLOCKS <==> percent >= 96
  {
    Max(0, Min(BAR_BLOCKS, Round(percent as real / 100.0 * 12.0)))
  }

  /** More percent never means fewer blocks. */
  lemma {:induction false} HpBlocksMonotone(p: int, q: int)
    requires p <= q
    ensures HpBlocks(p) <= HpBlocks(q)
  {
    RoundMonotone(p as real / 100.0 * 12.0, q as real / 100.0 * 12.0);
  }

  const BLOCK: char := '■'

  /** A row of `n` block characters. */
  function HpBar(n: nat): (bar: string)
    ensures |bar| == n && forall i :: 0 <= i < |bar| ==> bar[i] == BLOCK
  {
    seq(n, _ => BLOCK)
  }

  /** The offset drawn for the sample `u`: spread evenly over three seconds either way. */
  function Offset(u: real): (o: real)
    requires IsSample(u)
    ensures -3.0 <= o < 3.0
  {
    u * 6.0 - 3.0
  }

  /** The delay in milliseconds before the next offset: 5 to 10 seconds. */
  function NextDelay(u: real): (ms: int)
    requires IsSample(u)
    ensures 5000 <= ms <= 10000
  {
    5000 + PickIndex(u, 5001)
  }

  /** The seconds on show: the count plus the offset, rounded, never
      negative, and within three seconds of the count once that is 3 or
      more. */
  function DisplaySeconds(seconds: int, offset: real): (d: nat)
    ensures d == 0 || d == Round(seconds as real + offset)
    ensures d == 0 <==> Round(seconds as real + offset) <= 0
    ensures -3.0 <= offset < 3.0 && seconds >= 3 ==> seconds - 3 <= d <= seconds + 3
  {
    Max(0, Round(seconds as real + offset))
  }

  predicate IsDigit(c: char) { '0' <= c <= '9' }

  predicate AllDigits(s: string) { forall i :: 0 <= i < |s| ==> IsDigit(s[i]) }

  function DigitChar(k: nat): (c: char)
    requires k < 10
    ensures IsDigit(c) && c as int - '0' as int == k
  {
    ('0' as int + k) as char
  }

  /** A natural number in decimal: its digits, no leading zero. */
  function Digits(n: nat): (s: string)
    ensures 1 <= |s| && AllDigits(s)
    ensures n < 100 ==> |s| <= 2
    decreases n
  {
    if n < 10 then [DigitChar(n)] else Digits(n / 10) + [DigitChar(n % 10)]
  }

  /** The number a string of digits spells. */
  function Value(s: string): nat
    requires AllDigits(s)
  {
    if s == [] then 0 else Value(s[..|s| - 1]) * 10 + (s[|s| - 1] as int - '0' as int)
  }

  lemma {:induction false} ValueOfDigits(n: nat)
    ensures Value(Digits(n)) == n
    decreases n
  {
    if n >= 10 {
      var s := Digits(n);
      assert s[..|s| - 1] == Digits(n / 10);
      ValueOfDigits(n / 10);
    }
  }

  /** Zeros added on the left up to `width` characters. */
  function PadStart(s: string, width: nat): (r: string)
    ensures |r| == if |s| >= width then |s| else width
    ensures r == Zeros(|r| - |s|) + s
  {
    if |s| >= width then s else Zeros(width - |s|) + s
  }

  function Zeros(k: nat): (z: string)
    ensures |z| == k && AllDigits(z)
  {
    seq(k, _ => '0')
  }

  /** Leading zeros do not change the number. */
  lemma {:induction false} ZerosAddNothing(k: nat, s: string)
    requires AllDigits(s)
    ensures Value(Zeros(k) + s) == Value(s)
    decreases |s|
  {
    if s == [] {
      assert Zeros(k) + s == Zeros(k);
      ZerosValueZero(k);
    } else {
      var t := Zeros(k) + s;
      assert t[..|t| - 1] == Zeros(k) + s[..|s| - 1];
      ZerosAddNothing(k, s[..|s| - 1]);
    }
  }

  lemma {:induction false} ZerosValueZero(k: nat)
    ensures Value(Zeros(k)) == 0
  {
    if k > 0 {
      assert Zeros(k)[..k - 1] == Zeros(k - 1);
      ZerosValueZero(k - 1);
    }
  }

  /** `mm:ss`: minutes padded to at least two digits, seconds to exactly
      two. */
  function TimeText(d: nat): (t: string)
    ensures |t| >= 5 && t[|t| - 3] == ':'
  {
    PadStart(Digits(d / 60), 2) + ":" + PadStart(Digits(d % 60), 2)
  }

  /** Reads `mm:ss` back: everything before the last three characters is
      minutes, the last two are seconds. */
  function ParseTime(t: string): Option<nat> {
    if |t| >= 3 && t[|t| - 3] == ':' && AllDigits(t[..|t| - 3]) && AllDigits(t[|t| - 2..]) then
      Some(Value(t[..|t| - 3]) * 60 + Value(t[|t| - 2..]))
    else None
  }

  /** The clock text loses nothing: reading it back gives the seconds shown,
      and its seconds field is below 60. */
  lemma {:induction false} TimeTextRoundTrip(d: nat)
    ensures ParseTime(TimeText(d)) == Some(d)
    ensures var t := TimeText(d); AllDigits(t[|t| - 2..]) && Value(t[|t| - 2..]) < 60
  {
    var m, r := d / 60, d % 60;
    PaddedValue(m);
    PaddedValue(r);
    var mm := PadStart(Digits(m), 2);
    var ss := PadStart(Digits(r), 2);
    assert TimeText(d) == mm + ":" + ss;
    ParseJoined(mm, ss);
  }

  /** Minutes, a colon and two seconds digits read back as their parts. */
  lemma ParseJoined(mm: string, ss: string)
    requires AllDigits(mm) && AllDigits(ss) && |ss| == 2
    ensures var t := mm + ":" + ss;
      t[|t| - 2..] == ss && ParseTime(t) == Some(Value(mm) * 60 + Value(ss))
  {
    var t := mm + ":" + ss;
    assert t[..|t| - 3] == mm;
    assert t[|t| - 2..] == ss;
  }

  /** A padded number still spells the number. */
  lemma {:induction false} PaddedValue(n: nat)
    ensures AllDigits(PadStart(Digits(n), 2)) && Value(PadStart(Digits(n), 2)) == n
  {
    var ds := Digits(n);
    var p := PadStart(ds, 2);
    assert p == Zeros(|p| - |ds|) + ds;
    ZerosAddNothing(|p| - |ds|, ds);
    ValueOfDigits(n);
  }

  /** The clock resets on entering the menu or the game-over screen, and on
      entering play from either; resuming from pause keeps it. */
  predicate ResetsClock(prev: Phase, phase: Phase) {
    (phase == Playing && (prev == Menu || prev == GameOver)) || phase == Menu || phase == GameOver
  }

  /** The panel's clock state: seconds counted, the current offset, and the
      phase the last change came from. */
  class MatchClock {
    var seconds: nat
    var offset: real
    var prevPhase: Phase

    ghost predicate Valid()
      reads this
    {
      -3.0 <= offset < 3.0
    }

    constructor (phase: Phase)
      ensures seconds == 0 && offset == 0.0 && prevPhase == phase && Valid()
    {
      seconds := 0;
      offset := 0.0;
      prevPhase := phase;
    }

    /** On a phase change: the seconds reset as `ResetsClock` says, the
        offset goes back to 0, and the phase is remembered. */
    method PhaseEffect(phase: Phase)
      modifies this
      ensures Valid()
      ensures seconds == if ResetsClock(old(prevPhase), phase) then 0 else old(seconds)
      ensures offset == 0.0 && prevPhase == phase
    {
      var prev := prevPhase;
      if phase == Playing {
        if prev == Menu || prev == GameOver {
          seconds := 0;
        }
      } else if phase == Menu || phase == GameOver {
        seconds := 0;
      }
      offset := 0.0;
      prevPhase := phase;
    }

    /** The one-second interval runs only while playing. */
    method Tick(phase: Phase)
      modifies this
      ensures seconds == old(seconds) + (if phase == Playing then 1 else 0)
      ensures offset == old(offset) && prevPhase == old(prevPhase)
    {
      if phase == Playing {
        seconds := seconds + 1;
      }
    }

    /** The jitter timer, active only while playing, draws a new offset. */
    method OffsetTick(phase: Phase, u: real)
      requires Valid() && IsSample(u)
      modifies this
      ensures Valid()
      ensures offset == if phase == Playing then Offset(u) else old(offset)
      ensures seconds == old(seconds) && prevPhase == old(prevPhase)
    {
      if phase == Playing {
        offset := Offset(u);
      }
    }

    /** What the panel shows. */
    method Text() returns (t: string)
      requires Valid()
      ensures t == TimeText(DisplaySeconds(seconds, offset))
      ensures ParseTime(t) == Some(DisplaySeconds(seconds, offset))
    {
      t := TimeText(DisplaySeconds(seconds, offset));
      TimeTextRoundTrip(DisplaySeconds(seconds, offset));
    }
  }
}
