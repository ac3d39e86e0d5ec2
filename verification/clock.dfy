/** 24-hour "HH:MM" clock texts, as schedules store their start time. */
module ClockTime {
  import opened Strings

  predicate IsDigit(c: char) {
    '0' <= c <= '9'
  }

  /** The language of `/^([0-1][0-9]|2[0-3]):([0-5][0-9])$/`. */
  predicate IsHHMM(s: string) {
    |s| == 5 && s[2] == ':'
    && (('0' <= s[0] <= '1' && IsDigit(s[1])) || (s[0] == '2' && '0' <= s[1] <= '3'))
    && '0' <= s[3] <= '5' && IsDigit(s[4])
  }

  /** The clock text of hour `h` and minute `m`. */
  function ClockText(h: nat, m: nat): (s: string)
    requires h < 24 && m < 60
    ensures |s| == 5
  {
    Pad2(h) + ":" + Pad2(m)
  }

  function DigitAt(s: string, i: nat): int
    requires i < |s|
  {
    s[i] as int - '0' as int
  }

  /** `Number(hh)` of the hour field. */
  function ClockHours(s: string): (h: nat)
    requires IsHHMM(s)
    ensures h < 24
  {
    DigitAt(s, 0) * 10 + DigitAt(s, 1)
  }

  /** `Number(mm)` of the minute field. */
  function ClockMinutes(s: string): (m: nat)
    requires IsHHMM(s)
    ensures m < 60
  {
    DigitAt(s, 3) * 10 + DigitAt(s, 4)
  }

  lemma Pad2Digits(n: nat)
    requires n < 100
    ensures |Pad2(n)| == 2
    ensures DigitAt(Pad2(n), 0) == n / 10 && DigitAt(Pad2(n), 1) == n % 10
  {
    if n >= 10 {
      assert NatToString(n) == NatToString(n / 10) + [Digit(n % 10)];
    }
  }

  /** The clock texts are exactly the strings of that language. */
  lemma ClockTextIsHHMM(h: nat, m: nat)
    requires h < 24 && m < 60
    ensures IsHHMM(ClockText(h, m))
    ensures ClockHours(ClockText(h, m)) == h && ClockMinutes(ClockText(h, m)) == m
  {
    Pad2Digits(h);
    Pad2Digits(m);
    var s := ClockText(h, m);
    assert s[0] == Pad2(h)[0] && s[1] == Pad2(h)[1] && s[3] == Pad2(m)[0] && s[4] == Pad2(m)[1];
  }

  /** A two-digit text is the padded text of its own value. */
  lemma Pad2OfDigits(t: string)
    requires |t| == 2 && IsDigit(t[0]) && IsDigit(t[1])
    ensures Pad2(DigitAt(t, 0) * 10 + DigitAt(t, 1)) == t
  {
    var d0, d1 := DigitAt(t, 0), DigitAt(t, 1);
    var n := d0 * 10 + d1;
    assert n / 10 == d0 && n % 10 == d1;
    Pad2Digits(n);
    var p := Pad2(n);
    assert p[0] as int == t[0] as int && p[1] as int == t[1] as int;
    assert p == [p[0], p[1]] && t == [t[0], t[1]];
  }

  /** Every string of the language is the clock text of its own fields. */
  lemma HHMMIsClockText(s: string)
    requires IsHHMM(s)
    ensures s == ClockText(ClockHours(s), ClockMinutes(s))
  {
    var h, m := ClockHours(s), ClockMinutes(s);
    assert Pad2(h) == s[..2] by {
      Pad2OfDigits(s[..2]);
      assert DigitAt(s[..2], 0) == DigitAt(s, 0) && DigitAt(s[..2], 1) == DigitAt(s, 1);
    }
    assert Pad2(m) == s[3..] by {
      Pad2OfDigits(s[3..]);
      assert DigitAt(s[3..], 0) == DigitAt(s, 3) && DigitAt(s[3..], 1) == DigitAt(s, 4);
    }
    assert s == s[..2] + ":" + s[3..];
  }

  /** Both directions together: the accepted texts are exactly the clock texts. */
  lemma IsHHMMIffClockText(s: string)
    ensures IsHHMM(s) <==> exists h: nat, m: nat | h < 24 && m < 60 :: s == ClockText(h, m)
  {
    if IsHHMM(s) {
      HHMMIsClockText(s);
    }
    forall h: nat, m: nat | h < 24 && m < 60 && s == ClockText(h, m)
      ensures IsHHMM(s)
    {
      ClockTextIsHHMM(h, m);
    }
  }
}
