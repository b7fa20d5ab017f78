/** The resend area of both OTP screens: while the countdown is above 0 it
    reads `Math.floor(c / 60)` ":" `String(c % 60).padStart(2, "0")`, and at 0
    or below the screen offers a "Resend OTP" button instead. */
module CountdownDisplay {
  import opened Common

  function DigitChar(d: nat): (ch: char)
    requires d < 10
    ensures IsDigit(ch)
  {
    ('0' as int + d) as char
  }

  function DigitValue(ch: char): nat
  {
    if IsDigit(ch) then ch as int - '0' as int else 0
  }

  /** `String(n)` for a non-negative integer: its decimal digits, no leading zero. */
  function NatToString(n: nat): (s: string)
    ensures |s| >= 1 && AllDigits(s)
    ensures n < 10 <==> |s| == 1
  {
    if n < 10 then [DigitChar(n)] else NatToString(n / 10) + [DigitChar(n % 10)]
  }

  /** `s.padStart(2, "0")`. */
  function PadStart2(s: string): (p: string)
    ensures |p| == if |s| >= 2 then |s| else 2
    ensures p[|p| - |s|..] == s
    ensures forall i :: 0 <= i < |p| - |s| ==> p[i] == '0'
  {
    if |s| >= 2 then s else seq(2 - |s|, _ => '0') + s
  }

  /** The countdown text for `c` seconds: the minutes `c / 60` in decimal, a
      colon, and the seconds `c % 60` as two digits, so that
      `minutes * 60 + seconds == c` and the text reads back as `c`. */
  function Format(c: nat): (s: string)
    ensures |s| >= 4 && s[|s| - 3] == ':'
    ensures s[..|s| - 3] == NatToString(c / 60)
    ensures |s[|s| - 2..]| == 2 && ParseNat(s[|s| - 2..]) == c % 60
    ensures ParseCountdown(s) == Some(c)
  {
    var m := NatToString(c / 60);
    var sec := PadStart2(NatToString(c % 60));
    PadTwoDigits(c % 60);
    ParseNatToString(c / 60);
    var s := m + ":" + sec;
    assert s[..|s| - 3] == m;
    assert s[|s| - 2..] == sec;
    s
  }

  /** Reading decimal digits back as a number. */
  function ParseNat(s: string): nat
  {
    if s == [] then 0 else ParseNat(s[..|s| - 1]) * 10 + DigitValue(s[|s| - 1])
  }

  /** Reading an `m:ss` text back as seconds, None when it is not of that shape. */
  function ParseCountdown(s: string): Option<nat>
  {
    if |s| >= 4 && s[|s| - 3] == ':' && AllDigits(s[..|s| - 3]) && AllDigits(s[|s| - 2..])
    then Some(ParseNat(s[..|s| - 3]) * 60 + ParseNat(s[|s| - 2..]))
    else None
  }

  /** What the resend area shows. */
  datatype ResendArea = CountdownText(text: string) | ResendButton

  /** The resend area for counter `c`: the button only when `c` is not above
      0, the text otherwise, and the text reads back as exactly `c`. */
  function Area(c: int): (r: ResendArea)
    ensures r.ResendButton? <==> c <= 0
    ensures r.CountdownText? ==> ParseCountdown(r.text) == Some(c)
  {
    if c > 0 then CountdownText(Format(c)) else ResendButton
  }

  /** Decimal digits read back as the number they were written from. */
  lemma {:induction false} ParseNatToString(n: nat)
    ensures ParseNat(NatToString(n)) == n
  {
    var s := NatToString(n);
    if n >= 10 {
      ParseNatToString(n / 10);
      assert s[..|s| - 1] == NatToString(n / 10);
    }
  }

  /** The seconds part: written with exactly two digits, read back as `x`. */
  lemma PadTwoDigits(x: nat)
    requires x < 60
    ensures |PadStart2(NatToString(x))| == 2 && AllDigits(PadStart2(NatToString(x)))
    ensures ParseNat(PadStart2(NatToString(x))) == x
  {
    var s := NatToString(x);
    var p := PadStart2(s);
    if x < 10 {
      assert p == ['0', DigitChar(x)];
      assert p[..1] == ['0'];
      assert p[..1][..0] == [];
      assert ParseNat(p[..1]) == 0;
      assert DigitValue(DigitChar(x)) == x;
    } else {
      ParseNatToString(x);
      assert NatToString(x / 10) == [DigitChar(x / 10)];
    }
  }

  /** The two minutes at entry are shown as "2:00", and 65 seconds as "1:05". */
  lemma FormatExamples()
    ensures Format(120) == "2:00"
    ensures Format(65) == "1:05"
  {
    assert NatToString(2) == "2" && NatToString(0) == "0";
    assert NatToString(1) == "1" && NatToString(5) == "5";
    assert PadStart2("0") == "00" && PadStart2("5") == "05";
    assert Format(120) == "2" + ":" + "00";
    assert Format(65) == "1" + ":" + "05";
  }
}
