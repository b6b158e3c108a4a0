/**
 * The text side of the SysEx commands (xr12/xair.go): Go's `%02d` verb, the four
 * `fmt.Sprintf` address formats the actions use, and the `[]byte(string)`
 * conversion of their ASCII results.
 */
module Format {
  import opened Bytes

  predicate IsDigit(c: char)
  {
    '0' <= c <= '9'
  }

  predicate AllDigits(s: string)
  {
    forall i :: 0 <= i < |s| ==> IsDigit(s[i])
  }

  function DigitChar(d: nat): (c: char)
    requires d < 10
    ensures IsDigit(c) && c as int - '0' as int == d
  {
    ('0' as int + d) as char
  }

  /** The shortest decimal representation of `n`, as Go's `%d` prints it. */
  function Decimal(n: nat): (s: string)
    ensures AllDigits(s) && |s| >= 1
    ensures |s| == 1 <==> n < 10
    ensures n >= 10 ==> s[0] != '0'
  {
    if n < 10 then [DigitChar(n)] else Decimal(n / 10) + [DigitChar(n % 10)]
  }

  /** The value a string of decimal digits denotes; leading zeros are allowed. */
  function ParseDecimal(s: string): nat
    requires AllDigits(s)
  {
    if s == [] then 0 else ParseDecimal(s[..|s| - 1]) * 10 + (s[|s| - 1] as int - '0' as int)
  }

  lemma {:induction false} ParseDecimalOfDecimal(n: nat)
    ensures ParseDecimal(Decimal(n)) == n
  {
    if n >= 10 {
      var s := Decimal(n);
      assert s[..|s| - 1] == Decimal(n / 10);
      ParseDecimalOfDecimal(n / 10);
    }
  }

  /**
   * Go's `%02d` on a non-negative integer: the decimal digits, left-padded with '0'
   * to a width of two.
   */
  function Pad2(n: nat): (s: string)
    ensures AllDigits(s) && |s| >= 2
    ensures n < 100 <==> |s| == 2
    ensures (s[0] == '0') <==> n < 10
    ensures ParseDecimal(s) == n
  {
    ParseDecimalOfDecimal(n);
    if n < 10 then
      var s := "0" + Decimal(n);
      assert s[..1] == "0";
      s
    else
      Decimal(n)
  }

  lemma Pad2Examples()
    ensures Pad2(3) == "03" && Pad2(5) == "05" && Pad2(16) == "16" && Pad2(32) == "32"
  {
  }

  /** Two numbers print the same under `%02d` only if they are equal. */
  lemma Pad2Injective(m: nat, n: nat)
    requires Pad2(m) == Pad2(n)
    ensures m == n
  {
  }

  predicate IsAscii(s: string)
  {
    forall i :: 0 <= i < |s| ==> s[i] as int < 0x80
  }

  /** Go's `[]byte(s)`: for ASCII text, one byte per character holding its code. */
  function Ascii(s: string): (b: seq<Byte>)
    requires IsAscii(s)
    ensures |b| == |s|
    ensures forall i :: 0 <= i < |s| ==> b[i] as int == s[i] as int
  {
    seq(|s|, i requires 0 <= i < |s| => s[i] as int as Byte)
  }

  /** Different ASCII texts become different byte slices. */
  lemma AsciiInjective(s: string, t: string)
    requires IsAscii(s) && IsAscii(t) && Ascii(s) == Ascii(t)
    ensures s == t
  {
    assert |s| == |t|;
    forall i | 0 <= i < |s|
      ensures s[i] == t[i]
    {
      assert Ascii(s)[i] == Ascii(t)[i];
    }
  }

  lemma DigitsAreAscii(s: string)
    requires AllDigits(s)
    ensures IsAscii(s)
  {
  }

  /** `fmt.Sprintf("/ch/%02d/mix/fader %s", channel, db)` */
  function ChannelFader(channel: nat, db: string): (s: string)
    requires IsAscii(db)
    ensures IsAscii(s)
  {
    DigitsAreAscii(Pad2(channel));
    "/ch/" + (Pad2(channel) + ("/mix/fader " + db))
  }

  /** `fmt.Sprintf("/ch/%02d/mix/%02d/level %s", channel, bus, db)` */
  function ChannelSend(channel: nat, bus: nat, db: string): (s: string)
    requires IsAscii(db)
    ensures IsAscii(s)
  {
    DigitsAreAscii(Pad2(channel));
    DigitsAreAscii(Pad2(bus));
    "/ch/" + (Pad2(channel) + ("/mix/" + (Pad2(bus) + ("/level " + db))))
  }

  /** `fmt.Sprintf("/main/st/mix/fader %s", db)` */
  function MainFader(db: string): (s: string)
    requires IsAscii(db)
    ensures IsAscii(s)
  {
    "/main/st/mix/fader " + db
  }

  /** `fmt.Sprintf("/bus/%02d/mix/fader %s", bus, db)` */
  function BusFader(bus: nat, db: string): (s: string)
    requires IsAscii(db)
    ensures IsAscii(s)
  {
    DigitsAreAscii(Pad2(bus));
    "/bus/" + (Pad2(bus) + ("/mix/fader " + db))
  }

  /** In `p + a`, the first non-digit is at index `|p|`. */
  lemma DigitsThenNonDigit(p: string, a: string)
    requires AllDigits(p) && a != [] && !IsDigit(a[0])
    ensures forall k :: 0 <= k < |p| ==> IsDigit((p + a)[k])
    ensures !IsDigit((p + a)[|p|])
  {
  }

  /**
   * A run of digits followed by text that starts with a non-digit splits in one
   * way only: this is how a `%02d` field is found again in an address.
   */
  lemma DigitRunSplits(p: string, a: string, q: string, b: string)
    requires AllDigits(p) && AllDigits(q)
    requires a != [] && b != [] && !IsDigit(a[0]) && !IsDigit(b[0])
    requires p + a == q + b
    ensures p == q && a == b
  {
    DigitsThenNonDigit(p, a);
    DigitsThenNonDigit(q, b);
    assert |p| == |q|;
    assert p == (p + a)[..|p|] && q == (q + b)[..|q|];
    assert a == (p + a)[|p|..] && b == (q + b)[|q|..];
  }

  lemma CancelPrefix(pre: string, x: string, y: string)
    requires pre + x == pre + y
    ensures x == y
  {
    assert x == (pre + x)[|pre|..];
  }

  /** A channel fader address names one channel and one dB string. */
  lemma ChannelFaderInjective(c1: nat, d1: string, c2: nat, d2: string)
    requires IsAscii(d1) && IsAscii(d2)
    requires ChannelFader(c1, d1) == ChannelFader(c2, d2)
    ensures c1 == c2 && d1 == d2
  {
    CancelPrefix("/ch/", Pad2(c1) + ("/mix/fader " + d1), Pad2(c2) + ("/mix/fader " + d2));
    DigitRunSplits(Pad2(c1), "/mix/fader " + d1, Pad2(c2), "/mix/fader " + d2);
    CancelPrefix("/mix/fader ", d1, d2);
    Pad2Injective(c1, c2);
  }

  /** A channel send-level address names one channel, one bus and one dB string. */
  lemma ChannelSendInjective(c1: nat, b1: nat, d1: string, c2: nat, b2: nat, d2: string)
    requires IsAscii(d1) && IsAscii(d2)
    requires ChannelSend(c1, b1, d1) == ChannelSend(c2, b2, d2)
    ensures c1 == c2 && b1 == b2 && d1 == d2
  {
    var r1, r2 := Pad2(b1) + ("/level " + d1), Pad2(b2) + ("/level " + d2);
    CancelPrefix("/ch/", Pad2(c1) + ("/mix/" + r1), Pad2(c2) + ("/mix/" + r2));
    DigitRunSplits(Pad2(c1), "/mix/" + r1, Pad2(c2), "/mix/" + r2);
    CancelPrefix("/mix/", r1, r2);
    DigitRunSplits(Pad2(b1), "/level " + d1, Pad2(b2), "/level " + d2);
    CancelPrefix("/level ", d1, d2);
    Pad2Injective(c1, c2);
    Pad2Injective(b1, b2);
  }

  /** A bus fader address names one bus and one dB string. */
  lemma BusFaderInjective(b1: nat, d1: string, b2: nat, d2: string)
    requires IsAscii(d1) && IsAscii(d2)
    requires BusFader(b1, d1) == BusFader(b2, d2)
    ensures b1 == b2 && d1 == d2
  {
    CancelPrefix("/bus/", Pad2(b1) + ("/mix/fader " + d1), Pad2(b2) + ("/mix/fader " + d2));
    DigitRunSplits(Pad2(b1), "/mix/fader " + d1, Pad2(b2), "/mix/fader " + d2);
    CancelPrefix("/mix/fader ", d1, d2);
    Pad2Injective(b1, b2);
  }

  /** A main fader address names one dB string. */
  lemma MainFaderInjective(d1: string, d2: string)
    requires IsAscii(d1) && IsAscii(d2)
    requires MainFader(d1) == MainFader(d2)
    ensures d1 == d2
  {
    assert MainFader(d1)[19..] == d1;
    assert MainFader(d2)[19..] == d2;
  }

  /** The four address families never produce the same text. */
  lemma FormatsDisjoint(c: nat, b: nat, c2: nat, b2: nat, d1: string, d2: string)
    requires IsAscii(d1) && IsAscii(d2)
    ensures ChannelFader(c, d1) != ChannelSend(c2, b2, d2)
    ensures ChannelFader(c, d1) != MainFader(d2) && ChannelFader(c, d1) != BusFader(b, d2)
    ensures ChannelSend(c2, b2, d1) != MainFader(d2) && ChannelSend(c2, b2, d1) != BusFader(b, d2)
    ensures MainFader(d1) != BusFader(b, d2)
  {
    var rf, rg := "/mix/fader " + d1, "/mix/" + (Pad2(b2) + ("/level " + d2));
    if ChannelFader(c, d1) == ChannelSend(c2, b2, d2) {
      CancelPrefix("/ch/", Pad2(c) + rf, Pad2(c2) + rg);
      DigitRunSplits(Pad2(c), rf, Pad2(c2), rg);
    }
    assert rf[5] == 'f' && IsDigit(rg[5]);
    assert ChannelFader(c, d1)[1] == 'c' && ChannelSend(c2, b2, d1)[1] == 'c';
    assert MainFader(d2)[1] == 'm' && MainFader(d1)[1] == 'm';
    assert BusFader(b, d2)[1] == 'b';
  }
}
