/** bs_time_to_str: rendering a simulated time as "HH:MM:SS.UUUUUU". */
module TimeFormat {
  import opened BsTypes

  /** Microseconds per second, minute and hour. */
  const US_PER_S: nat := 1000000
  const US_PER_MIN: nat := 60 * US_PER_S
  const US_PER_HOUR: nat := 3600 * US_PER_S

  /** The hour field wraps at 100, so the printed time repeats every 100 hours. */
  const PRINT_PERIOD: nat := 100 * US_PER_HOUR

  /** Size of the character buffers the test-bench macros hand to bs_time_to_str. */
  const STRBUF_LEN: nat := 20

  /** The four unsigned fields bs_time_to_str computes. */
  datatype Hmsu = Hmsu(hour: nat, minute: nat, second: nat, us: nat)

  /** Total microseconds the fields stand for. */
  function FieldsValue(h: Hmsu): nat
  {
    ((h.hour * 60 + h.minute) * 60 + h.second) * US_PER_S + h.us
  }

  // ---------------------------------------------------------------------------
  // Euclidean division facts for unsigned operands

  lemma DivModUnique(x: nat, m: nat, q: nat, r: nat)
    requires m > 0 && r < m && x == q * m + r
    ensures x / m == q && x % m == r
  {
    var q', r' := x / m, x % m;
    assert x == q' * m + r';
    assert (q' - q) * m == r - r';
    assert (q - q') * m == r' - r;
    MulAtLeast(q' - q, m);
    MulAtLeast(q - q', m);
  }

  lemma MulAtLeast(d: int, m: nat)
    ensures d >= 1 ==> d * m >= m
  {
    if d >= 1 {
      assert d * m == (d - 1) * m + m;
    }
  }

  /** Splitting a division by a product into two divisions. */
  lemma DivModProduct(x: nat, a: nat, b: nat)
    requires a > 0 && b > 0
    ensures x / (a * b) == x / a / b
    ensures x % (a * b) == (x / a) % b * a + x % a
  {
    var q, r := x / a, x % a;
    var q1, q0 := q / b, q % b;
    assert x == q * a + r;
    assert q == q1 * b + q0;
    assert x == q1 * (a * b) + (q0 * a + r) by {
      assert q * a == q1 * (a * b) + q0 * a by {
        assert q * a == (q1 * b + q0) * a;
      }
    }
    assert q0 * a + r < a * b by {
      assert q0 <= b - 1;
      assert q0 * a <= (b - 1) * a;
    }
    DivModUnique(x, a * b, q1, q0 * a + r);
  }

  /** The fields of bs_time_to_str: hour, minute, second and microsecond of the time. */
  function Fields(t: Time): (r: Hmsu)
    ensures r.hour < 100 && r.minute < 60 && r.second < 60 && r.us < US_PER_S
    ensures FieldsValue(r) == t % PRINT_PERIOD
  {
    var r := Hmsu((t / 3600 / 1000000) % 100, (t / 60 / 1000000) % 60, (t / 1000000) % 60, t % 1000000);
    FieldsMeaning(t);
    r
  }

  lemma FieldsMeaning(t: Time)
    ensures FieldsValue(Hmsu((t / 3600 / 1000000) % 100, (t / 60 / 1000000) % 60, (t / 1000000) % 60, t % 1000000))
         == t % PRINT_PERIOD
  {
    var s := t / US_PER_S;
    DivModProduct(t, 3600, US_PER_S);
    DivModProduct(t, US_PER_S, 3600);
    DivModProduct(t, 60, US_PER_S);
    DivModProduct(t, US_PER_S, 60);
    assert t / 3600 / 1000000 == s / 3600;
    assert t / 60 / 1000000 == s / 60;
    DivModProduct(t, US_PER_S, 360000);
    assert t % PRINT_PERIOD == (s % 360000) * US_PER_S + t % US_PER_S;
    DivModProduct(s, 3600, 100);
    DivModProduct(s, 60, 60);
    assert s % 360000 == (s / 3600 % 100) * 3600 + (s / 60 % 60) * 60 + s % 60;
  }

  // ---------------------------------------------------------------------------
  // printf's %u and %0<w>u

  function Pow10(w: nat): (p: nat)
    ensures p >= 1
  {
    if w == 0 then 1 else 10 * Pow10(w - 1)
  }

  predicate IsDigit(c: char)
  {
    '0' <= c <= '9'
  }

  function DigitChar(d: nat): (c: char)
    requires d < 10
    ensures IsDigit(c) && c as int - '0' as int == d
  {
    ('0' as int + d) as char
  }

  /** %u: the decimal digits of n without leading zeros (a single "0" for zero). */
  function Digits(n: nat): (s: string)
    ensures |s| >= 1
    ensures forall i :: 0 <= i < |s| ==> IsDigit(s[i])
    decreases n
  {
    if n < 10 then [DigitChar(n)] else Digits(n / 10) + [DigitChar(n % 10)]
  }

  /** %0<w>u: the digits of n, left-padded with '0' up to width w. */
  function ZeroPad(n: nat, w: nat): (s: string)
  {
    var d := Digits(n);
    if |d| >= w then d else seq(w - |d|, _ => '0') + d
  }

  /** bs_time_to_str's output, "%02u:%02u:%02u.%06u" applied to Fields(t). */
  function TimeToStr(t: Time): (s: string)
    ensures |s| == 15 && |s| < STRBUF_LEN
    ensures s[2] == ':' && s[5] == ':' && s[8] == '.'
    ensures forall i :: 0 <= i < |s| && i != 2 && i != 5 && i != 8 ==> IsDigit(s[i])
  {
    var f := Fields(t);
    ZeroPadFixed(f.hour, 2);
    ZeroPadFixed(f.minute, 2);
    ZeroPadFixed(f.second, 2);
    ZeroPadFixed(f.us, 6);
    ZeroPad(f.hour, 2) + ":" + ZeroPad(f.minute, 2) + ":" + ZeroPad(f.second, 2) + "." + ZeroPad(f.us, 6)
  }

  // ---------------------------------------------------------------------------
  // Reading the decimal fields back

  /** The value of a string of decimal digits. */
  function ParseDec(s: string): nat
    requires forall i :: 0 <= i < |s| ==> IsDigit(s[i])
  {
    if s == [] then 0
    else
      var last := s[|s| - 1];
      assert IsDigit(last);
      ParseDec(s[..|s| - 1]) * 10 + (last as int - '0' as int)
  }

  /** Reads back the four fields of a string shaped like TimeToStr's output. */
  function ParseTime(s: string): Hmsu
    requires |s| == 15
    requires forall i :: 0 <= i < |s| && i != 2 && i != 5 && i != 8 ==> IsDigit(s[i])
  {
    Hmsu(ParseDec(s[0..2]), ParseDec(s[3..5]), ParseDec(s[6..8]), ParseDec(s[9..15]))
  }

  lemma {:induction false} DigitsShort(n: nat, w: nat)
    requires w >= 1 && n < Pow10(w)
    ensures |Digits(n)| <= w
    decreases n
  {
    if n >= 10 {
      assert n / 10 < Pow10(w - 1);
      DigitsShort(n / 10, w - 1);
    }
  }

  lemma {:induction false} ParseDigits(n: nat)
    ensures ParseDec(Digits(n)) == n
    decreases n
  {
    var d := Digits(n);
    if n >= 10 {
      ParseDigits(n / 10);
      assert d[..|d| - 1] == Digits(n / 10);
    }
  }

  lemma {:induction false} ParseLeadingZeros(z: nat, d: string)
    requires forall i :: 0 <= i < |d| ==> IsDigit(d[i])
    ensures ParseDec(seq(z, _ => '0') + d) == ParseDec(d)
    decreases |d|
  {
    var zs: string := seq(z, _ => '0');
    if d == [] {
      assert zs + d == zs;
      AllZeros(z);
    } else {
      var d' := d[..|d| - 1];
      assert (zs + d)[..|zs + d| - 1] == zs + d';
      ParseLeadingZeros(z, d');
    }
  }

  lemma {:induction false} AllZeros(z: nat)
    ensures ParseDec(seq(z, _ => '0')) == 0
  {
    if z > 0 {
      var zs: string := seq(z, _ => '0');
      assert zs[..z - 1] == seq(z - 1, _ => '0');
      AllZeros(z - 1);
    }
  }

  /** A field below 10^w is printed in exactly w digits that read back as the field. */
  lemma ZeroPadFixed(n: nat, w: nat)
    requires w >= 1 && n < Pow10(w)
    ensures |ZeroPad(n, w)| == w
    ensures forall i :: 0 <= i < w ==> IsDigit(ZeroPad(n, w)[i])
    ensures ParseDec(ZeroPad(n, w)) == n
  {
    DigitsShort(n, w);
    ParseDigits(n);
    var d := Digits(n);
    if |d| < w {
      ParseLeadingZeros(w - |d|, d);
    }
  }

  /** Reading TimeToStr's output back gives the fields it was printed from. */
  lemma TimeToStrRoundTrip(t: Time)
    ensures ParseTime(TimeToStr(t)) == Fields(t)
    ensures FieldsValue(ParseTime(TimeToStr(t))) == t % PRINT_PERIOD
  {
    var f := Fields(t);
    var s := TimeToStr(t);
    ZeroPadFixed(f.hour, 2);
    ZeroPadFixed(f.minute, 2);
    ZeroPadFixed(f.second, 2);
    ZeroPadFixed(f.us, 6);
    assert s[0..2] == ZeroPad(f.hour, 2);
    assert s[3..5] == ZeroPad(f.minute, 2);
    assert s[6..8] == ZeroPad(f.second, 2);
    assert s[9..15] == ZeroPad(f.us, 6);
  }
}
