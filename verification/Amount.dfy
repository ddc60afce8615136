/** Base-unit amounts as display text (helpers/amount.ts), and what that text reads back as. */
module Amount {
  import opened Wrappers
  import opened Text

  function Pow10(n: nat): (p: nat)
    ensures p > 0
  {
    if n == 0 then 1 else 10 * Pow10(n - 1)
  }

  lemma {:induction false} Pow10Add(a: nat, b: nat)
    ensures Pow10(a + b) == Pow10(a) * Pow10(b)
  {
    if a != 0 {
      Pow10Add(a - 1, b);
      assert Pow10(a + b) == 10 * Pow10(a - 1 + b);
    }
  }

  function Zeros(n: nat): (s: string)
    ensures |s| == n && AllDigits(s)
    ensures forall i :: 0 <= i < n ==> s[i] == '0'
  {
    seq(n, _ => '0')
  }

  function PadStart(s: string, n: nat): string {
    if |s| >= n then s else Zeros(n - |s|) + s
  }

  function PadEnd(s: string, n: nat): string {
    if |s| >= n then s else s + Zeros(n - |s|)
  }

  /** Drops the run of '0' characters at the end. */
  function TrimZeros(s: string): string {
    if s != [] && s[|s| - 1] == '0' then TrimZeros(s[..|s| - 1]) else s
  }

  /** A separator before every digit, other than the first, whose distance to the end is a multiple of three. */
  function WithThousands(digits: string): string {
    if |digits| <= 1 then digits
    else [digits[0]] + (if (|digits| - 1) % 3 == 0 then "," else "") + WithThousands(digits[1..])
  }

  function Padded(frac: nat, decimals: nat): string {
    if decimals > 0 then PadStart(NatToString(frac), decimals) else ""
  }

  function TopUp(f: string, whole: nat): string {
    if whole != 0 && |f| < 2 then PadEnd(f, 2) else f
  }

  /** The fraction digits shown for `frac` of `decimals` digits next to the integer part `whole`. */
  function Fraction(whole: nat, frac: nat, decimals: nat): string {
    TopUp(TrimZeros(Padded(frac, decimals)), whole)
  }

  /** The text for a sign, an integer part and a remainder out of 10^decimals. */
  function Render(negative: bool, whole: nat, rem: nat, decimals: nat): string {
    var frac := Fraction(whole, rem, decimals);
    var intStr := WithThousands(NatToString(whole));
    var body := if |frac| > 0 then intStr + "." + frac else intStr;
    if negative then "-" + body else body
  }

  function Quotient(a: nat, b: nat): (q: nat)
    requires b > 0
  {
    a / b
  }

  function Remainder(a: nat, b: nat): (r: nat)
    requires b > 0
    ensures r < b && Quotient(a, b) * b + r == a
  {
    a % b
  }

  /** None stands for the RangeError that a negative exponent raises. */
  function FormatAmount(base: int, decimals: int): Option<string> {
    if decimals < 0 then None else
    var abs: nat := if base < 0 then -base else base;
    var divisor := Pow10(decimals);
    Some(Render(base < 0, Quotient(abs, divisor), Remainder(abs, divisor), decimals))
  }

  // ---- an independent reader of decimal text ----

  /** The number mantissa / 10^scale. */
  datatype Decimal = Decimal(mantissa: int, scale: nat)

  function StripCommas(s: string): string {
    if s == [] then [] else (if s[0] == ',' then [] else [s[0]]) + StripCommas(s[1..])
  }

  function ReadUnsigned(s: string): Option<Decimal> {
    var dot := IndexOf(s, '.');
    var whole := s[..dot];
    var frac := if dot == |s| then [] else s[dot + 1..];
    if whole == [] || !AllDigits(whole + frac) || (dot < |s| && frac == []) then None
    else Some(Decimal(DigitsToNat(whole + frac), |frac|))
  }

  function Signed(negative: bool, n: int): int {
    if negative then -n else n
  }

  function ReadDecimal(s: string): Option<Decimal> {
    if s != [] && s[0] == '-' then
      match ReadUnsigned(s[1..]) case Some(d) => Some(Decimal(-d.mantissa, d.scale)) case None => None
    else ReadUnsigned(s)
  }

  // ---- lemmas ----

  lemma ShiftIn(x: nat, p: nat, y: nat, d: nat)
    ensures (x * p + y) * 10 + d == x * (10 * p) + (y * 10 + d)
  {
  }

  lemma {:induction false} DigitsConcat(a: string, b: string)
    requires AllDigits(a) && AllDigits(b)
    ensures AllDigits(a + b)
    ensures DigitsToNat(a + b) == DigitsToNat(a) * Pow10(|b|) + DigitsToNat(b)
  {
    if b == [] {
      assert a + b == a;
    } else {
      var b' := b[..|b| - 1];
      DigitsConcat(a, b');
      assert (a + b)[..|a + b| - 1] == a + b';
      ShiftIn(DigitsToNat(a), Pow10(|b'|), DigitsToNat(b'), DigitValue(b[|b| - 1]));
    }
  }

  lemma {:induction false} ZerosValue(n: nat)
    ensures DigitsToNat(Zeros(n)) == 0
  {
    if n != 0 {
      assert Zeros(n)[..n - 1] == Zeros(n - 1);
      ZerosValue(n - 1);
    }
  }

  /** Trimming removes exactly a block of zeros. */
  lemma {:induction false} TrimZerosSplit(s: string)
    ensures |TrimZeros(s)| <= |s|
    ensures s == TrimZeros(s) + Zeros(|s| - |TrimZeros(s)|)
  {
    if s != [] && s[|s| - 1] == '0' {
      TrimZerosSplit(s[..|s| - 1]);
      var t := TrimZeros(s);
      assert s == s[..|s| - 1] + ['0'];
      assert Zeros(|s| - |t|) == Zeros(|s| - 1 - |t|) + ['0'];
    } else {
      assert s == s + Zeros(0);
    }
  }

  lemma {:induction false} DigitCount(n: nat, k: nat)
    requires n < Pow10(k)
    ensures |NatToString(n)| <= if k == 0 then 1 else k
  {
    if n >= 10 {
      assert k >= 1;
      DigitCount(n / 10, k - 1);
    }
  }

  lemma PadText(s: string, k: nat)
    requires AllDigits(s) && |s| <= k
    ensures var p := PadStart(s, k); |p| == k && AllDigits(p) && DigitsToNat(p) == DigitsToNat(s)
  {
    if |s| < k {
      DigitsConcat(Zeros(k - |s|), s);
      ZerosValue(k - |s|);
    }
  }

  lemma PadStartValue(n: nat, k: nat)
    requires k > 0 && n < Pow10(k)
    ensures var p := PadStart(NatToString(n), k); |p| == k && AllDigits(p) && DigitsToNat(p) == n
  {
    DigitCount(n, k);
    NatRoundTrip(n);
    PadText(NatToString(n), k);
  }

  /** What it means for the digits f to show rem out of 10^decimals. */
  ghost predicate Shows(f: string, rem: nat, decimals: nat) {
    AllDigits(f) && DigitsToNat(f) * Pow10(decimals) == rem * Pow10(|f|)
  }

  lemma TrimmedShows(padded: string, decimals: nat)
    requires AllDigits(padded) && |padded| == decimals
    ensures Shows(TrimZeros(padded), DigitsToNat(padded), decimals)
  {
    TrimZerosSplit(padded);
    var t := TrimZeros(padded);
    var z := decimals - |t|;
    assert AllDigits(t) by { assert forall i :: 0 <= i < |t| ==> t[i] == padded[i]; }
    DigitsConcat(t, Zeros(z));
    ZerosValue(z);
    Pow10Add(|t|, z);
    Rotate(DigitsToNat(t), Pow10(|t|), Pow10(z));
  }

  lemma Rotate(a: int, b: int, c: int)
    ensures a * (b * c) == a * c * b
  {
  }

  lemma PaddedShows(t: string, rem: nat, decimals: nat, p: nat)
    requires Shows(t, rem, decimals)
    ensures Shows(t + Zeros(p), rem, decimals)
  {
    DigitsConcat(t, Zeros(p));
    ZerosValue(p);
    Pow10Add(|t|, p);
    ScaleBoth(DigitsToNat(t), Pow10(decimals), rem, Pow10(|t|), Pow10(p));
  }

  lemma ScaleBoth(a: int, b: int, c: int, d: int, p: int)
    requires a * b == c * d
    ensures a * p * b == c * (d * p)
  {
    Rotate(p, a, b);
    Rotate(p, c, d);
  }

  /** The digits of the printed fraction are exact: scaled back they give the remainder, and a last digit zero
      appears only as the two-place padding of a non-zero integer part. */
  lemma FractionExact(whole: nat, rem: nat, decimals: nat)
    requires rem < Pow10(decimals)
    ensures var f := Fraction(whole, rem, decimals);
      Shows(f, rem, decimals)
      && (f != [] && f[|f| - 1] == '0' ==> whole != 0 && |f| == 2)
      && (whole != 0 ==> |f| >= 2)
  {
    PaddedValue(rem, decimals);
    var padded := Padded(rem, decimals);
    TrimmedShows(padded, decimals);
    TrimmedLast(padded);
    TopUpShows(TrimZeros(padded), whole, rem, decimals);
  }

  lemma PaddedValue(rem: nat, decimals: nat)
    requires rem < Pow10(decimals)
    ensures var p := Padded(rem, decimals); AllDigits(p) && |p| == decimals && DigitsToNat(p) == rem
  {
    if decimals > 0 { PadStartValue(rem, decimals); }
  }

  lemma {:induction false} TrimmedLast(s: string)
    ensures TrimZeros(s) != [] ==> TrimZeros(s)[|TrimZeros(s)| - 1] != '0'
  {
    if s != [] { TrimmedLast(s[..|s| - 1]); }
  }

  lemma TopUpShows(t: string, whole: nat, rem: nat, decimals: nat)
    requires Shows(t, rem, decimals) && (t != [] ==> t[|t| - 1] != '0')
    ensures var f := TopUp(t, whole);
      Shows(f, rem, decimals)
      && (f != [] && f[|f| - 1] == '0' ==> whole != 0 && |f| == 2)
      && (whole != 0 ==> |f| >= 2)
  {
    if whole != 0 && |t| < 2 {
      PaddedShows(t, rem, decimals, 2 - |t|);
    }
  }

  lemma {:induction false} StripConcat(a: string, b: string)
    ensures StripCommas(a + b) == StripCommas(a) + StripCommas(b)
  {
    if a == [] {
      assert a + b == b;
    } else {
      assert (a + b)[1..] == a[1..] + b;
      StripConcat(a[1..], b);
    }
  }

  lemma {:induction false} StripDigits(s: string)
    requires forall i :: 0 <= i < |s| ==> s[i] != ','
    ensures StripCommas(s) == s
  {
    if s != [] { StripDigits(s[1..]); }
  }

  /** Deleting the separators gives the digits back. */
  lemma {:induction false} ThousandsStrip(digits: string)
    requires AllDigits(digits)
    ensures StripCommas(WithThousands(digits)) == digits
  {
    if |digits| <= 1 {
      StripDigits(digits);
    } else {
      ThousandsStrip(digits[1..]);
      var tail := WithThousands(digits[1..]);
      var sep := if (|digits| - 1) % 3 == 0 then "," else "";
      assert WithThousands(digits) == [digits[0]] + sep + tail;
      StripHead(digits[0], sep, tail);
      assert digits == [digits[0]] + digits[1..];
    }
  }

  lemma StripHead(c: char, sep: string, tail: string)
    requires c != ',' && (sep == "," || sep == "")
    ensures StripCommas([c] + sep + tail) == [c] + StripCommas(tail)
  {
    assert ([c] + sep + tail)[1..] == sep + tail;
    if sep == "," {
      assert (sep + tail)[1..] == tail;
    } else {
      assert sep + tail == tail;
    }
  }

  /** Commas stand exactly at positions 3, 7, 11, ... counted from the right. */
  predicate Grouped(w: string) {
    forall j :: 0 <= j < |w| ==> (w[|w| - 1 - j] == ',' <==> j % 4 == 3)
  }

  lemma GroupedLength(n: nat)
    requires n >= 1
    ensures (n + (n - 1) / 3) % 4 == if n % 3 == 0 then 3 else n % 3
    ensures n + 1 + n / 3 == n + (n - 1) / 3 + 1 + (if n % 3 == 0 then 1 else 0)
  {
  }

  lemma GroupedPrepend(c: char, w: string)
    requires Grouped(w) && (c == ',' <==> |w| % 4 == 3)
    ensures Grouped([c] + w)
  {
    var v := [c] + w;
    forall j | 0 <= j < |v| ensures v[|v| - 1 - j] == ',' <==> j % 4 == 3 {
      if j < |w| { assert v[|v| - 1 - j] == w[|w| - 1 - j]; }
    }
  }

  /** Every group right of the first has exactly three digits. */
  lemma {:induction false} ThousandsGroups(digits: string)
    requires AllDigits(digits) && digits != []
    ensures Grouped(WithThousands(digits))
    ensures |WithThousands(digits)| == |digits| + (|digits| - 1) / 3
  {
    if |digits| > 1 {
      ThousandsGroups(digits[1..]);
      var n := |digits| - 1;
      var w := WithThousands(digits[1..]);
      GroupedLength(n);
      if n % 3 == 0 {
        GroupedPrepend(',', w);
        GroupedPrepend(digits[0], "," + w);
        assert [digits[0]] + "," + w == [digits[0]] + ("," + w);
      } else {
        GroupedPrepend(digits[0], w);
        assert [digits[0]] + "" + w == [digits[0]] + w;
      }
    }
  }

  lemma ReadWhole(digits: string)
    requires AllDigits(digits) && digits != []
    ensures ReadUnsigned(digits) == Some(Decimal(DigitsToNat(digits), 0))
  {
    IndexAt(digits, '.', |digits|);
    assert digits[..|digits|] == digits && digits + [] == digits;
  }

  lemma ReadPointed(digits: string, frac: string)
    requires AllDigits(digits) && digits != [] && AllDigits(frac) && frac != []
    ensures AllDigits(digits + frac)
    ensures ReadUnsigned(digits + "." + frac) == Some(Decimal(DigitsToNat(digits + frac), |frac|))
  {
    var s := digits + "." + frac;
    assert forall i :: 0 <= i < |digits| ==> s[i] == digits[i];
    IndexAt(s, '.', |digits|);
    assert s[..|digits|] == digits && s[|digits| + 1..] == frac;
  }

  lemma ReadParts(digits: string, frac: string)
    requires AllDigits(digits) && digits != [] && AllDigits(frac)
    ensures var s := if |frac| > 0 then digits + "." + frac else digits;
      AllDigits(digits + frac) && ReadUnsigned(s) == Some(Decimal(DigitsToNat(digits + frac), |frac|))
  {
    if |frac| > 0 {
      ReadPointed(digits, frac);
    } else {
      ReadWhole(digits);
      assert digits + frac == digits;
    }
  }

  lemma StripBody(whole: nat, frac: string)
    requires AllDigits(frac)
    ensures var intStr := WithThousands(NatToString(whole));
      && StripCommas(intStr) == NatToString(whole)
      && StripCommas(intStr + "." + frac) == NatToString(whole) + "." + frac
  {
    var intStr := WithThousands(NatToString(whole));
    ThousandsStrip(NatToString(whole));
    StripConcat(intStr + ".", frac);
    StripConcat(intStr, ".");
    StripDigits(".");
    StripDigits(frac);
  }

  lemma StripSign(body: string)
    ensures StripCommas("-" + body) == "-" + StripCommas(body)
  {
    StripConcat("-", body);
    StripDigits("-");
  }

  /** Deleting the separators of rendered text leaves sign, digits, point and fraction. */
  lemma RenderStripped(negative: bool, whole: nat, rem: nat, decimals: nat)
    requires rem < Pow10(decimals)
    ensures var frac := Fraction(whole, rem, decimals);
      var plain := if |frac| > 0 then NatToString(whole) + "." + frac else NatToString(whole);
      StripCommas(Render(negative, whole, rem, decimals)) == (if negative then "-" else "") + plain
  {
    FractionExact(whole, rem, decimals);
    var frac := Fraction(whole, rem, decimals);
    var intStr := WithThousands(NatToString(whole));
    StripBody(whole, frac);
    StripSign(if |frac| > 0 then intStr + "." + frac else intStr);
  }

  lemma ReadSigned(negative: bool, plain: string)
    requires plain != [] && IsDigit(plain[0]) && ReadUnsigned(plain).Some?
    ensures var d := ReadUnsigned(plain).value;
      ReadDecimal((if negative then "-" else "") + plain)
        == Some(Decimal(Signed(negative, d.mantissa), d.scale))
  {
    var s := (if negative then "-" else "") + plain;
    if negative {
      assert s[0] == '-' && s[1..] == plain;
    } else {
      assert s == plain && s[0] != '-';
    }
  }

  /** Reading rendered text gives the printed digits, the length of the fraction as scale, and the sign. */
  lemma RenderReads(negative: bool, whole: nat, rem: nat, decimals: nat)
    requires rem < Pow10(decimals)
    ensures var frac := Fraction(whole, rem, decimals);
      AllDigits(NatToString(whole) + frac) &&
      var m := DigitsToNat(NatToString(whole) + frac);
      ReadDecimal(StripCommas(Render(negative, whole, rem, decimals)))
        == Some(Decimal(Signed(negative, m), |frac|))
  {
    FractionExact(whole, rem, decimals);
    RenderStripped(negative, whole, rem, decimals);
    var frac := Fraction(whole, rem, decimals);
    var digits := NatToString(whole);
    ReadParts(digits, frac);
    ReadSigned(negative, if |frac| > 0 then digits + "." + frac else digits);
  }

  lemma WeighParts(whole: int, rem: int, divisor: int, digits: int, scale: int)
    requires digits * divisor == rem * scale
    ensures (whole * scale + digits) * divisor == (whole * divisor + rem) * scale
  {
    Rotate(whole, divisor, scale);
    assert whole * (divisor * scale) == whole * divisor * scale;
  }

  lemma MantissaExact(abs: nat, decimals: nat)
    ensures var whole := Quotient(abs, Pow10(decimals));
      var frac := Fraction(whole, Remainder(abs, Pow10(decimals)), decimals);
      AllDigits(NatToString(whole) + frac)
      && DigitsToNat(NatToString(whole) + frac) * Pow10(decimals) == abs * Pow10(|frac|)
  {
    var divisor := Pow10(decimals);
    var whole := Quotient(abs, divisor);
    var rem := Remainder(abs, divisor);
    var frac := Fraction(whole, rem, decimals);
    FractionExact(whole, rem, decimals);
    NatRoundTrip(whole);
    DigitsConcat(NatToString(whole), frac);
    WeighParts(whole, rem, divisor, DigitsToNat(frac), Pow10(|frac|));
  }

  lemma SignedScale(negative: bool, m: int, divisor: int, abs: int, scale: int)
    requires m * divisor == abs * scale
    ensures Signed(negative, m) * divisor == Signed(negative, abs) * scale
  {
    if negative { NegBoth(m, divisor, abs, scale); }
  }

  /** What the text denotes once its separators are deleted: exactly base / 10^decimals. */
  lemma FormatIsExact(base: int, decimals: nat)
    ensures var read := ReadDecimal(StripCommas(FormatAmount(base, decimals).value));
      read.Some? && read.value.mantissa * Pow10(decimals) == base * Pow10(read.value.scale)
  {
    var abs: nat := if base < 0 then -base else base;
    var whole := Quotient(abs, Pow10(decimals));
    var rem := Remainder(abs, Pow10(decimals));
    var frac := Fraction(whole, rem, decimals);
    MantissaExact(abs, decimals);
    RenderReads(base < 0, whole, rem, decimals);
    SignedScale(base < 0, DigitsToNat(NatToString(whole) + frac), Pow10(decimals), abs, Pow10(|frac|));
  }

  lemma NegBoth(a: int, b: int, c: int, d: int)
    requires a * b == c * d
    ensures (-a) * b == (-c) * d
  {
  }

  /** No two amounts of one token are ever printed alike. */
  lemma FormatIsInjective(a: int, b: int, decimals: nat)
    requires FormatAmount(a, decimals) == FormatAmount(b, decimals)
    ensures a == b
  {
    FormatIsExact(a, decimals);
    FormatIsExact(b, decimals);
    Cancel(a, b, Pow10(ReadDecimal(StripCommas(FormatAmount(a, decimals).value)).value.scale));
  }

  lemma Cancel(a: int, b: int, p: nat)
    requires p > 0 && a * p == b * p
    ensures a == b
  {
    assert (a - b) * p == 0;
  }
}
