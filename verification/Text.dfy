/** Decimal text: how integers are printed, and how JavaScript's BigInt reads text back. */
module Text {
  import opened Wrappers

  predicate IsDigit(c: char) {
    '0' <= c <= '9'
  }

  predicate AllDigits(s: string) {
    forall i :: 0 <= i < |s| ==> IsDigit(s[i])
  }

  function DigitChar(d: nat): (c: char)
    requires d < 10
    ensures IsDigit(c) && DigitValue(c) == d
  {
    (('0' as int) + d) as char
  }

  function DigitValue(c: char): (d: nat)
    requires IsDigit(c)
    ensures d < 10
  {
    (c as int) - ('0' as int)
  }

  /** `n.toString()` for a non-negative bigint. */
  function NatToString(n: nat): (s: string)
    ensures s != [] && AllDigits(s)
  {
    if n < 10 then [DigitChar(n)] else NatToString(n / 10) + [DigitChar(n % 10)]
  }

  /** `n.toString()` for any bigint. */
  function IntToString(n: int): string {
    if n < 0 then "-" + NatToString(-n) else NatToString(n)
  }

  /** The number a digit string denotes in base ten. */
  function DigitsToNat(s: string): nat
    requires AllDigits(s)
  {
    if s == [] then 0 else DigitsToNat(s[..|s| - 1]) * 10 + DigitValue(s[|s| - 1])
  }

  lemma {:induction false} NatRoundTrip(n: nat)
    ensures DigitsToNat(NatToString(n)) == n
  {
    if n < 10 {
      assert NatToString(n)[..0] == [];
    } else {
      NatRoundTrip(n / 10);
      var s := NatToString(n);
      assert s[..|s| - 1] == NatToString(n / 10);
    }
  }

  /** Whitespace stripped by BigInt's string grammar, ASCII part. */
  predicate IsSpace(c: char) {
    c == ' ' || ('\t' as int) <= c as int <= ('\r' as int)
  }

  function TrimStart(s: string): string {
    if s != [] && IsSpace(s[0]) then TrimStart(s[1..]) else s
  }

  function TrimEnd(s: string): string {
    if s != [] && IsSpace(s[|s| - 1]) then TrimEnd(s[..|s| - 1]) else s
  }

  /** The value of `c` as a digit of the given radix, if it is one. */
  function RadixDigit(c: char, radix: nat): (d: Option<nat>) {
    var v :=
      if '0' <= c <= '9' then (c as int) - ('0' as int)
      else if 'a' <= c <= 'f' then (c as int) - ('a' as int) + 10
      else if 'A' <= c <= 'F' then (c as int) - ('A' as int) + 10
      else radix;
    if v < radix then Some(v) else None
  }

  function ParseRadix(s: string, radix: nat): Option<nat> {
    if s == [] then Some(0) else
    match (ParseRadix(s[..|s| - 1], radix), RadixDigit(s[|s| - 1], radix))
    case (Some(hi), Some(lo)) => Some(hi * radix + lo)
    case _ => None
  }

  function ParseUnsigned(s: string): Option<int> {
    if s != [] && AllDigits(s) then Some(DigitsToNat(s)) else None
  }

  function ParseSigned(s: string): Option<int> {
    if s != [] && s[0] == '+' then ParseUnsigned(s[1..])
    else if s != [] && s[0] == '-' then
      match ParseUnsigned(s[1..]) case Some(n) => Some(-n) case None => None
    else ParseUnsigned(s)
  }

  /** `BigInt(text)`: None where the constructor throws a SyntaxError. */
  function ParseBigInt(text: string): Option<int> {
    var s := TrimEnd(TrimStart(text));
    if s == [] then Some(0)
    else if |s| > 2 && s[0] == '0' && (s[1] == 'x' || s[1] == 'X') then ParseRadix(s[2..], 16)
    else if |s| > 2 && s[0] == '0' && (s[1] == 'o' || s[1] == 'O') then ParseRadix(s[2..], 8)
    else if |s| > 2 && s[0] == '0' && (s[1] == 'b' || s[1] == 'B') then ParseRadix(s[2..], 2)
    else ParseSigned(s)
  }

  lemma NothingToTrim(s: string)
    requires s != [] && !IsSpace(s[0]) && !IsSpace(s[|s| - 1])
    ensures TrimEnd(TrimStart(s)) == s
  {
  }

  lemma PlainParse(s: string)
    requires s != [] && !IsSpace(s[0]) && !IsSpace(s[|s| - 1]) && (|s| > 1 ==> IsDigit(s[1]))
    ensures ParseBigInt(s) == ParseSigned(s)
  {
    NothingToTrim(s);
  }

  lemma DigitsParse(digits: string)
    requires digits != [] && AllDigits(digits)
    ensures ParseSigned(digits) == Some(DigitsToNat(digits))
    ensures ParseSigned("-" + digits).Some? && ParseSigned("-" + digits).value + DigitsToNat(digits) == 0
  {
    assert digits[0] != '+' && digits[0] != '-';
    var s := "-" + digits;
    assert s[0] == '-' && s[1..] == digits;
  }

  /** Printing an integer and reading it back with BigInt is the identity. */
  lemma BigIntRoundTrip(n: int)
    ensures ParseBigInt(IntToString(n)) == Some(n)
  {
    var digits := NatToString(if n < 0 then -n else n);
    NatRoundTrip(if n < 0 then -n else n);
    DigitsParse(digits);
    PlainParse(if n < 0 then "-" + digits else digits);
  }

  function HexChar(d: nat, upper: bool): (c: char)
    requires d < 16
  {
    if d < 10 then DigitChar(d) else (d - 10 + if upper then 'A' as int else 'a' as int) as char
  }

  /** `n` in base sixteen, in capital or small letters. */
  function NatToHex(n: nat, upper: bool): (s: string)
    ensures s != []
  {
    if n < 16 then [HexChar(n, upper)] else NatToHex(n / 16, upper) + [HexChar(n % 16, upper)]
  }

  lemma HexDigitRead(d: nat, upper: bool)
    requires d < 16
    ensures RadixDigit(HexChar(d, upper), 16) == Some(d) && !IsSpace(HexChar(d, upper))
  {
  }

  lemma {:induction false} HexRead(n: nat, upper: bool)
    ensures ParseRadix(NatToHex(n, upper), 16) == Some(n)
    ensures !IsSpace(NatToHex(n, upper)[|NatToHex(n, upper)| - 1])
  {
    var s := NatToHex(n, upper);
    HexDigitRead(n % 16, upper);
    assert s[|s| - 1] == HexChar(n % 16, upper);
    if n < 16 {
      assert s[..0] == [];
    } else {
      HexRead(n / 16, upper);
      assert s[..|s| - 1] == NatToHex(n / 16, upper);
    }
  }

  /** Hexadecimal text is read as the number it writes, in either letter case. */
  lemma HexRoundTrip(n: nat, upper: bool, mark: char)
    requires mark == 'x' || mark == 'X'
    ensures ParseBigInt(['0', mark] + NatToHex(n, upper)) == Some(n)
  {
    HexRead(n, upper);
    var text := ['0', mark] + NatToHex(n, upper);
    assert text[2..] == NatToHex(n, upper);
    NothingToTrim(text);
  }

  /** Spaces and line ends around a number do not matter. */
  lemma SpaceIgnored(s: string, c: char)
    requires c == ' ' || c == '\t' || c == '\n' || c == '\r'
    ensures ParseBigInt([c] + s) == ParseBigInt(s)
    ensures s != [] && !IsSpace(s[0]) ==> ParseBigInt(s + [c]) == ParseBigInt(s)
  {
    assert ([c] + s)[1..] == s;
    assert (s + [c])[..|s|] == s;
  }

  /** ASCII part of `toLowerCase`, enough for addresses and for case-insensitive matching of ASCII words. */
  function LowerChar(c: char): char {
    if 'A' <= c <= 'Z' then ((c as int) - ('A' as int) + ('a' as int)) as char else c
  }

  function Lower(s: string): (r: string)
    ensures |r| == |s|
    ensures forall i :: 0 <= i < |s| ==> r[i] == LowerChar(s[i])
  {
    seq(|s|, i requires 0 <= i < |s| => LowerChar(s[i]))
  }

  /** The same character, letter case apart. */
  predicate SameLetter(a: char, b: char) {
    a == b || ('A' <= a <= 'Z' && b as int == a as int + 32) || ('A' <= b <= 'Z' && a as int == b as int + 32)
  }

  /** Two texts agree in lower case exactly when they agree character by character, letter case apart. */
  lemma SameLower(a: string, b: string)
    ensures Lower(a) == Lower(b) <==> |a| == |b| && forall i :: 0 <= i < |a| ==> SameLetter(a[i], b[i])
  {
    if Lower(a) == Lower(b) {
      forall i | 0 <= i < |a| ensures SameLetter(a[i], b[i]) {
        assert LowerChar(a[i]) == Lower(a)[i] == Lower(b)[i] == LowerChar(b[i]);
      }
    }
  }

  /** The first position of `c`, or the length. */
  function IndexOf(s: string, c: char): (i: nat)
    ensures i <= |s|
    ensures i < |s| ==> s[i] == c
    ensures forall j :: 0 <= j < i ==> s[j] != c
  {
    if s == [] || s[0] == c then 0 else 1 + IndexOf(s[1..], c)
  }

  lemma {:induction false} IndexAt(s: string, c: char, i: nat)
    requires i <= |s| && (i < |s| ==> s[i] == c) && forall j :: 0 <= j < i ==> s[j] != c
    ensures IndexOf(s, c) == i
  {
    if i > 0 { IndexAt(s[1..], c, i - 1); }
  }

  predicate StandsAt(text: string, part: string, i: nat) {
    i + |part| <= |text| && text[i..i + |part|] == part
  }

  /** `text` contains `part` as a contiguous piece. */
  ghost predicate Mentions(text: string, part: string) {
    exists i: nat :: StandsAt(text, part, i)
  }

  lemma MentionsAt(before: string, part: string, after: string)
    ensures Mentions(before + part + after, part)
  {
    assert StandsAt(before + part + after, part, |before|);
  }

  /** A template literal: its pieces one after another, from piece `first` on. */
  function JoinFrom(parts: seq<string>, first: nat): string
    decreases |parts| - first
  {
    if first >= |parts| then "" else parts[first] + JoinFrom(parts, first + 1)
  }

  function Join(parts: seq<string>): string {
    JoinFrom(parts, 0)
  }

  lemma {:induction false} JoinSplit(parts: seq<string>, first: nat, i: nat) returns (before: string)
    requires first <= i < |parts|
    ensures JoinFrom(parts, first) == before + parts[i] + JoinFrom(parts, i + 1)
    ensures first == i ==> before == ""
    decreases i - first
  {
    if first == i {
      before := "";
      assert "" + parts[i] == parts[i];
    } else {
      before := JoinSplit(parts, first + 1, i);
      Associate(parts[first], before + parts[i], JoinFrom(parts, i + 1));
      Associate(parts[first], before, parts[i]);
      before := parts[first] + before;
    }
  }

  /** A template mentions every one of its pieces, and begins with the first. */
  lemma AllPieces(parts: seq<string>)
    requires parts != []
    ensures forall i :: 0 <= i < |parts| ==> Mentions(Join(parts), parts[i])
    ensures StandsAt(Join(parts), parts[0], 0)
  {
    forall i | 0 <= i < |parts| ensures Mentions(Join(parts), parts[i]) {
      var before := JoinSplit(parts, 0, i);
      MentionsAt(before, parts[i], JoinFrom(parts, i + 1));
    }
  }

  predicate Begins(text: string, first: string, second: string) {
    StandsAt(text, first + second, 0)
  }

  predicate Ends(text: string, part: string) {
    |part| <= |text| && StandsAt(text, part, |text| - |part|)
  }

  lemma FirstTwo(parts: seq<string>)
    requires |parts| >= 2
    ensures Begins(Join(parts), parts[0], parts[1])
  {
    var rest := JoinFrom(parts, 2);
    assert JoinFrom(parts, 1) == parts[1] + rest;
    Associate(parts[0], parts[1], rest);
    assert (parts[0] + parts[1] + rest)[0..|parts[0] + parts[1]|] == parts[0] + parts[1];
  }

  lemma TailFrom(parts: seq<string>, i: nat)
    requires i < |parts|
    ensures Ends(Join(parts), JoinFrom(parts, i))
  {
    var before := JoinSplit(parts, 0, i);
    Associate(before, parts[i], JoinFrom(parts, i + 1));
    EndsAppended(before, JoinFrom(parts, i));
  }

  lemma EndsAppended(before: string, part: string)
    ensures Ends(before + part, part)
  {
    assert (before + part)[|before|..|before| + |part|] == part;
  }

  lemma LastOne(parts: seq<string>)
    requires |parts| >= 1
    ensures JoinFrom(parts, |parts| - 1) == parts[|parts| - 1]
  {
    assert JoinFrom(parts, |parts|) == "";
  }

  lemma LastTwo(parts: seq<string>)
    requires |parts| >= 2
    ensures Ends(Join(parts), parts[|parts| - 2] + parts[|parts| - 1])
    ensures Ends(Join(parts), parts[|parts| - 1])
  {
    var n := |parts|;
    TailFrom(parts, n - 2);
    TailFrom(parts, n - 1);
    LastOne(parts);
  }

  lemma LastFour(parts: seq<string>)
    requires |parts| >= 4
    ensures var n := |parts|; Ends(Join(parts), parts[n - 4] + parts[n - 3] + (parts[n - 2] + parts[n - 1]))
  {
    var n := |parts|;
    TailFrom(parts, n - 4);
    LastOne(parts);
    assert JoinFrom(parts, n - 3) == parts[n - 3] + JoinFrom(parts, n - 2);
    Associate(parts[n - 4], parts[n - 3], parts[n - 2] + parts[n - 1]);
  }
}
