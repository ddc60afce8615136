/** base64url text of byte strings (wallet/encoding.ts, and the encode/decode pair of
    channel/redirect-protocol.ts). `Btoa` and `Atob` follow RFC 4648 section 4 and the forgiving decoder of the
    Infra Standard, section 7. */
module Base64Url {
  import opened Wrappers

  type Byte = b: int | 0 <= b < 256

  function Sextet(v: nat): (c: char)
    requires v < 64
  {
    if v < 26 then ('A' as int + v) as char
    else if v < 52 then ('a' as int + (v - 26)) as char
    else if v < 62 then ('0' as int + (v - 52)) as char
    else if v == 62 then '+' else '/'
  }

  function SextetValue(c: char): (v: Option<nat>)
    ensures v.Some? ==> v.value < 64
  {
    if 'A' <= c <= 'Z' then Some(c as int - 'A' as int)
    else if 'a' <= c <= 'z' then Some(c as int - 'a' as int + 26)
    else if '0' <= c <= '9' then Some(c as int - '0' as int + 52)
    else if c == '+' then Some(62)
    else if c == '/' then Some(63)
    else None
  }

  /** The sextets of one byte, of two bytes, and of a full group of three. */
  function One(a: Byte): string {
    [Sextet(a / 4), Sextet(a % 4 * 16)]
  }

  function Two(a: Byte, b: Byte): string {
    [Sextet(a / 4), Sextet(a % 4 * 16 + b / 16), Sextet(b % 16 * 4)]
  }

  function Three(a: Byte, b: Byte, c: Byte): string {
    [Sextet(a / 4), Sextet(a % 4 * 16 + b / 16), Sextet(b % 16 * 4 + c / 64), Sextet(c % 64)]
  }

  function Btoa(bytes: seq<Byte>): string {
    if |bytes| == 0 then ""
    else if |bytes| == 1 then One(bytes[0]) + "=="
    else if |bytes| == 2 then Two(bytes[0], bytes[1]) + "="
    else Three(bytes[0], bytes[1], bytes[2]) + Btoa(bytes[3..])
  }

  predicate IsWhitespace(c: char) {
    c == '\t' || c == '\n' || c as int == 12 || c == '\r' || c == ' '
  }

  function DropWhitespace(s: string): string {
    if s == [] then [] else (if IsWhitespace(s[0]) then [] else [s[0]]) + DropWhitespace(s[1..])
  }

  function DropPadding(s: string): string {
    if |s| % 4 != 0 || s == [] || s[|s| - 1] != '=' then s
    else if s[|s| - 2] == '=' then s[..|s| - 2] else s[..|s| - 1]
  }

  function DecodeQuads(s: string): Option<seq<Byte>> {
    if |s| == 0 then Some([])
    else if |s| == 1 then None
    else
      match (SextetValue(s[0]), SextetValue(s[1]))
      case (Some(a), Some(b)) =>
        var first: Byte := a * 4 + b / 16;
        if |s| == 2 then Some([first]) else
        (match SextetValue(s[2])
         case None => None
         case Some(c) =>
           var second: Byte := b % 16 * 16 + c / 4;
           if |s| == 3 then Some([first, second]) else
           match (SextetValue(s[3]), DecodeQuads(s[4..]))
           case (Some(d), Some(rest)) =>
             var third: Byte := c % 4 * 64 + d;
             Some([first, second, third] + rest)
           case _ => None)
      case _ => None
  }

  function Unpad(s: string): string {
    DropPadding(DropWhitespace(s))
  }

  /** None stands for the InvalidCharacterError. */
  function Atob(s: string): Option<seq<Byte>> {
    DecodeQuads(Unpad(s))
  }

  function ToUrlChar(c: char): char {
    if c == '+' then '-' else if c == '/' then '_' else c
  }

  function FromUrlChar(c: char): char {
    if c == '-' then '+' else if c == '_' then '/' else c
  }

  function MapChars(s: string, f: char -> char): (r: string)
    ensures |r| == |s| && forall i :: 0 <= i < |s| ==> r[i] == f(s[i])
  {
    seq(|s|, i requires 0 <= i < |s| => f(s[i]))
  }

  function StripEquals(s: string): string {
    if s != [] && s[|s| - 1] == '=' then StripEquals(s[..|s| - 1]) else s
  }

  function BytesToBase64Url(bytes: seq<Byte>): string {
    StripEquals(MapChars(Btoa(bytes), ToUrlChar))
  }

  /** channel/redirect-protocol.ts: no re-padding before `atob`. */
  function DecodeUnpadded(text: string): Option<seq<Byte>> {
    Atob(MapChars(text, FromUrlChar))
  }

  /** wallet/encoding.ts: padded to a multiple of four first. */
  function Base64UrlToBytes(text: string): Option<seq<Byte>> {
    var base64 := MapChars(text, FromUrlChar);
    Atob(base64 + Padding(|base64|))
  }

  predicate IsUrlSafe(c: char) {
    'A' <= c <= 'Z' || 'a' <= c <= 'z' || '0' <= c <= '9' || c == '-' || c == '_'
  }

  // ---- the unpadded text directly, three bytes at a time ----

  function Core(bytes: seq<Byte>): string {
    if |bytes| == 0 then ""
    else if |bytes| == 1 then One(bytes[0])
    else if |bytes| == 2 then Two(bytes[0], bytes[1])
    else Three(bytes[0], bytes[1], bytes[2]) + Core(bytes[3..])
  }

  predicate InAlphabet(s: string) {
    forall i :: 0 <= i < |s| ==> SextetValue(s[i]).Some?
  }

  function Padding(n: nat): string {
    seq((4 - n % 4) % 4, _ => '=')
  }

  lemma SextetRoundTrip(v: nat)
    requires v < 64
    ensures SextetValue(Sextet(v)) == Some(v)
  {
  }

  lemma GroupsInAlphabet(a: Byte, b: Byte, c: Byte)
    ensures InAlphabet(One(a)) && InAlphabet(Two(a, b)) && InAlphabet(Three(a, b, c))
  {
    SextetRoundTrip(a / 4);
    SextetRoundTrip(a % 4 * 16);
    SextetRoundTrip(a % 4 * 16 + b / 16);
    SextetRoundTrip(b % 16 * 4);
    SextetRoundTrip(b % 16 * 4 + c / 64);
    SextetRoundTrip(c % 64);
  }

  lemma {:induction false} CoreShape(bytes: seq<Byte>)
    ensures |Core(bytes)| == (4 * |bytes| + 2) / 3
    ensures InAlphabet(Core(bytes))
  {
    if |bytes| > 0 {
      GroupsInAlphabet(bytes[0], if |bytes| > 1 then bytes[1] else 0, if |bytes| > 2 then bytes[2] else 0);
    }
    if |bytes| >= 3 {
      CoreShape(bytes[3..]);
    }
  }

  lemma {:induction false} BtoaPads(bytes: seq<Byte>)
    ensures Btoa(bytes) == Core(bytes) + Padding(|Core(bytes)|)
  {
    if |bytes| >= 3 {
      BtoaPads(bytes[3..]);
      var head := Three(bytes[0], bytes[1], bytes[2]);
      var tail := Core(bytes[3..]);
      Associate(head, tail, Padding(|tail|));
      PaddingShift(|tail|);
    }
  }

  lemma PaddingShift(n: nat)
    ensures Padding(n + 4) == Padding(n)
  {
  }

  lemma BytesRejoin(a: Byte, b: Byte, c: Byte)
    ensures a / 4 * 4 + (a % 4 * 16 + b / 16) / 16 == a
    ensures a / 4 * 4 + (a % 4 * 16) / 16 == a
    ensures (a % 4 * 16 + b / 16) % 16 * 16 + (b % 16 * 4 + c / 64) / 4 == b
    ensures (a % 4 * 16 + b / 16) % 16 * 16 + (b % 16 * 4) / 4 == b
    ensures (b % 16 * 4 + c / 64) % 4 * 64 + c % 64 == c
  {
  }

  lemma ShortGroupsDecode(a: Byte, b: Byte)
    ensures DecodeQuads(One(a)) == Some([a]) && DecodeQuads(Two(a, b)) == Some([a, b])
  {
    SextetRoundTrip(a / 4);
    SextetRoundTrip(a % 4 * 16);
    SextetRoundTrip(a % 4 * 16 + b / 16);
    SextetRoundTrip(b % 16 * 4);
    BytesRejoin(a, b, 0);
  }

  lemma FullGroupDecodes(a: Byte, b: Byte, c: Byte, tail: string)
    requires DecodeQuads(tail).Some?
    ensures DecodeQuads(Three(a, b, c) + tail) == Some([a, b, c] + DecodeQuads(tail).value)
  {
    SextetRoundTrip(a / 4);
    SextetRoundTrip(a % 4 * 16 + b / 16);
    SextetRoundTrip(b % 16 * 4 + c / 64);
    SextetRoundTrip(c % 64);
    BytesRejoin(a, b, c);
    assert (Three(a, b, c) + tail)[4..] == tail;
  }

  lemma Regroup(bytes: seq<Byte>)
    requires |bytes| >= 3
    ensures bytes == [bytes[0], bytes[1], bytes[2]] + bytes[3..]
  {
  }

  lemma {:induction false} CoreDecodes(bytes: seq<Byte>)
    ensures DecodeQuads(Core(bytes)) == Some(bytes)
  {
    if |bytes| == 1 {
      ShortGroupsDecode(bytes[0], 0);
      assert bytes == [bytes[0]];
    } else if |bytes| == 2 {
      ShortGroupsDecode(bytes[0], bytes[1]);
      assert bytes == [bytes[0], bytes[1]];
    } else if |bytes| >= 3 {
      var a, b, c, rest := bytes[0], bytes[1], bytes[2], bytes[3..];
      CoreDecodes(rest);
      FullGroupDecodes(a, b, c, Core(rest));
      Regroup(bytes);
    }
  }

  lemma {:induction false} StripSuffix(s: string, k: nat)
    requires s == [] || s[|s| - 1] != '='
    ensures StripEquals(s + seq(k, _ => '=')) == s
  {
    var t := s + seq(k, _ => '=');
    if k == 0 {
      assert t == s;
    } else {
      assert t[..|t| - 1] == s + seq(k - 1, _ => '=');
      StripSuffix(s, k - 1);
    }
  }

  lemma {:induction false} NoWhitespace(s: string)
    requires forall i :: 0 <= i < |s| ==> !IsWhitespace(s[i])
    ensures DropWhitespace(s) == s
  {
    if s != [] { NoWhitespace(s[1..]); }
  }

  lemma SubstitutedPadding(core: string, k: nat)
    ensures MapChars(core + seq(k, _ => '='), ToUrlChar) == MapChars(core, ToUrlChar) + seq(k, _ => '=')
  {
  }

  lemma SubstitutionUndone(core: string)
    requires InAlphabet(core)
    ensures MapChars(MapChars(core, ToUrlChar), FromUrlChar) == core
    ensures core != [] ==> MapChars(core, ToUrlChar)[|core| - 1] != '='
  {
    forall i | 0 <= i < |core| ensures FromUrlChar(ToUrlChar(core[i])) == core[i] && ToUrlChar(core[i]) != '=' {
      assert SextetValue(core[i]).Some?;
    }
  }

  lemma PaddingGone(core: string)
    requires InAlphabet(core)
    ensures StripEquals(MapChars(core + Padding(|core|), ToUrlChar)) == MapChars(core, ToUrlChar)
  {
    var k := (4 - |core| % 4) % 4;
    SubstitutedPadding(core, k);
    SubstitutionUndone(core);
    StripSuffix(MapChars(core, ToUrlChar), k);
  }

  /** The encoder's output is the unpadded text with the two URL substitutions. */
  lemma EncodedIs(bytes: seq<Byte>)
    ensures BytesToBase64Url(bytes) == MapChars(Core(bytes), ToUrlChar)
    ensures MapChars(BytesToBase64Url(bytes), FromUrlChar) == Core(bytes)
  {
    CoreShape(bytes);
    BtoaPads(bytes);
    PaddingGone(Core(bytes));
    SubstitutionUndone(Core(bytes));
  }

  lemma AlphabetClean(core: string, k: nat)
    requires InAlphabet(core)
    ensures DropWhitespace(core + seq(k, _ => '=')) == core + seq(k, _ => '=')
    ensures core != [] ==> core[|core| - 1] != '='
  {
    var s := core + seq(k, _ => '=');
    forall i | 0 <= i < |s| ensures !IsWhitespace(s[i]) {
      if i < |core| {
        assert SextetValue(core[i]).Some?;
      } else {
        assert s[i] == '=';
      }
    }
    NoWhitespace(s);
    if core != [] { assert SextetValue(core[|core| - 1]).Some?; }
  }

  lemma DropsPadding(core: string, k: nat)
    requires core != [] && core[|core| - 1] != '=' && 1 <= k <= 2 && (|core| + k) % 4 == 0
    ensures DropPadding(core + seq(k, _ => '=')) == core
  {
    var s := core + seq(k, _ => '=');
    assert s[|s| - 1] == '=' && s[..|core|] == core;
    assert s[|s| - 2] == if k == 2 then '=' else core[|core| - 1];
  }

  lemma UnpadPlain(core: string)
    requires InAlphabet(core)
    ensures Unpad(core) == core
  {
    AlphabetClean(core, 0);
    assert core + seq(0, _ => '=') == core;
  }

  lemma UnpadPadded(core: string, k: nat)
    requires InAlphabet(core) && core != [] && 1 <= k <= 2 && (|core| + k) % 4 == 0
    ensures Unpad(core + seq(k, _ => '=')) == core
  {
    AlphabetClean(core, k);
    DropsPadding(core, k);
  }

  lemma UnpadCore(core: string)
    requires InAlphabet(core) && |core| % 4 != 1
    ensures Unpad(core) == core
    ensures Unpad(core + Padding(|core|)) == core
  {
    UnpadPlain(core);
    var k := (4 - |core| % 4) % 4;
    if k != 0 {
      UnpadPadded(core, k);
    } else {
      assert core + Padding(|core|) == core;
    }
  }

  lemma DecodesCore(text: string, core: string, bytes: seq<Byte>)
    requires MapChars(text, FromUrlChar) == core && InAlphabet(core) && |core| % 4 != 1 && DecodeQuads(core) == Some(bytes)
    ensures DecodeUnpadded(text) == Some(bytes) && Base64UrlToBytes(text) == Some(bytes)
  {
    UnpadCore(core);
  }

  lemma CoreIsWhole(bytes: seq<Byte>)
    ensures InAlphabet(Core(bytes)) && |Core(bytes)| % 4 != 1
  {
    CoreShape(bytes);
    NeverOneOver(|bytes|);
  }

  /** Every byte string survives, decoded with or without re-padding (RFC 4648 sections 3.2 and 5). */
  lemma RoundTrip(bytes: seq<Byte>)
    ensures DecodeUnpadded(BytesToBase64Url(bytes)) == Some(bytes)
    ensures Base64UrlToBytes(BytesToBase64Url(bytes)) == Some(bytes)
  {
    EncodedIs(bytes);
    CoreIsWhole(bytes);
    CoreDecodes(bytes);
    DecodesCore(BytesToBase64Url(bytes), Core(bytes), bytes);
  }

  lemma NeverOneOver(n: nat)
    ensures (4 * n + 2) / 3 % 4 != 1
  {
  }

  /** Only [A-Za-z0-9_-] appears, and n bytes take exactly ceil(4n/3) characters. */
  lemma OutputShape(bytes: seq<Byte>)
    ensures var text := BytesToBase64Url(bytes);
      |text| == (4 * |bytes| + 2) / 3 && forall i :: 0 <= i < |text| ==> IsUrlSafe(text[i])
  {
    EncodedIs(bytes);
    CoreShape(bytes);
  }
}
