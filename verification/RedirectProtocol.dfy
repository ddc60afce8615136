/** The redirect transport (channel/redirect-protocol.ts): a JSON payload carried in a URL fragment. */
module RedirectProtocol {
  import opened Wrappers
  import opened Base64Url
  import opened Text

  const MAX_REDIRECT_PAYLOAD_BYTES: nat := 4096
  const REQ_PARAM := "avokReq"
  const RES_PARAM := "avokRes"
  const TOO_LARGE := "Signing payload is over the redirect limit"
  const NOT_JSON := "The value cannot be written as JSON"
  const UNREADABLE := "The fragment does not hold a payload"

  /** JSON text as UTF-8 bytes. `write` is None where JSON.stringify throws (a bigint, say), `read` is None where
      JSON.parse throws. */
  datatype Json<!T> = Json(write: T -> Option<seq<Byte>>, read: seq<Byte> -> Option<T>)

  /** The only thing assumed of JSON: what was written is read back, and no value is written as zero bytes. */
  ghost predicate Faithful<T(!new)>(json: Json<T>) {
    forall v: T :: json.write(v).Some? ==> json.write(v).value != [] && json.read(json.write(v).value) == Some(v)
  }

  function Encode<T>(json: Json<T>, v: T, limit: nat): Result<string> {
    match json.write(v)
    case None => Err(NOT_JSON)
    case Some(bytes) => if |bytes| > limit then Err(TOO_LARGE) else Ok(BytesToBase64Url(bytes))
  }

  function Decode<T>(json: Json<T>, text: string): Result<T> {
    match DecodeUnpadded(text)
    case None => Err(UNREADABLE)
    case Some(bytes) => match json.read(bytes) case None => Err(UNREADABLE) case Some(v) => Ok(v)
  }

  /** A binary string holds one byte per character. */
  predicate IsBinary(s: string) {
    forall i :: 0 <= i < |s| ==> s[i] as int < 256
  }

  function CharCodes(binary: string): (bytes: seq<Byte>)
    requires IsBinary(binary)
    ensures |bytes| == |binary| && forall i :: 0 <= i < |binary| ==> bytes[i] == binary[i] as int
  {
    seq(|binary|, i requires 0 <= i < |binary| => binary[i] as int)
  }

  function CharString(bytes: seq<Byte>): (binary: string)
    ensures IsBinary(binary) && CharCodes(binary) == bytes
  {
    seq(|bytes|, i requires 0 <= i < |bytes| => bytes[i] as char)
  }

  /** The encoder step by step: a binary string built byte by byte, handed to `btoa`. */
  method EncodePayload<T>(json: Json<T>, v: T, limit: nat) returns (r: Result<string>)
    ensures r == Encode(json, v, limit)
  {
    var written := json.write(v);
    if written.None? { return Err(NOT_JSON); }
    var bytes := written.value;
    if |bytes| > limit { return Err(TOO_LARGE); }
    var binary := "";
    for i := 0 to |bytes|
      invariant |binary| == i && IsBinary(binary) && CharCodes(binary) == bytes[..i]
    {
      binary := binary + [bytes[i] as char];
    }
    assert CharCodes(binary) == bytes;
    r := Ok(BytesToBase64Url(CharCodes(binary)));
  }

  /** The decoder step by step: `atob` gives a binary string, read into bytes one character at a time. */
  method DecodePayload<T>(json: Json<T>, text: string) returns (r: Result<T>)
    ensures r == Decode(json, text)
  {
    var decoded := DecodeUnpadded(text);
    if decoded.None? { return Err(UNREADABLE); }
    var binary := CharString(decoded.value);
    var bytes: seq<Byte> := [];
    for i := 0 to |binary|
      invariant |bytes| == i && bytes == CharCodes(binary)[..i]
    {
      bytes := bytes + [binary[i] as int];
    }
    assert bytes == decoded.value;
    var parsed := json.read(bytes);
    r := if parsed.None? then Err(UNREADABLE) else Ok(parsed.value);
  }

  // ---- URLs and fragment parameters (URL Standard, sections 4.5 and 5.1) ----

  function WithoutFragment(href: string): string {
    href[..IndexOf(href, '#')]
  }

  function Fragment(href: string): string {
    var i := IndexOf(href, '#');
    if i == |href| then "" else href[i + 1..]
  }

  /** `url.hash = fragment` on a parsed URL, serialised. The fragment is already free of characters that the
      setter would escape. */
  function SetHash(href: string, fragment: string): string {
    WithoutFragment(href) + "#" + fragment
  }

  function HexDigit(c: char): Option<nat> {
    if '0' <= c <= '9' then Some(c as int - '0' as int)
    else if 'a' <= c <= 'f' then Some(c as int - 'a' as int + 10)
    else if 'A' <= c <= 'F' then Some(c as int - 'A' as int + 10)
    else None
  }

  /** '+' becomes a space and %XX the character it stands for, read as single bytes. */
  function Unescape(s: string): string {
    if s == [] then []
    else if s[0] == '+' then [' '] + Unescape(s[1..])
    else if s[0] == '%' && |s| >= 3 then
      match (HexDigit(s[1]), HexDigit(s[2]))
      case (Some(hi), Some(lo)) => [(hi * 16 + lo) as char] + Unescape(s[3..])
      case _ => [s[0]] + Unescape(s[1..])
    else [s[0]] + Unescape(s[1..])
  }

  /** `new URLSearchParams(query).get(name)`. */
  function GetParam(query: string, name: string): Option<string>
    decreases |query|
  {
    if query == [] then None else
    var amp := IndexOf(query, '&');
    var pair := query[..amp];
    var eq := IndexOf(pair, '=');
    var value := if eq == |pair| then "" else Unescape(pair[eq + 1..]);
    if pair != [] && Unescape(pair[..eq]) == name then Some(value)
    else if amp == |query| then None
    else GetParam(query[amp + 1..], name)
  }

  function EncodeUrl<T>(json: Json<T>, param: string, target: string, v: T, limit: nat): Result<string> {
    match Encode(json, v, limit)
    case Err(e) => Err(e)
    case Ok(text) => Ok(SetHash(target, param + "=" + text))
  }

  /** Ok(None) when the fragment names no such parameter, Err where decoding throws. */
  function DecodeUrl<T>(json: Json<T>, param: string, href: string): Result<Option<T>> {
    match GetParam(Fragment(href), param)
    case None => Ok(None)
    case Some(text) =>
      if text == "" then Ok(None) else
      match Decode(json, text) case Err(e) => Err(e) case Ok(v) => Ok(Some(v))
  }

  /** What travels out: the request together with where to send the answer. */
  datatype Outbound<+T> = Outbound(request: T, redirectUri: string)

  function LimitOf(limit: Option<nat>): nat {
    if limit.Some? then limit.value else MAX_REDIRECT_PAYLOAD_BYTES
  }

  function EncodeRequestUrl<T>(json: Json<Outbound<T>>, originPoint: string, request: T, redirectUri: string, limit: Option<nat>): Result<string> {
    EncodeUrl(json, REQ_PARAM, originPoint, Outbound(request, redirectUri), LimitOf(limit))
  }

  function DecodeRequestUrl<T>(json: Json<Outbound<T>>, href: string): Result<Option<Outbound<T>>> {
    DecodeUrl(json, REQ_PARAM, href)
  }

  function EncodeResultUrl<T>(json: Json<T>, redirectUri: string, result: T, limit: Option<nat>): Result<string> {
    EncodeUrl(json, RES_PARAM, redirectUri, result, LimitOf(limit))
  }

  function DecodeResultUrl<T>(json: Json<T>, href: string): Result<Option<T>> {
    DecodeUrl(json, RES_PARAM, href)
  }

  // ---- lemmas ----

  predicate Plain(s: string) {
    forall i :: 0 <= i < |s| ==> IsUrlSafe(s[i])
  }

  lemma {:induction false} UnescapePlain(s: string)
    requires Plain(s)
    ensures Unescape(s) == s
  {
    if s != [] { UnescapePlain(s[1..]); }
  }

  /** Only the fragment of the target is replaced. */
  lemma HashKeepsTarget(href: string, fragment: string)
    ensures WithoutFragment(SetHash(href, fragment)) == WithoutFragment(href)
    ensures WithoutFragment(href) <= SetHash(href, fragment)
  {
    var base := WithoutFragment(href);
    var url := SetHash(href, fragment);
    assert url[|base|] == '#' && forall j :: 0 <= j < |base| ==> url[j] == base[j] && base[j] != '#';
    IndexAt(url, '#', |base|);
    assert url[..|base|] == base;
  }

  lemma HashRoundTrip(href: string, fragment: string)
    ensures Fragment(SetHash(href, fragment)) == fragment
  {
    var base := WithoutFragment(href);
    var url := SetHash(href, fragment);
    assert url[|base|] == '#' && forall j :: 0 <= j < |base| ==> url[j] == base[j] && base[j] != '#';
    IndexAt(url, '#', |base|);
    assert url[|base| + 1..] == fragment;
  }

  lemma ParamLookup(param: string, text: string, name: string)
    requires param != [] && Plain(param) && Plain(text)
    ensures GetParam(param + "=" + text, name) == if name == param then Some(text) else None
  {
    var query := param + "=" + text;
    forall j | 0 <= j < |query| ensures query[j] != '&' {
      assert j < |param| ==> IsUrlSafe(param[j]);
      assert j > |param| ==> IsUrlSafe(text[j - |param| - 1]);
    }
    IndexAt(query, '&', |query|);
    assert query[..|query|] == query;
    forall j | 0 <= j < |param| ensures query[j] != '=' {
      assert IsUrlSafe(param[j]);
    }
    IndexAt(query, '=', |param|);
    assert query[..|param|] == param && query[|param| + 1..] == text;
    UnescapePlain(param);
    UnescapePlain(text);
  }

  /** For every value and target: written JSON within the limit is decoded from the built URL to exactly what was
      encoded, and anything longer is refused. */
  lemma UrlRoundTrip<T(!new)>(json: Json<T>, param: string, target: string, v: T, limit: nat)
    requires Faithful(json) && param != [] && Plain(param)
    ensures var url := EncodeUrl(json, param, target, v, limit);
      && (url.Ok? <==> json.write(v).Some? && |json.write(v).value| <= limit)
      && (json.write(v).Some? && |json.write(v).value| > limit ==> url == Err(TOO_LARGE))
      && (url.Ok? ==> DecodeUrl(json, param, url.value) == Ok(Some(v)))
  {
    if json.write(v).Some? && |json.write(v).value| <= limit {
      var bytes := json.write(v).value;
      var text := BytesToBase64Url(bytes);
      OutputShape(bytes);
      RoundTrip(bytes);
      assert |text| > 0;
      ParamLookup(param, text, param);
      HashRoundTrip(target, param + "=" + text);
    }
  }

  /** Within the caller's limit, or 4096 bytes. */
  predicate Fits(bytes: nat, limit: Option<nat>) {
    if limit.Some? then bytes <= limit.value else bytes <= 4096
  }

  /** An empty parameter is as good as none: decoding answers null and does not throw. */
  lemma EmptyParamIsNull<T(!new)>(json: Json<T>, param: string, target: string)
    requires param == REQ_PARAM || param == RES_PARAM
    ensures DecodeUrl(json, param, SetHash(target, param + "=")) == Ok(None)
  {
    ParamLookup(param, "", param);
    assert param + "=" + "" == param + "=";
    HashRoundTrip(target, param + "=");
  }

  lemma RequestRoundTrip<T(!new)>(json: Json<Outbound<T>>, originPoint: string, request: T, redirectUri: string, limit: Option<nat>)
    requires Faithful(json)
    ensures var sent := json.write(Outbound(request, redirectUri));
      var url := EncodeRequestUrl(json, originPoint, request, redirectUri, limit);
      && (url.Ok? <==> sent.Some? && Fits(|sent.value|, limit))
      && (sent.Some? && !Fits(|sent.value|, limit) ==> url == Err(TOO_LARGE))
      && (url.Ok? ==> DecodeRequestUrl(json, url.value) == Ok(Some(Outbound(request, redirectUri))))
      && (url.Ok? && '#' !in originPoint ==> originPoint + "#" <= url.value)
  {
    UrlRoundTrip(json, REQ_PARAM, originPoint, Outbound(request, redirectUri), LimitOf(limit));
    if '#' !in originPoint { IndexAt(originPoint, '#', |originPoint|); }
  }

  lemma ResultRoundTrip<T(!new)>(json: Json<T>, redirectUri: string, result: T, limit: Option<nat>)
    requires Faithful(json)
    ensures var sent := json.write(result);
      var url := EncodeResultUrl(json, redirectUri, result, limit);
      && (url.Ok? <==> sent.Some? && Fits(|sent.value|, limit))
      && (sent.Some? && !Fits(|sent.value|, limit) ==> url == Err(TOO_LARGE))
      && (url.Ok? ==> DecodeResultUrl(json, url.value) == Ok(Some(result)))
      && (url.Ok? && '#' !in redirectUri ==> redirectUri + "#" <= url.value)
  {
    UrlRoundTrip(json, RES_PARAM, redirectUri, result, LimitOf(limit));
    if '#' !in redirectUri { IndexAt(redirectUri, '#', |redirectUri|); }
  }

  lemma OtherParamIsNull<T(!new)>(json: Json<T>, sent: string, read: string, target: string, v: T, limit: nat)
    requires (sent == REQ_PARAM && read == RES_PARAM) || (sent == RES_PARAM && read == REQ_PARAM)
    requires EncodeUrl(json, sent, target, v, limit).Ok?
    ensures DecodeUrl(json, read, EncodeUrl(json, sent, target, v, limit).value) == Ok(None)
  {
    var text := BytesToBase64Url(json.write(v).value);
    OutputShape(json.write(v).value);
    assert sent[4] != read[4] || sent[6] != read[6];
    ParamLookup(sent, text, read);
    HashRoundTrip(target, sent + "=" + text);
  }

  /** A URL built for the other leg carries nothing: decoding answers null and does not throw. */
  lemma OtherLegIsNull<T(!new)>(json: Json<T>, target: string, v: T, limit: nat)
    ensures var request := EncodeUrl(json, REQ_PARAM, target, v, limit);
      request.Ok? ==> DecodeUrl(json, RES_PARAM, request.value) == Ok(None)
    ensures var result := EncodeUrl(json, RES_PARAM, target, v, limit);
      result.Ok? ==> DecodeUrl(json, REQ_PARAM, result.value) == Ok(None)
  {
    if EncodeUrl(json, REQ_PARAM, target, v, limit).Ok? { OtherParamIsNull(json, REQ_PARAM, RES_PARAM, target, v, limit); }
    if EncodeUrl(json, RES_PARAM, target, v, limit).Ok? { OtherParamIsNull(json, RES_PARAM, REQ_PARAM, target, v, limit); }
  }
}
