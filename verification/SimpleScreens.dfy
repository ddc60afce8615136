/** The screens of a message and of a sign-in, against what is signed (auth-popup/sign/consent.ts,
    auth-popup/sign/consent-display.ts). */
module SimpleScreens {
  import opened Wrappers
  import opened Text
  import opened Requests
  import opened Consent
  import opened ConsentDisplay
  import opened Danger

  function ScreenOf(k: Codec, request: SignRequest): seq<Line>
    requires DecodeSignConsent(k, request).Ok?
  {
    FormatConsentDisplay(k, DecodeSignConsent(k, request).value)
  }

  /** A message is shown in full, on a line of its own and last. */
  lemma MessageIsOnScreen(k: Codec, message: string)
    ensures DecodeSignConsent(k, SignMessage(message)).Ok?
    ensures var lines := ScreenOf(k, SignMessage(message));
      |lines| > 0 && lines[|lines| - 1] == Line(message, Info)
  {
  }

  // ---- sign-in ----

  lemma {:induction false} OrderedFieldShown(fields: map<string, string>, order: seq<(string, string)>, j: nat)
    requires j < |order| && order[j].1 in fields
    ensures Line(order[j].0 + ": " + fields[order[j].1], Info) in SiweLines(fields, order)
  {
    if j > 0 { OrderedFieldShown(fields, order[1..], j - 1); }
  }

  /** The parameters of a sign-in that are shown; the version is the constant 1. */
  predicate IsShownField(key: string) {
    key in {"domain", "uri", "statement", "chainId", "nonce", "issuedAt", "expirationTime", "notBefore", "scheme", "requestId"}
  }

  lemma FieldPlace(key: string) returns (j: nat)
    requires IsShownField(key)
    ensures j < |SIWE_ORDER| && SIWE_ORDER[j].1 == key
  {
    j := if key == "domain" then 0 else if key == "uri" then 1 else if key == "statement" then 2
         else if key == "chainId" then 3 else if key == "nonce" then 4 else if key == "issuedAt" then 5
         else if key == "expirationTime" then 6 else if key == "notBefore" then 7 else if key == "scheme" then 8 else 9;
  }

  function ShownFields(fields: map<string, string>, resources: Option<seq<string>>): map<string, string> {
    if resources.Some? then fields["resources" := JoinLines(resources.value)] else fields
  }

  lemma SiweDecodes(k: Codec, fields: map<string, string>, resources: Option<seq<string>>)
    ensures DecodeSignConsent(k, SignSiwe(fields, resources)) == Ok(SiweConsent(ShownFields(fields, resources)))
  {
  }

  lemma SiweFormats(k: Codec, c: SignConsent)
    requires c.SiweConsent?
    ensures FormatConsentDisplay(k, c) == SiweScreen(c.fields)
  {
  }

  lemma SiweParts(k: Codec, fields: map<string, string>, resources: Option<seq<string>>)
    ensures DecodeSignConsent(k, SignSiwe(fields, resources)).Ok?
    ensures ScreenOf(k, SignSiwe(fields, resources)) == SiweScreen(ShownFields(fields, resources))
  {
    SiweDecodes(k, fields, resources);
    SiweFormats(k, SiweConsent(ShownFields(fields, resources)));
  }

  lemma NotResources(key: string)
    requires IsShownField(key)
    ensures key != "resources"
  {
    assert "resources"[2] == 's' && "statement"[2] == 'a' && "notBefore"[2] == 't' && "requestId"[2] == 'q';
  }

  /** Every parameter of a sign-in has a line that names it. */
  lemma SiweFieldIsOnScreen(k: Codec, fields: map<string, string>, resources: Option<seq<string>>, key: string)
    requires IsShownField(key) && key in fields
    ensures DecodeSignConsent(k, SignSiwe(fields, resources)).Ok?
    ensures exists line: Line :: line in ScreenOf(k, SignSiwe(fields, resources)) && Mentions(line.text, fields[key])
  {
    SiweParts(k, fields, resources);
    NotResources(key);
    var shown := ShownFields(fields, resources);
    var j := FieldPlace(key);
    OrderedFieldShown(shown, SIWE_ORDER, j);
    var line := Line(SIWE_ORDER[j].0 + ": " + shown[key], Info);
    MentionsAt(SIWE_ORDER[j].0 + ": ", shown[key], "");
    assert SIWE_ORDER[j].0 + ": " + shown[key] + "" == line.text;
    assert line in SiweScreen(shown);
  }

  // ---- resources, joined for the consent and split for the screen ----

  lemma {:induction false} SplitAtNewline(a: string, b: string, current: string)
    ensures SplitLines(a + "\n" + b, current) == SplitLines(a, current) + SplitLines(b, "")
  {
    var s := a + "\n" + b;
    if a == [] {
      assert s[0] == '\n' && s[1..] == b;
    } else {
      assert s[0] == a[0] && s[1..] == a[1..] + "\n" + b;
      if a[0] == '\n' {
        SplitAtNewline(a[1..], b, "");
        assert SplitLines(a, current) == [current] + SplitLines(a[1..], "");
      } else {
        SplitAtNewline(a[1..], b, current + [a[0]]);
      }
    }
  }

  lemma {:induction false} SplitWhole(r: string, current: string)
    requires '\n' !in r
    ensures SplitLines(r, current) == [current + r]
  {
    if r == [] {
      assert current + r == current;
    } else {
      SplitWhole(r[1..], current + [r[0]]);
      assert current + [r[0]] + r[1..] == current + r;
    }
  }

  lemma {:induction false} ResourceSplit(resources: seq<string>, r: string)
    requires r in resources && '\n' !in r
    ensures r in SplitLines(JoinLines(resources), "")
  {
    var rest := resources[1..];
    if rest != [] {
      var first := resources[0];
      SplitAtNewline(first, JoinLines(rest), "");
      assert JoinLines(resources) == first + "\n" + JoinLines(rest);
    }
    if r == resources[0] {
      SplitWhole(r, "");
      assert "" + r == r;
      assert SplitLines(r, "")[0] == r;
    } else {
      ResourceSplit(rest, r);
    }
  }

  lemma ResourceLineIn(before: seq<Line>, fields: map<string, string>, r: string)
    requires "resources" in fields && r in SplitLines(fields["resources"], "")
    ensures Line(r, Info) in before + ResourceLines(fields)
  {
    var parts := SplitLines(fields["resources"], "");
    var i :| 0 <= i < |parts| && parts[i] == r;
    assert ResourceLines(fields)[i + 1] == Line(r, Info);
  }

  /** Every resource of a sign-in that is one line of text has that line. */
  lemma ResourceIsOnScreen(k: Codec, fields: map<string, string>, resources: seq<string>, r: string)
    requires r in resources && '\n' !in r
    ensures DecodeSignConsent(k, SignSiwe(fields, Some(resources))).Ok?
    ensures Line(r, Info) in ScreenOf(k, SignSiwe(fields, Some(resources)))
  {
    SiweParts(k, fields, Some(resources));
    ResourceSplit(resources, r);
    var shown := ShownFields(fields, Some(resources));
    ResourceLineIn(SiweLines(shown, SIWE_ORDER), shown, r);
  }
}
