/** The key funnel: derive, use, wipe (wallet/sandbox.ts, wallet/crypto/container.ts, wallet/crypto/derive-wallet.ts) and
    the guardian's approvals (vault/recover/approve.ts). Buffers are arrays on the heap; a caller's callback is the list
    of digests it signs and how it ends. */
module KeyFunnel {
  import opened Wrappers
  import opened Text

  newtype byte = b: int | 0 <= b < 256

  /** HKDF, secp256k1 and the hash of typed data; Err and None stand for a throw. `address` is that of a key's public
      key. */
  datatype Crypto = Crypto(
    derive: seq<byte> -> Result<seq<byte>>,
    address: seq<byte> -> Result<string>,
    sign: (string, seq<byte>) -> Option<string>,
    hash: RecoveryTypedData -> string,
    fromHex: string -> Result<seq<byte>>)

  function Zeros(n: nat): seq<byte> { seq(n, i => 0) }

  /** secp256k1 has no key zero. */
  ghost predicate ZeroKeyRefused(c: Crypto) {
    forall digest, n: nat :: c.sign(digest, Zeros(n)).None?
  }

  ghost predicate Wiped(a: array<byte>)
    reads a
  {
    a[..] == Zeros(a.Length)
  }

  method Fill(a: array<byte>)
    modifies a
    ensures Wiped(a)
    ensures forall b: array<byte> :: fresh(b) ==> Wiped(b)
  {
    for i := 0 to a.Length
      invariant forall j :: 0 <= j < i ==> a[j] == 0
      invariant forall b: array<byte> :: fresh(b) ==> Wiped(b)
    {
      a[i] := 0;
    }
  }

  method CopyOf(s: seq<byte>) returns (a: array<byte>)
    ensures fresh(a) && a[..] == s
    ensures forall b: array<byte> :: fresh(b) && b != a ==> Wiped(b)
  {
    a := new byte[|s|](i requires 0 <= i < |s| => s[i]);
  }

  // ---- the container ----

  /** Hands out the container's own buffer. */
  method ProduceEvmKey(key: array<byte>) returns (r: Result<array<byte>>)
    ensures r == if key.Length == 0 then Err("Secret container has no key") else Ok(key)
    ensures forall b: array<byte> :: fresh(b) ==> Wiped(b)
  {
    if key.Length == 0 { return Err("Secret container has no key"); }
    r := Ok(key);
  }

  /** Copies, so that wiping the source leaves the container intact. */
  method DeserializeContainer(bytes: array<byte>) returns (r: Result<array<byte>>)
    ensures r.Ok? <==> bytes.Length > 0
    ensures r.Ok? ==> fresh(r.value) && r.value != bytes && r.value[..] == bytes[..]
    ensures forall b: array<byte> :: fresh(b) ==> Wiped(b) || (r.Ok? && b == r.value)
  {
    if bytes.Length == 0 { return Err("Secret container has no key"); }
    var key := CopyOf(bytes[..]);
    r := Ok(key);
  }

  /** An account closes over the key buffer it was given. */
  class Account {
    const key: array<byte>
    const address: string

    constructor (key: array<byte>, address: string)
      ensures this.key == key && this.address == address
      ensures forall b: array<byte> :: fresh(b) ==> Wiped(b)
    {
      this.key, this.address := key, address;
    }

    method Sign(c: Crypto, digest: string) returns (r: Option<string>)
      ensures r == c.sign(digest, key[..])
      ensures forall b: array<byte> :: fresh(b) ==> Wiped(b)
    {
      r := c.sign(digest, key[..]);
    }
  }

  /** Once its buffer is wiped an account signs nothing. */
  lemma WipedIsInert(c: Crypto, account: Account, digest: string)
    requires ZeroKeyRefused(c) && Wiped(account.key)
    ensures c.sign(digest, account.key[..]).None?
  {
    assert c.sign(digest, Zeros(account.key.Length)).None?;
  }

  /** The key opens an account, at the expected address if one is given. */
  function AddressOf(c: Crypto, key: seq<byte>, expected: Option<string>): Result<string> {
    if key == [] then Err("Secret container has no key")
    else
      match c.address(key)
      case Err(e) => Err(e)
      case Ok(address) =>
        if expected.Some? && expected.value != "" && Lower(address) != Lower(expected.value)
        then Err("Derived key did not match the expected wallet address")
        else Ok(address)
  }

  method EvmAccountFrom(c: Crypto, key: array<byte>, expected: Option<string>) returns (r: Result<Account>)
    ensures r.Ok? <==> AddressOf(c, key[..], expected).Ok?
    ensures r.Ok? ==> fresh(r.value) && r.value.key == key && AddressOf(c, key[..], expected) == Ok(r.value.address)
    ensures r.Err? ==> AddressOf(c, key[..], expected) == Err(r.message)
    ensures forall b: array<byte> :: fresh(b) ==> Wiped(b)
  {
    var produced := ProduceEvmKey(key);
    if produced.Err? { return Err(produced.message); }
    var address := c.address(produced.value[..]);
    if address.Err? { return Err(address.message); }
    if expected.Some? && expected.value != "" && Lower(address.value) != Lower(expected.value) {
      return Err("Derived key did not match the expected wallet address");
    }
    var account := new Account(produced.value, address.value);
    r := Ok(account);
  }

  // ---- the callback ----

  datatype Callback = Callback(digests: seq<string>, outcome: Result<()>)

  /** The signatures under this key, one for each digest; a digest that cannot be signed throws. */
  function SignAll(c: Crypto, key: seq<byte>, digests: seq<string>): Result<seq<string>> {
    if digests == [] then Ok([])
    else
      match SignAll(c, key, digests[..|digests| - 1])
      case Err(e) => Err(e)
      case Ok(signatures) =>
        match c.sign(digests[|digests| - 1], key)
        case None => Err("cannot sign")
        case Some(s) => Ok(signatures + [s])
  }

  function Outcome(c: Crypto, key: seq<byte>, fn: Callback): Result<seq<string>> {
    match SignAll(c, key, fn.digests)
    case Err(e) => Err(e)
    case Ok(signatures) => match fn.outcome case Err(e) => Err(e) case Ok(_) => Ok(signatures)
  }

  method Call(c: Crypto, account: Account, fn: Callback) returns (r: Result<seq<string>>)
    ensures r == Outcome(c, account.key[..], fn)
    ensures forall b: array<byte> :: fresh(b) ==> Wiped(b)
  {
    var signatures: seq<string> := [];
    for i := 0 to |fn.digests|
      invariant SignAll(c, account.key[..], fn.digests[..i]) == Ok(signatures)
      invariant forall b: array<byte> :: fresh(b) ==> Wiped(b)
    {
      assert fn.digests[..i + 1][..i] == fn.digests[..i];
      var s := account.Sign(c, fn.digests[i]);
      if s.None? {
        SignAllFails(c, account.key[..], fn.digests, i);
        return Err("cannot sign");
      }
      signatures := signatures + [s.value];
    }
    assert fn.digests[..|fn.digests|] == fn.digests;
    r := match fn.outcome case Err(e) => Err(e) case Ok(_) => Ok(signatures);
  }

  lemma {:induction false} SignAllFails(c: Crypto, key: seq<byte>, digests: seq<string>, i: nat)
    requires i < |digests| && SignAll(c, key, digests[..i]).Ok? && c.sign(digests[i], key).None?
    ensures SignAll(c, key, digests) == Err("cannot sign")
    decreases |digests|
  {
    if i < |digests| - 1 {
      assert digests[..|digests| - 1][..i] == digests[..i];
      SignAllFails(c, key, digests[..|digests| - 1], i);
    }
  }

  // ---- the funnel ----

  /** What a gesture comes to, given the PRF output: derivation, address check, user handle, callback. */
  function Gesture(c: Crypto, prf: seq<byte>, expected: Option<string>, handle: Result<Option<string>>, fn: Callback): Result<seq<string>> {
    match c.derive(prf)
    case Err(e) => Err(e)
    case Ok(key) =>
      match AddressOf(c, key, expected)
      case Err(e) => Err(e)
      case Ok(_) => match handle case Err(e) => Err(e) case Ok(_) => Outcome(c, key, fn)
  }

  lemma {:induction false} SignAllExactly(c: Crypto, key: seq<byte>, digests: seq<string>)
    ensures SignAll(c, key, digests).Ok? <==> forall i :: 0 <= i < |digests| ==> c.sign(digests[i], key).Some?
    ensures SignAll(c, key, digests).Ok? ==>
      |SignAll(c, key, digests).value| == |digests|
      && forall i :: 0 <= i < |digests| ==> c.sign(digests[i], key) == Some(SignAll(c, key, digests).value[i])
  {
    if digests != [] { SignAllExactly(c, key, digests[..|digests| - 1]); }
  }

  /** The key derived opens an account, at the expected address (letter case apart) if one is given. */
  predicate Opens(c: Crypto, key: seq<byte>, expected: Option<string>) {
    && |key| > 0 && c.address(key).Ok?
    && (expected.None? || expected.value == "" || Lower(c.address(key).value) == Lower(expected.value))
  }

  /** A gesture succeeds exactly when K derives and opens the expected account, the handle decodes, and the callback ends
      well with every digest signed; what it returns is the signature of each digest under K, in order. */
  lemma GestureExactly(c: Crypto, prf: seq<byte>, expected: Option<string>, handle: Result<Option<string>>, fn: Callback)
    ensures Gesture(c, prf, expected, handle, fn).Ok? <==>
      && c.derive(prf).Ok? && Opens(c, c.derive(prf).value, expected) && handle.Ok? && fn.outcome.Ok?
      && forall i :: 0 <= i < |fn.digests| ==> c.sign(fn.digests[i], c.derive(prf).value).Some?
    ensures Gesture(c, prf, expected, handle, fn).Ok? ==>
      var signatures := Gesture(c, prf, expected, handle, fn).value;
      |signatures| == |fn.digests|
      && forall i :: 0 <= i < |fn.digests| ==> c.sign(fn.digests[i], c.derive(prf).value) == Some(signatures[i])
  {
    if c.derive(prf).Ok? { SignAllExactly(c, c.derive(prf).value, fn.digests); }
  }

  /** K is copied out of the buffer WebCrypto returned, which is wiped at once: K is the one buffer left. */
  method DeriveWalletKey(c: Crypto, prf: array<byte>) returns (r: Result<array<byte>>)
    ensures match c.derive(prf[..]) case Err(e) => r == Err(e) case Ok(k) => r.Ok? && r.value[..] == k
    ensures r.Ok? ==> fresh(r.value)
    ensures forall b: array<byte> :: fresh(b) ==> Wiped(b) || (r.Ok? && b == r.value)
  {
    var derived := c.derive(prf[..]);
    if derived.Err? { return Err(derived.message); }
    var bits := CopyOf(derived.value);
    var key := CopyOf(bits[..]);
    Fill(bits);
    return Ok(key);
  }

  method WipeSecrets(key: Option<array<byte>>, prf: array<byte>)
    modifies prf, if key.Some? then {key.value} else {}
    ensures Wiped(prf) && (key.Some? ==> Wiped(key.value))
    ensures forall b: array<byte> :: fresh(b) ==> Wiped(b)
  {
    if key.Some? { Fill(key.value); }
    Fill(prf);
  }

  /** The body of the try block. `key` is the container as the finally block finds it. */
  method UnderKey(c: Crypto, prf: array<byte>, expected: Option<string>, handle: Result<Option<string>>, fn: Callback)
    returns (r: Result<seq<string>>, escaped: Option<Account>, key: Option<array<byte>>)
    ensures r == Gesture(c, prf[..], expected, handle, fn)
    ensures key.Some? <==> c.derive(prf[..]).Ok?
    ensures key.Some? ==> fresh(key.value) && key.value[..] == c.derive(prf[..]).value
    ensures escaped.Some? <==> key.Some? && AddressOf(c, key.value[..], expected).Ok?
    ensures escaped.Some? ==> escaped.value.key == key.value && AddressOf(c, key.value[..], expected) == Ok(escaped.value.address)
    ensures forall b: array<byte> :: fresh(b) ==> Wiped(b) || (key.Some? && b == key.value)
  {
    escaped, key := None, None;
    var derived := DeriveWalletKey(c, prf);
    if derived.Err? { r := Err(derived.message); return; }
    key := Some(derived.value);
    var account := EvmAccountFrom(c, derived.value, expected);
    if account.Err? { r := Err(account.message); return; }
    escaped := Some(account.value);
    if handle.Err? { r := Err(handle.message); return; }
    r := Call(c, account.value, fn);
  }

  /** An account the callback kept holds a wiped buffer and signs nothing. */
  ghost predicate Inert(c: Crypto, escaped: Option<Account>)
    reads if escaped.Some? then {escaped.value.key} else {}
  {
    escaped.Some? ==>
      Wiped(escaped.value.key)
      && (ZeroKeyRefused(c) ==> forall digest :: c.sign(digest, escaped.value.key[..]).None?)
  }

  lemma WipedAccountIsInert(c: Crypto, escaped: Option<Account>)
    requires escaped.Some? ==> Wiped(escaped.value.key)
    ensures Inert(c, escaped)
  {
    if escaped.Some? && ZeroKeyRefused(c) {
      forall digest ensures c.sign(digest, escaped.value.key[..]).None? { WipedIsInert(c, escaped.value, digest); }
    }
  }

  /** A gesture on an existing wallet. However it ends, the PRF output and every buffer allocated on the way, K among
      them, are zero, and an account the callback kept can no longer sign. */
  method WithWalletKey(c: Crypto, authenticated: Result<array<byte>>, evmAddress: string, fn: Callback)
    returns (r: Result<seq<string>>, escaped: Option<Account>)
    modifies if authenticated.Ok? then {authenticated.value} else {}
    ensures authenticated.Err? ==> r == Err(authenticated.message)
    ensures authenticated.Ok? ==>
      r == Gesture(c, old(authenticated.value[..]), Some(evmAddress), Ok(None), fn) && Wiped(authenticated.value)
    ensures forall b: array<byte> :: fresh(b) ==> Wiped(b)
    ensures Inert(c, escaped)
  {
    escaped := None;
    if authenticated.Err? { r := Err(authenticated.message); return; }
    var key;
    r, escaped, key := UnderKey(c, authenticated.value, Some(evmAddress), Ok(None), fn);
    WipeSecrets(key, authenticated.value);
    WipedAccountIsInert(c, escaped);
  }

  /** What a discovered credential brings; `handle` names a wallet for a roster device, and can fail to decode. */
  datatype Discovery = Discovery(prf: array<byte>, handle: Result<Option<string>>)

  /** The wallet a gesture signs for is the handle's, or the key's own. */
  method WithDiscoveredKeys(c: Crypto, discovered: Result<Discovery>, fn: Callback)
    returns (r: Result<seq<string>>, walletAddress: Option<string>, escaped: Option<Account>)
    modifies if discovered.Ok? then {discovered.value.prf} else {}
    ensures discovered.Err? ==> r == Err(discovered.message)
    ensures discovered.Ok? ==>
      r == Gesture(c, old(discovered.value.prf[..]), None, discovered.value.handle, fn) && Wiped(discovered.value.prf)
    ensures r.Ok? ==> walletAddress.Some?
    ensures r.Ok? && discovered.value.handle.value.Some? ==> walletAddress == discovered.value.handle.value
    ensures r.Ok? && discovered.value.handle.value.None? ==>
      Ok(walletAddress.value) == c.address(c.derive(old(discovered.value.prf[..])).value)
    ensures forall b: array<byte> :: fresh(b) ==> Wiped(b)
    ensures Inert(c, escaped)
  {
    walletAddress, escaped := None, None;
    if discovered.Err? { r := Err(discovered.message); return; }
    var key;
    r, escaped, key := UnderKey(c, discovered.value.prf, None, discovered.value.handle, fn);
    if escaped.Some? && discovered.value.handle.Ok? {
      var handle := discovered.value.handle.value;
      walletAddress := Some(if handle.Some? then handle.value else escaped.value.address);
    }
    WipeSecrets(key, discovered.value.prf);
    WipedAccountIsInert(c, escaped);
  }

  method WithNewPasskeyKey(c: Crypto, created: Result<array<byte>>, fn: Callback)
    returns (r: Result<seq<string>>, escaped: Option<Account>)
    modifies if created.Ok? then {created.value} else {}
    ensures created.Err? ==> r == Err(created.message)
    ensures created.Ok? ==> r == Gesture(c, old(created.value[..]), None, Ok(None), fn) && Wiped(created.value)
    ensures forall b: array<byte> :: fresh(b) ==> Wiped(b)
    ensures Inert(c, escaped)
  {
    escaped := None;
    if created.Err? { r := Err(created.message); return; }
    var key;
    r, escaped, key := UnderKey(c, created.value, None, Ok(None), fn);
    WipeSecrets(key, created.value);
    WipedAccountIsInert(c, escaped);
  }

  // ---- guardians ----

  datatype RecoveryTypedData = RecoveryTypedData(wallet: string, chainId: int, promoteKey: string, nonce: nat)

  datatype GuardianApproval = GuardianApproval(guardian: string, promoteKey: string, nonce: nat, signature: string)

  /** A connected guardian signs the typed data with its own wallet. */
  method ApproveAsConnectedGuardian(guardian: string, td: RecoveryTypedData, signTypedData: RecoveryTypedData -> Result<string>)
    returns (r: Result<GuardianApproval>)
    ensures r == ConnectedApproval(guardian, td, signTypedData(td))
    ensures forall b: array<byte> :: fresh(b) ==> Wiped(b)
  {
    var signature := signTypedData(td);
    if signature.Err? { return Err(signature.message); }
    r := Ok(GuardianApproval(guardian, td.promoteKey, td.nonce, signature.value));
  }

  /** An imported guardian key's approval, as a function of the key. */
  function ImportedApproval(c: Crypto, key: seq<byte>, td: RecoveryTypedData): Result<GuardianApproval> {
    match c.address(key)
    case Err(e) => Err(e)
    case Ok(guardian) =>
      match c.sign(c.hash(td), key)
      case None => Err("cannot sign")
      case Some(s) => Ok(GuardianApproval(guardian, td.promoteKey, td.nonce, s))
  }

  /** However the approval ends, every buffer allocated on the way, the imported key's bytes among them, is zero. */
  method ApproveWithImportedKey(c: Crypto, privateKey: string, td: RecoveryTypedData) returns (r: Result<GuardianApproval>)
    ensures match c.fromHex(privateKey) case Err(e) => r == Err(e) case Ok(key) => r == ImportedApproval(c, key, td)
    ensures forall b: array<byte> :: fresh(b) ==> Wiped(b)
  {
    var bytes := c.fromHex(privateKey);
    if bytes.Err? { return Err(bytes.message); }
    var keyBytes := CopyOf(bytes.value);
    r := ImportedBody(c, keyBytes, td);
    Fill(keyBytes);
  }

  method ImportedBody(c: Crypto, keyBytes: array<byte>, td: RecoveryTypedData) returns (r: Result<GuardianApproval>)
    ensures r == ImportedApproval(c, keyBytes[..], td)
    ensures forall b: array<byte> :: fresh(b) ==> Wiped(b)
  {
    var guardian := c.address(keyBytes[..]);
    if guardian.Err? { return Err(guardian.message); }
    var signature := c.sign(c.hash(td), keyBytes[..]);
    if signature.None? { return Err("cannot sign"); }
    r := Ok(GuardianApproval(guardian.value, td.promoteKey, td.nonce, signature.value));
  }

  /** What a wallet holding this key answers to a typed-data request. */
  function WalletSigns(c: Crypto, key: seq<byte>, td: RecoveryTypedData): Result<string> {
    match c.sign(c.hash(td), key) case None => Err("cannot sign") case Some(s) => Ok(s)
  }

  function ConnectedApproval(guardian: string, td: RecoveryTypedData, answer: Result<string>): Result<GuardianApproval> {
    match answer
    case Err(e) => Err(e)
    case Ok(s) => Ok(GuardianApproval(guardian, td.promoteKey, td.nonce, s))
  }

  /** An approval is over the typed data it was asked for: its own promote key and nonce, signed by the guardian's key. */
  lemma ApprovalIs(c: Crypto, key: seq<byte>, td: RecoveryTypedData)
    ensures ImportedApproval(c, key, td).Ok? <==> c.address(key).Ok? && c.sign(c.hash(td), key).Some?
    ensures ImportedApproval(c, key, td).Ok? ==>
      var a := ImportedApproval(c, key, td).value;
      && Ok(a.guardian) == c.address(key) && a.promoteKey == td.promoteKey && a.nonce == td.nonce
      && Some(a.signature) == c.sign(c.hash(td), key)
  {
  }

  /** Both branches produce the same envelope: the same guardian key gives the same approval, connected or imported. */
  lemma SameEnvelope(c: Crypto, key: seq<byte>, td: RecoveryTypedData)
    requires c.address(key).Ok?
    ensures ConnectedApproval(c.address(key).value, td, WalletSigns(c, key, td)) == ImportedApproval(c, key, td)
  {
  }
}
