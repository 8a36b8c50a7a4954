/** Flattened JSON Web Signatures with Ed25519 account keys (section 7.2.2 of RFC 7515)
    and key thumbprints (section 3 of RFC 7638), over abstract cryptography and codecs. */
module Jws {
  import opened Wrappers

  type Octets = string

  datatype JWK = JWK(kty: string, crv: string, x: string)

  datatype ProtectedHeader = ProtectedHeader(
    alg: string, nonce: string, url: string, kid: string, jwk: Option<JWK>)

  datatype Envelope = Envelope(protected: string, payload: string, signature: string)

  /** The foreign functions: base64url without padding, SHA-256, Ed25519, and the JSON
      codecs of the two records. */
  datatype Primitives = Primitives(
    encode: Octets -> string,
    decode: string -> Option<Octets>,
    sha256: Octets -> Octets,
    publicOf: Octets -> Octets,
    sign: (Octets, Octets) -> Octets,
    check: (Octets, Octets, Octets) -> bool,
    isUtf8: string -> bool,
    marshalHeader: ProtectedHeader -> Octets,
    unmarshalHeader: Octets -> Option<ProtectedHeader>,
    marshalEnvelope: Envelope -> Octets,
    unmarshalEnvelope: Octets -> Option<Envelope>)
  {
    predicate Utf8Header(h: ProtectedHeader) {
      && isUtf8(h.alg) && isUtf8(h.nonce) && isUtf8(h.url) && isUtf8(h.kid)
      && (h.jwk.Some? ==> isUtf8(h.jwk.value.kty) && isUtf8(h.jwk.value.crv) && isUtf8(h.jwk.value.x))
    }

    /** The contracts of the codecs and of the signature scheme. A JSON text keeps a
        string only when it is valid UTF-8, which every base64url text is; a base64url
        text has no dot. */
    ghost predicate Lawful() {
      && (forall o: Octets :: decode(encode(o)) == Some(o) && isUtf8(encode(o)))
      && (forall t: string | decode(t).Some? :: '.' !in t)
      && (forall o: Octets :: encode(o) == "" <==> o == "")
      && (forall k: Octets :: |publicOf(k)| == 32)
      && (forall k: Octets, m: Octets :: check(publicOf(k), m, sign(k, m)))
      && (forall h: ProtectedHeader | Utf8Header(h) :: unmarshalHeader(marshalHeader(h)) == Some(h))
      && (forall e: Envelope | isUtf8(e.protected) && isUtf8(e.payload) && isUtf8(e.signature) ::
            unmarshalEnvelope(marshalEnvelope(e)) == Some(e))
      && isUtf8("") && isUtf8("EdDSA") && isUtf8("OKP") && isUtf8("Ed25519")
    }
  }

  // ----- keys -----

  function JWKFromEd25519(p: Primitives, pub: Octets): JWK {
    JWK("OKP", "Ed25519", p.encode(pub))
  }

  datatype JwsError =
    | InvalidEnvelope | InvalidHeader | UnsupportedAlg | UnsupportedKey | InvalidKey
    | UnknownAccount | NotExactlyOneKey | InvalidSignature | SignatureMismatch | InvalidPayload

  function Ed25519(p: Primitives, j: JWK): Result<Octets, JwsError> {
    if j.kty != "OKP" || j.crv != "Ed25519" then Err(UnsupportedKey)
    else
      match p.decode(j.x)
      case None => Err(InvalidKey)
      case Some(raw) => if |raw| == 32 then Ok(raw) else Err(InvalidKey)
  }

  function Thumbprint(p: Primitives, j: JWK): string {
    p.encode(p.sha256("{\"crv\":\"" + j.crv + "\",\"kty\":\"" + j.kty + "\",\"x\":\"" + j.x + "\"}"))
  }

  // ----- signing and verifying -----

  function SigningInput(protected: string, payload: string): Octets {
    protected + "." + payload
  }

  /** payload is None for a request without a body. */
  function Sign(p: Primitives, priv: Octets, h: ProtectedHeader, payload: Option<Octets>): Envelope {
    var p64 := p.encode(p.marshalHeader(h.(alg := "EdDSA")));
    var pl64 := if payload.Some? then p.encode(payload.value) else "";
    Envelope(p64, pl64, p.encode(p.sign(priv, SigningInput(p64, pl64))))
  }

  datatype Verified = Verified(header: ProtectedHeader, payload: Octets, jwk: Option<JWK>, thumbprint: string)

  /** The key that must have signed, and the account id it stands for. */
  function SignerOf(p: Primitives, h: ProtectedHeader, resolve: string -> Option<Octets>): Result<(Octets, string), JwsError> {
    if h.jwk.Some? && h.kid == "" then
      match Ed25519(p, h.jwk.value)
      case Err(e) => Err(e)
      case Ok(pub) => Ok((pub, Thumbprint(p, h.jwk.value)))
    else if h.kid != "" && h.jwk.None? then
      match resolve(h.kid)
      case None => Err(UnknownAccount)
      case Some(pub) => Ok((pub, h.kid))
    else
      Err(NotExactlyOneKey)
  }

  function Verify(p: Primitives, raw: Octets, resolve: string -> Option<Octets>): Result<Verified, JwsError> {
    match p.unmarshalEnvelope(raw)
    case None => Err(InvalidEnvelope)
    case Some(j) =>
      match p.decode(j.protected)
      case None => Err(InvalidHeader)
      case Some(hb) =>
        match p.unmarshalHeader(hb)
        case None => Err(InvalidHeader)
        case Some(h) =>
          if h.alg != "EdDSA" then Err(UnsupportedAlg)
          else
            match SignerOf(p, h, resolve)
            case Err(e) => Err(e)
            case Ok((pub, thumbprint)) =>
              match p.decode(j.signature)
              case None => Err(InvalidSignature)
              case Some(sig) =>
                if !p.check(pub, SigningInput(j.protected, j.payload), sig) then Err(SignatureMismatch)
                else if j.payload == "" then Ok(Verified(h, "", h.jwk, thumbprint))
                else
                  match p.decode(j.payload)
                  case None => Err(InvalidPayload)
                  case Some(payload) => Ok(Verified(h, payload, h.jwk, thumbprint))
  }

  /** The header that a raw body carries, if it can be read. */
  function HeaderOf(p: Primitives, raw: Octets): Option<ProtectedHeader> {
    match p.unmarshalEnvelope(raw)
    case None => None
    case Some(j) =>
      match p.decode(j.protected)
      case None => None
      case Some(hb) => p.unmarshalHeader(hb)
  }

  // ----- round trips -----

  /** A public key survives the passage through its JWK. */
  lemma KeyRoundTrip(p: Primitives, pub: Octets)
    requires p.Lawful() && |pub| == 32
    ensures Ed25519(p, JWKFromEd25519(p, pub)) == Ok(pub)
  {
    assert p.decode(p.encode(pub)) == Some(pub);
  }

  /** What reading a signed envelope under the signer's key gives back: the header with
      the algorithm filled in, the payload (a missing one reads as empty) and the id. */
  lemma SignVerifyRoundTrip(p: Primitives, priv: Octets, h: ProtectedHeader, payload: Option<Octets>,
                            resolve: string -> Option<Octets>, id: string)
    requires p.Lawful() && p.Utf8Header(h)
    requires
      || (h.kid == "" && h.jwk == Some(JWKFromEd25519(p, p.publicOf(priv))) && id == Thumbprint(p, h.jwk.value))
      || (h.kid != "" && h.jwk == None && resolve(h.kid) == Some(p.publicOf(priv)) && id == h.kid)
    ensures Verify(p, p.marshalEnvelope(Sign(p, priv, h, payload)), resolve) ==
            Ok(Verified(h.(alg := "EdDSA"), if payload.Some? then payload.value else "", h.jwk, id))
  {
    var h' := h.(alg := "EdDSA");
    var j := Sign(p, priv, h, payload);
    assert p.unmarshalHeader(p.marshalHeader(h')) == Some(h');
    assert p.decode(j.protected) == Some(p.marshalHeader(h'));
    assert p.unmarshalEnvelope(p.marshalEnvelope(j)) == Some(j);
    KeyRoundTrip(p, p.publicOf(priv));
    assert p.decode(j.signature) == Some(p.sign(priv, SigningInput(j.protected, j.payload)));
    if payload.Some? {
      assert p.decode(p.encode(payload.value)) == Some(payload.value);
    }
  }

  /** A request is refused unless its header names exactly one of an account id and
      a key. */
  lemma BothOrNeitherKeyIsRefused(p: Primitives, priv: Octets, h: ProtectedHeader, payload: Option<Octets>,
                                  resolve: string -> Option<Octets>)
    requires p.Lawful() && p.Utf8Header(h)
    requires h.kid == "" <==> h.jwk == None
    ensures Verify(p, p.marshalEnvelope(Sign(p, priv, h, payload)), resolve) == Err(NotExactlyOneKey)
  {
    var h' := h.(alg := "EdDSA");
    var j := Sign(p, priv, h, payload);
    assert p.unmarshalHeader(p.marshalHeader(h')) == Some(h');
    assert p.decode(j.protected) == Some(p.marshalHeader(h'));
    assert p.unmarshalEnvelope(p.marshalEnvelope(j)) == Some(j);
  }

  // ----- what acceptance means -----

  /** The key under which a header says it is signed: an embedded one must be an Ed25519 key
      of 32 octets. */
  function NamedKey(p: Primitives, h: ProtectedHeader, resolve: string -> Option<Octets>): Option<Octets> {
    if h.jwk.None? then resolve(h.kid)
    else if h.jwk.value.kty == "OKP" && h.jwk.value.crv == "Ed25519" && p.decode(h.jwk.value.x).Some? && |p.decode(h.jwk.value.x).value| == 32
    then p.decode(h.jwk.value.x)
    else None
  }

  /** A body is accepted as v exactly when it is an envelope whose header names the one
      algorithm and exactly one key, whose signature is that key's over header and payload, and
      v holds what it carries, with the account id or the thumbprint of the embedded key. */
  lemma AcceptedExactly(p: Primitives, raw: Octets, resolve: string -> Option<Octets>, v: Verified)
    ensures Verify(p, raw, resolve) == Ok(v) <==>
      && p.unmarshalEnvelope(raw).Some? && HeaderOf(p, raw) == Some(v.header)
      && v.header.alg == "EdDSA" && (v.header.kid == "" <==> v.header.jwk.Some?)
      && var j := p.unmarshalEnvelope(raw).value;
         var pub := NamedKey(p, v.header, resolve);
      && pub.Some? && p.decode(j.signature).Some?
      && p.check(pub.value, j.protected + "." + j.payload, p.decode(j.signature).value)
      && v.jwk == v.header.jwk
      && v.thumbprint == (if v.jwk.Some? then Thumbprint(p, v.jwk.value) else v.header.kid)
      && (if j.payload == "" then v.payload == "" else p.decode(j.payload) == Some(v.payload))
  {
  }

  lemma SameTextSameHash(p: Primitives, x: Octets, y: Octets)
    requires p.Lawful() && p.encode(p.sha256(x)) == p.encode(p.sha256(y))
    requires p.sha256(x) == p.sha256(y) ==> x == y
    ensures x == y
  {
    assert p.decode(p.encode(p.sha256(x))) == p.decode(p.encode(p.sha256(y)));
  }

  lemma SameMiddle(start: string, a: string, b: string, end: string)
    requires start + a + end == start + b + end
    ensures a == b
  {
    var x, y := start + a + end, start + b + end;
    assert x[|start|..|x| - |end|] == a && y[|start|..|y| - |end|] == b;
  }

  /** Different keys have different ids, as long as the hash does not collide. */
  lemma DifferentKeysDifferentIds(p: Primitives, a: Octets, b: Octets)
    requires p.Lawful() && forall x: Octets, y: Octets | p.sha256(x) == p.sha256(y) :: x == y
    ensures Thumbprint(p, JWKFromEd25519(p, a)) == Thumbprint(p, JWKFromEd25519(p, b)) <==> a == b
  {
    if Thumbprint(p, JWKFromEd25519(p, a)) == Thumbprint(p, JWKFromEd25519(p, b)) {
      var start := "{\"crv\":\"" + "Ed25519" + "\",\"kty\":\"" + "OKP" + "\",\"x\":\"";
      SameTextSameHash(p, start + p.encode(a) + "\"}", start + p.encode(b) + "\"}");
      SameMiddle(start, p.encode(a), p.encode(b), "\"}");
      assert p.decode(p.encode(a)) == p.decode(p.encode(b));
    }
  }

  /** A header and a payload that the holder of a key has signed. */
  datatype Signing = Signing(header: ProtectedHeader, payload: Option<Octets>)

  function SignedInput(p: Primitives, x: Signing): Octets {
    SigningInput(p.encode(p.marshalHeader(x.header.(alg := "EdDSA"))),
                 if x.payload.Some? then p.encode(x.payload.value) else "")
  }

  /** The signature that a raw body carries, if it can be read. */
  function SignatureOf(p: Primitives, raw: Octets): Option<Octets> {
    match p.unmarshalEnvelope(raw)
    case None => None
    case Some(j) => p.decode(j.signature)
  }

  /** The signature is no forgery: every input it checks for is one that the key holder
      signed. */
  ghost predicate Genuine(p: Primitives, pub: Octets, sig: Octets, signed: set<Signing>) {
    forall m: Octets | p.check(pub, m, sig) :: exists x :: x in signed && m == SignedInput(p, x)
  }

  lemma DotSplits(a: string, b: string, c: string, d: string)
    requires '.' !in a && '.' !in c
    requires a + "." + b == c + "." + d
    ensures a == c && b == d
  {
    var s := a + "." + b;
    assert forall i | 0 <= i < |a| :: s[i] == a[i];
    assert forall i | 0 <= i < |c| :: s[i] == c[i];
    assert s[|a|] == '.' && s[|c|] == '.';
    assert |a| == |c|;
    assert s[..|a|] == a && s[..|c|] == c && s[|a| + 1..] == b && s[|c| + 1..] == d;
  }

  /** An accepted body whose signature is no forgery carries exactly a header and a
      payload that the holder of the verifying key signed together. */
  lemma AcceptedWasSigned(p: Primitives, raw: Octets, resolve: string -> Option<Octets>,
                          pub: Octets, id: string, signed: set<Signing>)
    requires p.Lawful()
    requires forall x | x in signed :: p.Utf8Header(x.header)
    requires Verify(p, raw, resolve).Ok?
    requires SignerOf(p, Verify(p, raw, resolve).value.header, resolve) == Ok((pub, id))
    requires Genuine(p, pub, SignatureOf(p, raw).value, signed)
    ensures var v := Verify(p, raw, resolve).value;
      && v.thumbprint == id
      && exists x :: x in signed
          && v.header == x.header.(alg := "EdDSA")
          && v.payload == (if x.payload.Some? then x.payload.value else "")
  {
    var v := Verify(p, raw, resolve).value;
    var j := p.unmarshalEnvelope(raw).value;
    assert p.check(pub, SigningInput(j.protected, j.payload), SignatureOf(p, raw).value);
    var x :| x in signed && SigningInput(j.protected, j.payload) == SignedInput(p, x);
    var h := x.header.(alg := "EdDSA");
    var p64 := p.encode(p.marshalHeader(h));
    var pl64 := if x.payload.Some? then p.encode(x.payload.value) else "";
    assert p.decode(p64) == Some(p.marshalHeader(h));
    DotSplits(j.protected, j.payload, p64, pl64);
    assert p.unmarshalHeader(p.marshalHeader(h)) == Some(h);
    if x.payload.Some? {
      assert p.decode(p.encode(x.payload.value)) == Some(x.payload.value);
    }
  }
}
