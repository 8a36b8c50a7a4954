/** Where requests are delivered: what is admitted was signed for the url it came to, and what
    a client is told whose request is refused. */
module Deliveries {
  import opened Wrappers
  import opened Records
  import opened KeyedLists
  import R = Registries
  import opened Services
  import opened Jws
  import Nonces
  import opened Api
  import opened ApiRuns

  // ----- one request -----

  /** The body carries a readable header that names this url. */
  ghost predicate SignedFor(p: Primitives, body: Octets, url: string) {
    HeaderOf(p, body).Some? && HeaderOf(p, body).value.url == url
  }

  /** A request that is admitted, or consumes a nonce, is one for the url it came to. */
  lemma AdmittedForItsUrl(p: Primitives, reg: Registry, t: Nonces.Table, body: Option<Octets>, url: string, read: bool, at: int)
    ensures var (t', r) := Admitted(p, reg, t, body, url, read, at);
      r.Ok? || t' != t ==> body.Some? && SignedFor(p, body.value, url)
  {
  }

  /** The server can look up the key under which the client signs. */
  predicate KnownSigner(p: Primitives, reg: Registry, priv: Octets, embed: bool, read: bool) {
    var id := Thumbprint(p, JWKFromEd25519(p, p.publicOf(priv)));
    var acc := Find(reg.accounts, R.AccountKey, id);
    embed || (read && acc.Some? && acc.value.publicKey == p.encode(p.publicOf(priv)))
  }

  /** What the reader of a client's request finds in it. */
  lemma ClientRequestIsRead(p: Primitives, reg: Registry, priv: Octets, nonce: string, url: string, embed: bool,
                            payload: Option<Octets>, read: bool)
    requires p.Lawful() && p.isUtf8(nonce) && p.isUtf8(url)
    requires Thumbprint(p, JWKFromEd25519(p, p.publicOf(priv))) != "" && KnownSigner(p, reg, priv, embed, read)
    ensures var v := Verify(p, ClientRequest(p, priv, nonce, url, embed, payload), ResolveKey(p, reg, read));
      v.Ok? && v.value.header.url == url && v.value.header.nonce == nonce
  {
    var jwk := JWKFromEd25519(p, p.publicOf(priv));
    var id := Thumbprint(p, jwk);
    var h := ProtectedHeader("", nonce, url, if embed then "" else id, if embed then Some(jwk) else None);
    assert p.isUtf8(p.encode(p.publicOf(priv)));
    if !embed {
      KeyRoundTrip(p, p.publicOf(priv));
      assert ResolveKey(p, reg, read)(id) == Some(p.publicOf(priv));
    }
    SignVerifyRoundTrip(p, priv, h, payload, ResolveKey(p, reg, read), id);
  }

  /** A well-signed request for another url is answered 400 and consumes nothing; one whose
      nonce is not outstanding any more is answered 400 and leaves the registry as it was. */
  lemma MisdirectedOrStaleIsRefused(p: Primitives, pay: Payloads, reg: Registry, t: Nonces.Table, endpoint: Endpoint,
                                    priv: Octets, nonce: string, signedUrl: string, embed: bool, payload: Option<Octets>,
                                    url: string, env: RequestEnv)
    requires p.Lawful() && p.isUtf8(nonce) && p.isUtf8(signedUrl)
    requires Thumbprint(p, JWKFromEd25519(p, p.publicOf(priv))) != "" && KnownSigner(p, reg, priv, embed, env.kidRead)
    ensures var answer := Answered(p, pay, reg, t, endpoint, Some(ClientRequest(p, priv, nonce, signedUrl, embed, payload)), url, env);
      && (signedUrl != url ==> answer == (reg, t, Problem(400)))
      && (signedUrl == url && !(nonce in t && env.useAt < t[nonce]) ==> answer == (reg, t - {nonce}, Problem(400)))
  {
    ClientRequestIsRead(p, reg, priv, nonce, signedUrl, embed, payload, env.kidRead);
  }

  /** A request by an account id that is not registered, or cannot be looked up, is answered
      401, one that cannot be read 400, and neither changes anything. */
  lemma UnknownAccountIsRefused(p: Primitives, pay: Payloads, reg: Registry, t: Nonces.Table, endpoint: Endpoint,
                                priv: Octets, nonce: string, signedUrl: string, payload: Option<Octets>, url: string, env: RequestEnv)
    requires p.Lawful() && p.isUtf8(nonce) && p.isUtf8(signedUrl)
    requires var id := Thumbprint(p, JWKFromEd25519(p, p.publicOf(priv)));
      id != "" && (env.kidRead ==> Find(reg.accounts, R.AccountKey, id).None?)
    ensures Answered(p, pay, reg, t, endpoint, Some(ClientRequest(p, priv, nonce, signedUrl, false, payload)), url, env)
            == (reg, t, Problem(401))
    ensures Answered(p, pay, reg, t, endpoint, None, url, env) == (reg, t, Problem(400))
  {
    var id := Thumbprint(p, JWKFromEd25519(p, p.publicOf(priv)));
    var h := ProtectedHeader("EdDSA", nonce, signedUrl, id, None);
    var j := Sign(p, priv, h, payload);
    assert j == Sign(p, priv, h.(alg := ""), payload);
    assert p.Utf8Header(h) by {
      assert p.isUtf8(p.encode(p.sha256("")));
    }
    assert p.unmarshalHeader(p.marshalHeader(h)) == Some(h);
    assert p.decode(j.protected) == Some(p.marshalHeader(h));
    assert p.unmarshalEnvelope(p.marshalEnvelope(j)) == Some(j);
    assert ResolveKey(p, reg, env.kidRead)(id) == None;
  }

  // ----- runs -----

  /** One of these arrivals brought the body to its endpoint, at the url it is signed for. */
  ghost predicate Delivered(p: Primitives, past: seq<Action>, endpoint: Endpoint, body: Octets) {
    exists i :: 0 <= i < |past| && past[i].Arrive? && past[i].endpoint == endpoint && past[i].body == Some(body)
      && SignedFor(p, body, past[i].url)
  }

  ghost predicate Arrived(past: seq<Action>, endpoint: Endpoint, raw: Option<Octets>, url: string) {
    exists i :: 0 <= i < |past| && past[i].Arrive? && past[i].endpoint == endpoint && past[i].body == raw && past[i].url == url
  }

  ghost predicate StageDelivered(p: Primitives, past: seq<Action>, x: Stage) {
    && (x.Received? ==> Arrived(past, x.endpoint, x.raw, x.url))
    && (x.Checked? ==> Delivered(p, past, x.endpoint, x.body))
  }

  ghost predicate AllDelivered(p: Primitives, past: seq<Action>, s: State) {
    && (forall r | r in s.requests :: StageDelivered(p, past, s.requests[r]))
    && (forall body | body in s.books.accepted :: exists endpoint :: Delivered(p, past, endpoint, body))
  }

  lemma LaterStays(p: Primitives, past: seq<Action>, a: Action, x: Stage)
    requires StageDelivered(p, past, x)
    ensures StageDelivered(p, past + [a], x)
  {
    if x.Received? {
      var i :| 0 <= i < |past| && past[i].Arrive? && past[i].endpoint == x.endpoint && past[i].body == x.raw && past[i].url == x.url;
      assert (past + [a])[i] == past[i];
    }
    if x.Checked? {
      DeliveredStays(p, past, a, x.endpoint, x.body);
    }
  }

  lemma DeliveredStays(p: Primitives, past: seq<Action>, a: Action, endpoint: Endpoint, body: Octets)
    requires Delivered(p, past, endpoint, body)
    ensures Delivered(p, past + [a], endpoint, body)
  {
    var i :| 0 <= i < |past| && past[i].Arrive? && past[i].endpoint == endpoint && past[i].body == Some(body)
             && SignedFor(p, body, past[i].url);
    assert (past + [a])[i] == past[i];
  }

  lemma CheckDelivers(c: Setup, past: seq<Action>, s: State, r: nat, read: bool)
    requires Enabled(s, Check(r, read)) && StageDelivered(c.p, past, s.requests[r])
    ensures StageDelivered(c.p, past, Next(c, s, Check(r, read)).requests[r])
  {
    var x := s.requests[r];
    if CheckedRequest(c.p, s.core.reg, x.raw, x.url, read).Ok? {
      var i :| 0 <= i < |past| && past[i].Arrive? && past[i].endpoint == x.endpoint && past[i].body == x.raw && past[i].url == x.url;
      assert SignedFor(c.p, x.raw.value, past[i].url);
    }
  }

  lemma StepDelivers(c: Setup, past: seq<Action>, s: State, a: Action, q: nat)
    requires AllDelivered(c.p, past, s) && Enabled(s, a) && q in Next(c, s, a).requests
    ensures StageDelivered(c.p, past + [a], Next(c, s, a).requests[q])
  {
    OnlyOneRequestMoves(c, s, a, q);
    if q in s.requests && Next(c, s, a).requests[q] == s.requests[q] {
      LaterStays(c.p, past, a, s.requests[q]);
    } else {
      match a
      case Arrive(r, endpoint, body, url) => assert (past + [a])[|past|] == a;
      case Check(r, read) =>
        CheckDelivers(c, past, s, r, read);
        LaterStays(c.p, past, a, Next(c, s, a).requests[r]);
      case _ =>
    }
  }

  lemma StepAccepts(c: Setup, past: seq<Action>, s: State, a: Action)
    requires AllDelivered(c.p, past, s) && Enabled(s, a)
    ensures forall body | body in Next(c, s, a).books.accepted :: exists endpoint :: Delivered(c.p, past + [a], endpoint, body)
  {
    forall body | body in Next(c, s, a).books.accepted ensures exists endpoint :: Delivered(c.p, past + [a], endpoint, body) {
      if body in s.books.accepted {
        var endpoint :| Delivered(c.p, past, endpoint, body);
        DeliveredStays(c.p, past, a, endpoint, body);
      } else {
        var x := s.requests[a.r];
        assert a.UseNonce? && StageDelivered(c.p, past, x);
        DeliveredStays(c.p, past, a, x.endpoint, x.body);
      }
    }
  }

  lemma {:induction false} RunDelivers(c: Setup, past: seq<Action>, s: State, acts: seq<Action>)
    requires AllDelivered(c.p, past, s) && EnabledRun(c, s, acts)
    ensures AllDelivered(c.p, past + acts, Run(c, s, acts))
    decreases |acts|
  {
    if acts == [] {
      assert past + acts == past;
    } else {
      var s' := Next(c, s, acts[0]);
      forall q | q in s'.requests ensures StageDelivered(c.p, past + [acts[0]], s'.requests[q]) {
        StepDelivers(c, past, s, acts[0], q);
      }
      StepAccepts(c, past, s, acts[0]);
      RunDelivers(c, past + [acts[0]], s', acts[1..]);
      assert past + [acts[0]] + acts[1..] == past + acts;
    }
  }

  /** Along every run of the concurrent server, each body it has accepted arrived before, at
      an endpoint whose url is the one the body is signed for; and a request that waits for
      its nonce check will be handled by the endpoint it arrived at. */
  lemma AcceptedWhereItArrived(c: Setup, acts: seq<Action>)
    requires EnabledRun(c, INITIAL, acts)
    ensures var s := Run(c, INITIAL, acts);
      && (forall body | body in s.books.accepted :: exists endpoint :: Delivered(c.p, acts, endpoint, body))
      && (forall r | r in s.requests && s.requests[r].Checked? :: Delivered(c.p, acts, s.requests[r].endpoint, s.requests[r].body))
  {
    RunDelivers(c, [], INITIAL, acts);
    assert [] + acts == acts;
  }
}
