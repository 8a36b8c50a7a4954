/** Runs of the server, which handles requests concurrently: each request is a series of
    steps (its signature and url are checked, its nonce is consumed, its handler makes one
    store access after the other, its answer draws a fresh nonce), and the steps of any
    number of requests are interleaved with each other and with everything else. */
module ApiRuns {
  import opened Wrappers
  import opened Records
  import opened KeyedLists
  import R = Registries
  import opened Services
  import opened Jws
  import Nonces
  import C = ConcurrentOrders
  import opened Api

  datatype Setup = Setup(p: Primitives, pay: Payloads, ttl: int)

  // ----- one request, step by step -----

  /** What an order has done so far; the order of its current product is in the core. */
  datatype Tallied = Tallied(issued: seq<Subscription>, pending: seq<string>, problems: map<string, ServiceError>)

  datatype Job =
    | Registering(account: AccountRequest)
    | Storing(acc: Account)
    | Ordering(order: OrderRequest, done: nat, tallied: Tallied)
    | Listing
    | Finding(key: string)
    | Revoking(key: string)

  datatype Stage =
    | Received(endpoint: Endpoint, raw: Option<Octets>, url: string)
    | Checked(endpoint: Endpoint, body: Octets, v: Verified)
    | Handling(body: Octets, v: Verified, job: Job)
    | Replying(reply: Reply)
    | Replied(reply: Reply)

  /** A nonce drawn for an answer (None when the random source fails), and the two clock
      readings of its issuance. */
  datatype Draw = Draw(nonce: Option<string>, collectAt: int, issueAt: int)

  /** The outstanding nonces, and the histories of nonces issued, of bodies accepted, and of
      the nonces they were accepted with. */
  datatype Books = Books(
    table: Nonces.Table, issued: multiset<string>, accepted: multiset<Octets>, acceptedNonces: multiset<string>)

  /** core holds the registry and the order that each request is running, if any. */
  datatype State = State(core: C.State, books: Books, requests: map<nat, Stage>)

  datatype Action =
    | Arrive(r: nat, endpoint: Endpoint, body: Option<Octets>, url: string)
    | Check(r: nat, read: bool)
    | UseNonce(r: nat, at: int)
    | Look(r: nat, read: bool, autoApprove: bool, now: Moment)
    | Store(r: nat, write: bool)
    | Order(r: nat, access: C.Access)
    | Answer(r: nat, draw: Draw)
    | GetNonce(draw: Draw)
    | Internal(m: R.Mutation)
    | Restart

  /** The first stage of the handler of an admitted request. */
  function Started(pay: Payloads, endpoint: Endpoint, body: Octets, v: Verified): Stage {
    match endpoint
    case NewAccount =>
      if v.jwk.None? then Replying(Problem(400)) else Handling(body, v, Registering(pay.account(v.payload)))
    case NewOrder =>
      (match pay.order(v.payload)
       case None => Replying(Problem(400))
       case Some(req) =>
         if req.serverId == "" || req.products == [] then Replying(Problem(400))
         else Handling(body, v, Ordering(req, 0, Tallied([], [], map[]))))
    case Subscriptions => Handling(body, v, Listing)
    case RevokeKey =>
      (match pay.revoke(v.payload)
       case None => Replying(Problem(400))
       case Some(key) => if key == "" then Replying(Problem(400)) else Handling(body, v, Finding(key)))
  }

  /** The stage after a load of the registry. */
  function Looked(reg: Registry, body: Octets, v: Verified, job: Job, read: bool, autoApprove: bool, now: Moment): Stage
    requires job.Registering? || job.Listing? || job.Finding?
    requires job.Registering? ==> v.jwk.Some?
  {
    match job
    case Registering(req) =>
      if v.thumbprint == "" || v.jwk.value.x == "" then Replying(Problem(400))
      else
        var seen := AccountSeen(reg, v.thumbprint, read);
        Handling(body, v, Storing(AccountToStore(seen, v.thumbprint, v.jwk.value.x, req.serverId, req.contact, autoApprove, now)))
    case Listing =>
      Replying(if read then ListReply(OwnSubscriptions(reg.licenses, v.thumbprint)) else Problem(500))
    case Finding(key) =>
      if !read then Replying(Problem(500))
      else
        var found := Find(reg.licenses, R.LicenseKey, key);
        if found.None? || found.value.account != v.thumbprint then Replying(Problem(403))
        else Handling(body, v, Revoking(key))
  }

  /** The one transaction of a registration or a revocation. */
  function Committed(job: Job): R.Mutation
    requires job.Storing? || job.Revoking?
  {
    if job.Storing? then R.UpsertAccount(job.acc) else R.SetLicenseStatus(job.key, Revoked)
  }

  function Stored(job: Job, write: bool): Stage
    requires job.Storing? || job.Revoking?
  {
    match job
    case Storing(acc) => Replying(if write then AccountReply(acc.thumbprint, acc.serverId, acc.status) else Problem(400))
    case Revoking(key) => Replying(if write then RevokeReply(key) else Problem(500))
  }

  /** The tally of an order with the outcome of one more product. */
  function TalliedWith(d: Tallied, product: string, result: Result<License, ServiceError>): Tallied {
    match result
    case Ok(l) => d.(issued := d.issued + [SubscriptionOf(l)])
    case Err(e) =>
      if e == AccountNotApproved then d.(pending := d.pending + [product]) else d.(problems := d.problems[product := e])
  }

  function Reported(reg: Registry, req: OrderRequest, d: Tallied): Reply {
    var p := Progress(reg, d.issued, d.pending, d.problems);
    OrderReply(req.serverId, ValidOrder(p), d.issued, d.pending, d.problems)
  }

  /** The core and the stage after one more access of an order: when it ended a product, the
      next one is called, or the order is answered. */
  function OrderStep(core: C.State, r: nat, body: Octets, v: Verified, job: Job, access: C.Access): (C.State, Stage)
    requires job.Ordering? && job.done < |job.order.products| && C.Enabled(core, C.Advance(r, access))
  {
    var core' := C.Next(core, C.Advance(r, access));
    var phase := core'.orders[r].phase;
    if !phase.Ended? then (core', Handling(body, v, job))
    else
      var d := TalliedWith(job.tallied, job.order.products[job.done], phase.result);
      if job.done + 1 == |job.order.products| then (core', Replying(Reported(core'.reg, job.order, d)))
      else
        (C.Next(core', C.Call(r, OrderFor(v.thumbprint, job.order, job.order.products[job.done + 1]))),
         Handling(body, v, Ordering(job.order, job.done + 1, d)))
  }

  predicate Enabled(s: State, a: Action) {
    match a
    case Arrive(r, _, _, _) => r !in s.requests && r !in s.core.orders
    case Check(r, _) => r in s.requests && s.requests[r].Received?
    case UseNonce(r, _) => r in s.requests && s.requests[r].Checked? && r !in s.core.orders
    case Look(r, _, _, _) =>
      && r in s.requests && s.requests[r].Handling?
      && var job := s.requests[r].job;
         (job.Registering? && s.requests[r].v.jwk.Some?) || job.Listing? || job.Finding?
    case Store(r, _) => r in s.requests && s.requests[r].Handling? && (s.requests[r].job.Storing? || s.requests[r].job.Revoking?)
    case Order(r, access) =>
      && r in s.requests && s.requests[r].Handling? && s.requests[r].job.Ordering?
      && s.requests[r].job.done < |s.requests[r].job.order.products|
      && C.Enabled(s.core, C.Advance(r, access))
    case Answer(r, draw) => r in s.requests && s.requests[r].Replying? && draw.collectAt <= draw.issueAt
    case GetNonce(draw) => draw.collectAt <= draw.issueAt
    case Internal(m) => C.OtherTransaction(m) && !m.UpsertAccount?
    case Restart => true
  }

  function FreshNonces(draw: Draw): multiset<string> {
    if draw.nonce.Some? then multiset{draw.nonce.value} else multiset{}
  }

  function Drawn(t: Nonces.Table, draw: Draw, ttl: int): Nonces.Table {
    if draw.nonce.Some? then Nonces.Issued(t, draw.nonce.value, draw.collectAt, draw.issueAt, ttl) else t
  }

  function Replenished(b: Books, draw: Draw, ttl: int): Books {
    b.(table := Drawn(b.table, draw, ttl), issued := b.issued + FreshNonces(draw))
  }

  /** The books after the nonce check of a request. */
  function NonceUsed(b: Books, body: Octets, v: Verified, at: int): Books {
    var (t, verdict) := NonceChecked(b.table, v, at);
    if verdict.Ok? then
      Books(t, b.issued, b.accepted + multiset{body}, b.acceptedNonces + multiset{v.header.nonce})
    else b.(table := t)
  }

  function At(s: State, r: nat, stage: Stage): State {
    s.(requests := s.requests[r := stage])
  }

  /** The core once a handler has started: an order calls its first product. */
  function CoreStarted(core: C.State, r: nat, stage: Stage): C.State
    requires r !in core.orders
  {
    if stage.Handling? && stage.job.Ordering? && stage.job.order.products != [] then
      C.Next(core, C.Call(r, OrderFor(stage.v.thumbprint, stage.job.order, stage.job.order.products[0])))
    else core
  }

  function Next(c: Setup, s: State, a: Action): State
    requires Enabled(s, a)
  {
    match a
    case Arrive(r, endpoint, body, url) => At(s, r, Received(endpoint, body, url))
    case Check(r, read) =>
      var x := s.requests[r];
      (match CheckedRequest(c.p, s.core.reg, x.raw, x.url, read)
       case Err(e) => At(s, r, Replying(Problem(RefusalCode(e))))
       case Ok(v) => At(s, r, Checked(x.endpoint, x.raw.value, v)))
    case UseNonce(r, at) =>
      var x := s.requests[r];
      var s1 := s.(books := NonceUsed(s.books, x.body, x.v, at));
      if Nonces.Valid(s.books.table, x.v.header.nonce, at) then
        var stage := Started(c.pay, x.endpoint, x.body, x.v);
        At(s1, r, stage).(core := CoreStarted(s.core, r, stage))
      else At(s1, r, Replying(Problem(RefusalCode(BadNonce))))
    case Look(r, read, auto, now) =>
      var x := s.requests[r];
      At(s, r, Looked(s.core.reg, x.body, x.v, x.job, read, auto, now))
    case Store(r, write) =>
      var x := s.requests[r];
      At(s, r, Stored(x.job, write)).(
        core := if write then s.core.(reg := R.Apply(s.core.reg, Committed(x.job))) else s.core)
    case Order(r, access) =>
      var x := s.requests[r];
      var (core, stage) := OrderStep(s.core, r, x.body, x.v, x.job, access);
      At(s, r, stage).(core := core)
    case Answer(r, draw) =>
      At(s, r, Replied(s.requests[r].reply)).(books := Replenished(s.books, draw, c.ttl))
    case GetNonce(draw) => s.(books := Replenished(s.books, draw, c.ttl))
    case Internal(m) => s.(core := C.Next(s.core, C.Other(m)))
    case Restart => State(C.State(s.core.reg, map[], {}), s.books.(table := map[]), map[])
  }

  const INITIAL := State(C.State(EMPTY_REGISTRY, map[], {}), Books(map[], multiset{}, multiset{}, multiset{}), map[])

  // ----- runs -----

  ghost predicate EnabledRun(c: Setup, s: State, acts: seq<Action>)
    decreases |acts|
  {
    acts != [] ==> Enabled(s, acts[0]) && EnabledRun(c, Next(c, s, acts[0]), acts[1..])
  }

  ghost function Run(c: Setup, s: State, acts: seq<Action>): State
    requires EnabledRun(c, s, acts)
    decreases |acts|
  {
    if acts == [] then s else Run(c, Next(c, s, acts[0]), acts[1..])
  }

  // ----- no request is stuck -----

  /** A request that is ordering, and no other, has an unended order in the core, of its
      current product; one that is not yet handled has none. */
  ghost predicate Linked(s: State, r: nat)
    requires r in s.requests
  {
    var x := s.requests[r];
    && (x.Received? || x.Checked? ==> r !in s.core.orders)
    && (x.Handling? && x.job.Registering? ==> x.v.jwk.Some?)
    && (x.Handling? && x.job.Ordering? ==>
          && x.job.done < |x.job.order.products|
          && r in s.core.orders && !s.core.orders[r].phase.Ended?
          && s.core.orders[r].input == OrderFor(x.v.thumbprint, x.job.order, x.job.order.products[x.job.done]))
    && (r in s.core.orders && !s.core.orders[r].phase.Ended? ==> x.Handling? && x.job.Ordering?)
  }

  ghost predicate AllLinked(s: State) {
    && (forall r | r in s.requests :: Linked(s, r))
    && s.core.orders.Keys <= s.requests.Keys
  }

  lemma OrderMovesOwn(c: Setup, s: State, a: Action, q: nat)
    requires Enabled(s, a) && (a.Order? || a.UseNonce?) && q != a.r
    ensures q in Next(c, s, a).core.orders <==> q in s.core.orders
    ensures q in s.core.orders ==> Next(c, s, a).core.orders[q] == s.core.orders[q]
    ensures Next(c, s, a).core.orders.Keys <= s.core.orders.Keys + {a.r}
  {
  }

  lemma OwnStaysLinked(c: Setup, s: State, a: Action)
    requires AllLinked(s) && Enabled(s, a) && (a.Order? || a.UseNonce?)
    ensures Linked(Next(c, s, a), a.r)
  {
    assert Linked(s, a.r);
  }

  lemma StepKeepsLinks(c: Setup, s: State, a: Action)
    requires AllLinked(s) && Enabled(s, a)
    ensures AllLinked(Next(c, s, a))
  {
    var s' := Next(c, s, a);
    forall q | q in s'.requests ensures Linked(s', q) {
      OnlyOneRequestMoves(c, s, a, q);
      assert q in s.requests ==> Linked(s, q);
      if (a.Order? || a.UseNonce?) && q == a.r {
        OwnStaysLinked(c, s, a);
      } else if a.Order? || a.UseNonce? {
        OrderMovesOwn(c, s, a, q);
      }
    }
    if a.Order? || a.UseNonce? {
      OrderMovesOwn(c, s, a, a.r + 1);
    }
  }

  /** The next step of a request, given its surroundings. */
  function NextStep(s: State, r: nat, env: RequestEnv): Action
    requires r in s.requests && !s.requests[r].Replied?
    requires s.requests[r].Handling? && s.requests[r].job.Ordering? ==> r in s.core.orders && !s.core.orders[r].phase.Ended?
  {
    match s.requests[r]
    case Received(_, _, _) => Check(r, env.kidRead)
    case Checked(_, _, _) => UseNonce(r, env.useAt)
    case Handling(_, _, job) =>
      if job.Ordering? then Order(r, C.NextAccess(s.core.orders[r].phase, env.issue(job.done)))
      else if job.Storing? || job.Revoking? then Store(r, env.write)
      else Look(r, env.read, env.autoApprove, env.now)
    case Replying(_) => Answer(r, Draw(env.nonce, env.collectAt, env.issueAt))
  }

  /** In every reached state, every request that is not answered yet can make its next
      step, whatever the others do. */
  lemma NoRequestIsStuck(s: State, r: nat, env: RequestEnv)
    requires AllLinked(s) && r in s.requests && !s.requests[r].Replied? && env.collectAt <= env.issueAt
    ensures s.requests[r].Handling? && s.requests[r].job.Ordering? ==> r in s.core.orders && !s.core.orders[r].phase.Ended?
    ensures Enabled(s, NextStep(s, r, env))
  {
    assert Linked(s, r);
  }

  // ----- what a verified body is -----

  function NonceOf(p: Primitives, body: Octets): string {
    var h := HeaderOf(p, body);
    if h.Some? then h.value.nonce else ""
  }

  /** The body is an envelope whose signature this public key verifies. */
  predicate SignedBy(p: Primitives, body: Octets, pub: Octets) {
    match p.unmarshalEnvelope(body)
    case None => false
    case Some(j) =>
      var sig := p.decode(j.signature);
      sig.Some? && p.check(pub, SigningInput(j.protected, j.payload), sig.value)
  }

  /** The account id is the thumbprint of a key that signed the body. */
  ghost predicate SignedById(p: Primitives, body: Octets, id: string) {
    exists j: JWK :: Ed25519(p, j).Ok? && SignedBy(p, body, Ed25519(p, j).value) && Thumbprint(p, j) == id
  }

  /** Every stored account is filed under the thumbprint of its own key. */
  ghost predicate KeyBound(p: Primitives, reg: Registry) {
    forall i | 0 <= i < |reg.accounts| ::
      Thumbprint(p, JWK("OKP", "Ed25519", reg.accounts[i].publicKey)) == reg.accounts[i].thumbprint
  }

  /** What the checks established about a request: its header is that of its body, an
      embedded key is a well-formed one, and the account id is its signer's. */
  ghost predicate Vouched(p: Primitives, body: Octets, v: Verified) {
    && HeaderOf(p, body) == Some(v.header)
    && (v.jwk.Some? ==> Ed25519(p, v.jwk.value).Ok? && v.thumbprint == Thumbprint(p, v.jwk.value))
    && SignedById(p, body, v.thumbprint)
  }

  lemma CheckedIsVouched(p: Primitives, reg: Registry, body: Option<Octets>, url: string, read: bool)
    requires KeyBound(p, reg) && CheckedRequest(p, reg, body, url, read).Ok?
    ensures Vouched(p, body.value, CheckedRequest(p, reg, body, url, read).value)
  {
    var v := CheckedRequest(p, reg, body, url, read).value;
    var h := v.header;
    if h.jwk.Some? {
      assert Ed25519(p, h.jwk.value).Ok? && SignedBy(p, body.value, Ed25519(p, h.jwk.value).value);
    } else {
      StoredKeyVouches(p, reg, h.kid, read);
      var j := JWK("OKP", "Ed25519", Find(reg.accounts, R.AccountKey, h.kid).value.publicKey);
      assert Ed25519(p, j).Ok? && SignedBy(p, body.value, Ed25519(p, j).value);
    }
  }

  lemma StoredKeyVouches(p: Primitives, reg: Registry, kid: string, read: bool)
    requires KeyBound(p, reg) && ResolveKey(p, reg, read)(kid).Some?
    ensures Find(reg.accounts, R.AccountKey, kid).Some?
    ensures var j := JWK("OKP", "Ed25519", Find(reg.accounts, R.AccountKey, kid).value.publicKey);
      Ed25519(p, j) == Ok(ResolveKey(p, reg, read)(kid).value) && Thumbprint(p, j) == kid
  {
    FindMeans(reg.accounts, R.AccountKey, kid);
  }

  /** An admitted request was signed by the key whose thumbprint is the account id it
      acts under, whether the key was embedded or looked up. */
  lemma AdmittedIdIsSignersThumbprint(p: Primitives, reg: Registry, t: Nonces.Table, body: Option<Octets>, url: string, read: bool, at: int)
    requires KeyBound(p, reg)
    ensures var r := Admitted(p, reg, t, body, url, read, at).1;
      r.Ok? ==> SignedById(p, body.value, r.value.thumbprint)
  {
    if CheckedRequest(p, reg, body, url, read).Ok? {
      CheckedIsVouched(p, reg, body, url, read);
    }
  }

  /** The nonce is consumed exactly when the request reaches the nonce check: a request
      with a bad signature or url leaves the table alone. */
  lemma OnlyTheNonceCheckConsumes(p: Primitives, reg: Registry, t: Nonces.Table, body: Option<Octets>, url: string, read: bool, at: int)
    ensures var (t', r) := Admitted(p, reg, t, body, url, read, at);
      && (r.Err? && r.error != BadNonce ==> t' == t)
      && (r.Ok? || r == Err(BadNonce) ==> body.Some? && t' == t - {NonceOf(p, body.value)})
      && (r.Ok? ==> r.value.header.nonce == NonceOf(p, body.value) && Nonces.Valid(t, NonceOf(p, body.value), at))
      && (r == Err(BadNonce) ==> !Nonces.Valid(t, NonceOf(p, body.value), at))
  {
  }

  // ----- replay protection -----

  function Outstanding(t: Nonces.Table, n: string): nat {
    if n in t then 1 else 0
  }

  /** Every acceptance of a nonce is paid by an issuance of it, and one that is still
      outstanding has an issuance to spare. */
  ghost predicate Accounted(p: Primitives, b: Books) {
    && (forall n :: b.acceptedNonces[n] + Outstanding(b.table, n) <= b.issued[n])
    && (forall body :: b.accepted[body] <= b.acceptedNonces[NonceOf(p, body)])
    && |b.accepted| == |b.acceptedNonces|
  }

  /** Checked requests carry the header of their body. */
  ghost predicate HeadersMatch(p: Primitives, s: State) {
    forall r | r in s.requests && s.requests[r].Checked? :: HeaderOf(p, s.requests[r].body) == Some(s.requests[r].v.header)
  }

  /** An acceptance uses up the outstanding nonce it is paid with. */
  lemma AcceptPaysNonce(b: Books, n: string, accepted: multiset<string>)
    requires forall m :: b.acceptedNonces[m] + Outstanding(b.table, m) <= b.issued[m]
    requires n in b.table && accepted == b.acceptedNonces + multiset{n}
    ensures forall m :: accepted[m] + Outstanding(b.table - {n}, m) <= b.issued[m]
  {
    forall m ensures accepted[m] + Outstanding(b.table - {n}, m) <= b.issued[m] {
      assert b.acceptedNonces[m] + Outstanding(b.table, m) <= b.issued[m];
    }
  }

  lemma AcceptCountsBody(p: Primitives, b: Books, body: Octets)
    requires forall o :: b.accepted[o] <= b.acceptedNonces[NonceOf(p, o)]
    ensures forall o :: (b.accepted + multiset{body})[o] <= (b.acceptedNonces + multiset{NonceOf(p, body)})[NonceOf(p, o)]
  {
    forall o ensures (b.accepted + multiset{body})[o] <= (b.acceptedNonces + multiset{NonceOf(p, body)})[NonceOf(p, o)] {
      assert b.accepted[o] <= b.acceptedNonces[NonceOf(p, o)];
    }
  }

  lemma AcceptKeepsAccounts(p: Primitives, b: Books, body: Octets, n: string, b': Books)
    requires Accounted(p, b) && NonceOf(p, body) == n && n in b.table
    requires b' == Books(b.table - {n}, b.issued, b.accepted + multiset{body}, b.acceptedNonces + multiset{n})
    ensures Accounted(p, b')
  {
    AcceptPaysNonce(b, n, b'.acceptedNonces);
    AcceptCountsBody(p, b, body);
  }

  /** Nonces may be lost. */
  lemma LossKeepsAccounts(p: Primitives, b: Books, t: Nonces.Table)
    requires Accounted(p, b) && t.Keys <= b.table.Keys
    ensures Accounted(p, b.(table := t))
  {
    forall n ensures b.acceptedNonces[n] + Outstanding(t, n) <= b.issued[n] {
      assert b.acceptedNonces[n] + Outstanding(b.table, n) <= b.issued[n];
    }
  }

  lemma UseKeepsAccounts(p: Primitives, b: Books, body: Octets, v: Verified, at: int)
    requires Accounted(p, b) && HeaderOf(p, body) == Some(v.header)
    ensures Accounted(p, NonceUsed(b, body, v, at))
  {
    if Nonces.Valid(b.table, v.header.nonce, at) {
      AcceptKeepsAccounts(p, b, body, v.header.nonce, NonceUsed(b, body, v, at));
    } else {
      LossKeepsAccounts(p, b, Nonces.Used(b.table, v.header.nonce));
    }
  }

  lemma DrawKeepsAccounts(p: Primitives, b: Books, draw: Draw, ttl: int)
    requires Accounted(p, b)
    ensures Accounted(p, Replenished(b, draw, ttl))
  {
    var b' := Replenished(b, draw, ttl);
    forall n ensures b'.acceptedNonces[n] + Outstanding(b'.table, n) <= b'.issued[n] {
      assert b.acceptedNonces[n] + Outstanding(b.table, n) <= b.issued[n];
    }
  }

  lemma StepKeepsAccounts(c: Setup, s: State, a: Action)
    requires Accounted(c.p, s.books) && HeadersMatch(c.p, s) && Enabled(s, a)
    ensures Accounted(c.p, Next(c, s, a).books)
  {
    match a
    case UseNonce(r, at) => UseKeepsAccounts(c.p, s.books, s.requests[r].body, s.requests[r].v, at);
    case Answer(_, draw) => DrawKeepsAccounts(c.p, s.books, draw, c.ttl);
    case GetNonce(draw) => DrawKeepsAccounts(c.p, s.books, draw, c.ttl);
    case Restart => LossKeepsAccounts(c.p, s.books, map[]);
    case _ =>
  }

  /** The requests other than those a step works on stay as they are, unless the server
      restarts. */
  lemma OnlyOneRequestMoves(c: Setup, s: State, a: Action, q: nat)
    requires Enabled(s, a) && q in Next(c, s, a).requests
    ensures a.Arrive? || a.Check? || a.UseNonce? || a.Look? || a.Store? || a.Order? || a.Answer? ==>
      q == a.r || (q in s.requests && Next(c, s, a).requests[q] == s.requests[q])
    ensures a.GetNonce? || a.Internal? ==> q in s.requests && Next(c, s, a).requests[q] == s.requests[q]
    ensures !a.Restart?
  {
  }

  lemma StepKeepsHeaders(c: Setup, s: State, a: Action)
    requires HeadersMatch(c.p, s) && Enabled(s, a)
    ensures HeadersMatch(c.p, Next(c, s, a))
  {
    var s' := Next(c, s, a);
    forall q | q in s'.requests && s'.requests[q].Checked?
      ensures HeaderOf(c.p, s'.requests[q].body) == Some(s'.requests[q].v.header)
    {
      OnlyOneRequestMoves(c, s, a, q);
    }
  }

  lemma {:induction false} AccountedAlways(c: Setup, s: State, acts: seq<Action>)
    requires Accounted(c.p, s.books) && HeadersMatch(c.p, s) && EnabledRun(c, s, acts)
    ensures Accounted(c.p, Run(c, s, acts).books) && HeadersMatch(c.p, Run(c, s, acts))
    decreases |acts|
  {
    if acts != [] {
      StepKeepsAccounts(c, s, acts[0]);
      StepKeepsHeaders(c, s, acts[0]);
      AccountedAlways(c, Next(c, s, acts[0]), acts[1..]);
    }
  }

  lemma SubmultisetIsSmaller<T>(a: multiset<T>, b: multiset<T>)
    requires forall x :: a[x] <= b[x]
    ensures |a| <= |b|
  {
    assert b == a + (b - a);
  }

  /** Along every run of the server, however requests overlap, one request body is accepted
      at most once for each issuance of its nonce, and accepted requests never outnumber
      issued nonces. Freshness of the random nonces is not needed for this. */
  lemma NoReplay(c: Setup, acts: seq<Action>, body: Octets)
    requires EnabledRun(c, INITIAL, acts)
    ensures var b := Run(c, INITIAL, acts).books;
      b.accepted[body] <= b.issued[NonceOf(c.p, body)] && |b.accepted| <= |b.issued|
  {
    AccountedAlways(c, INITIAL, acts);
    AccountsBalance(c.p, Run(c, INITIAL, acts).books, body);
  }

  lemma AccountsBalance(p: Primitives, b: Books, body: Octets)
    requires Accounted(p, b)
    ensures b.accepted[body] <= b.issued[NonceOf(p, body)] && |b.accepted| <= |b.issued|
  {
    assert b.accepted[body] <= b.acceptedNonces[NonceOf(p, body)];
    assert b.acceptedNonces[NonceOf(p, body)] + Outstanding(b.table, NonceOf(p, body)) <= b.issued[NonceOf(p, body)];
    forall n ensures b.acceptedNonces[n] <= b.issued[n] {
      assert b.acceptedNonces[n] + Outstanding(b.table, n) <= b.issued[n];
    }
    SubmultisetIsSmaller(b.acceptedNonces, b.issued);
  }

  // ----- who stands behind an account id -----

  ghost predicate StageVouched(p: Primitives, x: Stage) {
    && (x.Checked? || x.Handling? ==> Vouched(p, x.body, x.v))
    && (x.Handling? && x.job.Registering? ==> x.v.jwk.Some?)
    && (x.Handling? && x.job.Storing? ==>
          Thumbprint(p, JWK("OKP", "Ed25519", x.job.acc.publicKey)) == x.job.acc.thumbprint && x.job.acc.thumbprint != "")
  }

  /** Accounts are filed under the thumbprint of their key, and every request past its
      checks acts under the thumbprint of its signer. */
  ghost predicate IdInv(p: Primitives, s: State) {
    && KeyBound(p, s.core.reg)
    && (forall r | r in s.requests :: StageVouched(p, s.requests[r]))
  }

  lemma UpsertKeepsKeyBound(p: Primitives, reg: Registry, acc: Account)
    requires KeyBound(p, reg)
    requires Thumbprint(p, JWK("OKP", "Ed25519", acc.publicKey)) == acc.thumbprint
    ensures KeyBound(p, R.Apply(reg, R.UpsertAccount(acc)))
  {
    var i := UpsertShape(reg.accounts, R.AccountKey, acc);
  }

  lemma OrderStepLeavesAccounts(core: C.State, r: nat, body: Octets, v: Verified, job: Job, access: C.Access)
    requires job.Ordering? && job.done < |job.order.products| && C.Enabled(core, C.Advance(r, access))
    ensures OrderStep(core, r, body, v, job, access).0.reg.accounts == core.reg.accounts
  {
  }

  lemma StepKeepsKeyBound(c: Setup, s: State, a: Action)
    requires IdInv(c.p, s) && Enabled(s, a)
    ensures KeyBound(c.p, Next(c, s, a).core.reg)
  {
    match a
    case Store(r, write) =>
      assert StageVouched(c.p, s.requests[r]);
      if s.requests[r].job.Storing? {
        UpsertKeepsKeyBound(c.p, s.core.reg, s.requests[r].job.acc);
      }
    case Order(r, access) =>
      var x := s.requests[r];
      OrderStepLeavesAccounts(s.core, r, x.body, x.v, x.job, access);
    case _ =>
  }

  lemma LookKeepsVouched(p: Primitives, reg: Registry, x: Stage, read: bool, auto: bool, now: Moment)
    requires StageVouched(p, x) && x.Handling? && (x.job.Registering? || x.job.Listing? || x.job.Finding?)
    ensures StageVouched(p, Looked(reg, x.body, x.v, x.job, read, auto, now))
  {
  }

  lemma CheckKeepsVouched(c: Setup, s: State, r: nat, read: bool)
    requires IdInv(c.p, s) && Enabled(s, Check(r, read))
    ensures StageVouched(c.p, Next(c, s, Check(r, read)).requests[r])
  {
    var x := s.requests[r];
    if CheckedRequest(c.p, s.core.reg, x.raw, x.url, read).Ok? {
      CheckedIsVouched(c.p, s.core.reg, x.raw, x.url, read);
    }
  }

  lemma OrderStepIsVouched(p: Primitives, core: C.State, r: nat, x: Stage, access: C.Access)
    requires StageVouched(p, x) && x.Handling? && x.job.Ordering? && x.job.done < |x.job.order.products|
    requires C.Enabled(core, C.Advance(r, access))
    ensures StageVouched(p, OrderStep(core, r, x.body, x.v, x.job, access).1)
  {
  }

  lemma StepKeepsVouched(c: Setup, s: State, a: Action, q: nat)
    requires IdInv(c.p, s) && Enabled(s, a) && q in Next(c, s, a).requests
    ensures StageVouched(c.p, Next(c, s, a).requests[q])
  {
    OnlyOneRequestMoves(c, s, a, q);
    if q in s.requests && Next(c, s, a).requests[q] == s.requests[q] {
      assert StageVouched(c.p, s.requests[q]);
    } else {
      match a
      case Arrive(_, _, _, _) =>
      case Check(r, read) => CheckKeepsVouched(c, s, r, read);
      case UseNonce(r, at) =>
        assert StageVouched(c.p, s.requests[r]);
      case Look(r, read, auto, now) => LookKeepsVouched(c.p, s.core.reg, s.requests[r], read, auto, now);
      case Order(r, access) => OrderStepIsVouched(c.p, s.core, r, s.requests[r], access);
      case _ =>
    }
  }

  lemma {:induction false} IdInvAlways(c: Setup, s: State, acts: seq<Action>)
    requires IdInv(c.p, s) && EnabledRun(c, s, acts)
    ensures IdInv(c.p, Run(c, s, acts))
    decreases |acts|
  {
    if acts != [] {
      StepKeepsKeyBound(c, s, acts[0]);
      forall q | q in Next(c, s, acts[0]).requests ensures StageVouched(c.p, Next(c, s, acts[0]).requests[q]) {
        StepKeepsVouched(c, s, acts[0], q);
      }
      IdInvAlways(c, Next(c, s, acts[0]), acts[1..]);
    }
  }

  /** In every state a run of the server reaches, however requests overlap, each request
      that is past its checks was signed by the key whose thumbprint is the account id it
      acts under, and each account is filed under the thumbprint of its own key. */
  lemma ReachedIdsAreSignersThumbprints(c: Setup, acts: seq<Action>, r: nat)
    requires EnabledRun(c, INITIAL, acts) && r in Run(c, INITIAL, acts).requests
    ensures var s := Run(c, INITIAL, acts);
      var x := s.requests[r];
      && KeyBound(c.p, s.core.reg)
      && (x.Checked? || x.Handling? ==> SignedById(c.p, x.body, x.v.thumbprint))
  {
    IdInvAlways(c, INITIAL, acts);
    assert StageVouched(c.p, Run(c, INITIAL, acts).requests[r]);
  }

  // ----- the lifecycle invariant -----

  /** A key about to be added repeats no stored key. */
  ghost predicate Fresh(s: State, a: Action)
    requires Enabled(s, a)
  {
    a.Order? ==> C.Fresh(s.core, C.Advance(a.r, a.access))
  }

  /** No other order of the pair has added a key since this one read the list. */
  predicate Calm(s: State, a: Action)
    requires Enabled(s, a)
  {
    a.Order? ==> C.Calm(s.core, C.Advance(a.r, a.access))
  }

  ghost predicate CalmRun(c: Setup, s: State, acts: seq<Action>)
    requires EnabledRun(c, s, acts)
    decreases |acts|
  {
    acts != [] ==> Fresh(s, acts[0]) && Calm(s, acts[0]) && CalmRun(c, Next(c, s, acts[0]), acts[1..])
  }

  lemma OrderStepKeepsInv(core: C.State, r: nat, body: Octets, v: Verified, job: Job, access: C.Access)
    requires job.Ordering? && job.done < |job.order.products| && C.Enabled(core, C.Advance(r, access))
    requires C.Inv(core) && C.Fresh(core, C.Advance(r, access)) && C.Calm(core, C.Advance(r, access))
    ensures C.Inv(OrderStep(core, r, body, v, job, access).0)
  {
    C.NextKeepsInv(core, C.Advance(r, access));
  }

  lemma StoreKeepsCore(core: C.State, job: Job)
    requires C.Inv(core) && (job.Storing? || job.Revoking?)
    requires job.Storing? ==> job.acc.thumbprint != ""
    ensures C.Inv(core.(reg := R.Apply(core.reg, Committed(job))))
  {
    C.NextKeepsInv(core, C.Other(Committed(job)));
  }

  lemma StepKeepsCore(c: Setup, s: State, a: Action)
    requires IdInv(c.p, s) && C.Inv(s.core) && Enabled(s, a) && Fresh(s, a) && Calm(s, a)
    ensures C.Inv(Next(c, s, a).core)
  {
    match a
    case Store(r, write) =>
      assert StageVouched(c.p, s.requests[r]);
      StoreKeepsCore(s.core, s.requests[r].job);
    case Order(r, access) =>
      var x := s.requests[r];
      OrderStepKeepsInv(s.core, r, x.body, x.v, x.job, access);
    case Internal(m) => C.NextKeepsInv(s.core, C.Other(m));
    case _ =>
  }

  /** The lifecycle invariant holds along every run of the server in which no two orders of
      one account and product overlap in such a way that one adds a key between the other's
      reading of the list and its adding. */
  lemma {:induction false} ServerInvAlways(c: Setup, s: State, acts: seq<Action>)
    requires IdInv(c.p, s) && C.Inv(s.core) && EnabledRun(c, s, acts) && CalmRun(c, s, acts)
    ensures IdInv(c.p, Run(c, s, acts)) && C.Inv(Run(c, s, acts).core)
    decreases |acts|
  {
    if acts != [] {
      var next := Next(c, s, acts[0]);
      StepKeepsCore(c, s, acts[0]);
      IdInvAlways(c, s, [acts[0]]);
      OneStepRun(c, s, acts[0]);
      ServerInvAlways(c, next, acts[1..]);
    }
  }

  lemma OneStepRun(c: Setup, s: State, a: Action)
    requires Enabled(s, a)
    ensures EnabledRun(c, s, [a]) && Run(c, s, [a]) == Next(c, s, a)
  {
    assert [a][1..] == [];
    assert EnabledRun(c, Next(c, s, a), []);
  }

  /** At most one order is between its reading of the list and its adding, at any time. */
  ghost predicate TurnsRun(c: Setup, s: State, acts: seq<Action>)
    requires EnabledRun(c, s, acts)
    decreases |acts|
  {
    C.OneOpen(s.core) &&
    (acts != [] ==> Fresh(s, acts[0]) && TurnsRun(c, Next(c, s, acts[0]), acts[1..]))
  }

  lemma StepLeavesUndisturbed(c: Setup, s: State, a: Action)
    requires C.OneOpen(s.core) && s.core.disturbed == {} && Enabled(s, a)
    ensures Calm(s, a) && Next(c, s, a).core.disturbed == {}
  {
    if a.Order? && C.Adds(s.core, C.Advance(a.r, a.access)) {
      assert C.Rivals(s.core, a.r) == {};
    }
  }

  /** So it holds along every run in which orders take turns. */
  lemma {:induction false} OrdersInTurnsAreCalm(c: Setup, s: State, acts: seq<Action>)
    requires EnabledRun(c, s, acts) && TurnsRun(c, s, acts) && s.core.disturbed == {}
    ensures CalmRun(c, s, acts)
    decreases |acts|
  {
    if acts != [] {
      StepLeavesUndisturbed(c, s, acts[0]);
      OrdersInTurnsAreCalm(c, Next(c, s, acts[0]), acts[1..]);
    }
  }

  /** At most one request is not answered yet. */
  ghost predicate OneUnanswered(s: State) {
    forall r, q | r in s.requests && q in s.requests && !s.requests[r].Replied? && !s.requests[q].Replied? :: r == q
  }

  /** A request arrives only when all others are answered. */
  ghost predicate OneAtATime(c: Setup, s: State, acts: seq<Action>)
    requires EnabledRun(c, s, acts)
    decreases |acts|
  {
    acts != [] ==>
      && (acts[0].Arrive? ==> forall r | r in s.requests :: s.requests[r].Replied?)
      && OneAtATime(c, Next(c, s, acts[0]), acts[1..])
  }

  ghost predicate FreshRun(c: Setup, s: State, acts: seq<Action>)
    requires EnabledRun(c, s, acts)
    decreases |acts|
  {
    acts != [] ==> Fresh(s, acts[0]) && FreshRun(c, Next(c, s, acts[0]), acts[1..])
  }

  lemma OneUnansweredIsOneOpen(s: State)
    requires AllLinked(s) && OneUnanswered(s)
    ensures C.OneOpen(s.core)
  {
    forall o, p | o in s.core.orders && p in s.core.orders && C.Open(s.core.orders[o].phase) && C.Open(s.core.orders[p].phase)
      ensures o == p
    {
      assert Linked(s, o) && Linked(s, p);
    }
  }

  lemma StepKeepsOneUnanswered(c: Setup, s: State, a: Action)
    requires OneUnanswered(s) && Enabled(s, a)
    requires a.Arrive? ==> forall r | r in s.requests :: s.requests[r].Replied?
    ensures OneUnanswered(Next(c, s, a))
  {
    var s' := Next(c, s, a);
    forall r, q | r in s'.requests && q in s'.requests && !s'.requests[r].Replied? && !s'.requests[q].Replied?
      ensures r == q
    {
      OnlyOneRequestMoves(c, s, a, r);
      OnlyOneRequestMoves(c, s, a, q);
    }
  }

  /** In particular when requests are handled one at a time. */
  lemma {:induction false} OneAtATimeTakesTurns(c: Setup, s: State, acts: seq<Action>)
    requires AllLinked(s) && OneUnanswered(s)
    requires EnabledRun(c, s, acts) && OneAtATime(c, s, acts) && FreshRun(c, s, acts)
    ensures TurnsRun(c, s, acts)
    decreases |acts|
  {
    OneUnansweredIsOneOpen(s);
    if acts != [] {
      StepKeepsLinks(c, s, acts[0]);
      StepKeepsOneUnanswered(c, s, acts[0]);
      OneAtATimeTakesTurns(c, Next(c, s, acts[0]), acts[1..]);
    }
  }

  /** So the lifecycle invariant holds along every run that handles one request at a time. */
  lemma SerialServerInv(c: Setup, acts: seq<Action>)
    requires EnabledRun(c, INITIAL, acts) && OneAtATime(c, INITIAL, acts) && FreshRun(c, INITIAL, acts)
    ensures C.Inv(Run(c, INITIAL, acts).core)
  {
    OneAtATimeTakesTurns(c, INITIAL, acts);
    OrdersInTurnsAreCalm(c, INITIAL, acts);
    ServerInvAlways(c, INITIAL, acts);
  }

  // ----- honest requests -----

  /** What a client with an account key sends: the envelope for a nonce and a url, with
      its key embedded or its account id. */
  function ClientRequest(p: Primitives, priv: Octets, nonce: string, url: string, embed: bool, payload: Option<Octets>): Octets {
    var jwk := JWKFromEd25519(p, p.publicOf(priv));
    var h := ProtectedHeader("", nonce, url, if embed then "" else Thumbprint(p, jwk), if embed then Some(jwk) else None);
    p.marshalEnvelope(Sign(p, priv, h, payload))
  }

  /** A client's request with a live nonce, for the right url, is admitted under its own
      account id with its own payload; by account id it takes a registered account. */
  lemma HonestRequestIsAdmitted(p: Primitives, reg: Registry, t: Nonces.Table, priv: Octets, nonce: string, url: string,
                                embed: bool, payload: Option<Octets>, at: int)
    requires p.Lawful() && p.isUtf8(nonce) && p.isUtf8(url)
    requires Nonces.Valid(t, nonce, at)
    requires !embed ==>
      var id := Thumbprint(p, JWKFromEd25519(p, p.publicOf(priv)));
      && id != "" && Find(reg.accounts, R.AccountKey, id).Some?
      && Find(reg.accounts, R.AccountKey, id).value.publicKey == p.encode(p.publicOf(priv))
    ensures var r := Admitted(p, reg, t, Some(ClientRequest(p, priv, nonce, url, embed, payload)), url, true, at).1;
      && r.Ok?
      && r.value.thumbprint == Thumbprint(p, JWKFromEd25519(p, p.publicOf(priv)))
      && r.value.payload == (if payload.Some? then payload.value else "")
  {
    var jwk := JWKFromEd25519(p, p.publicOf(priv));
    var id := Thumbprint(p, jwk);
    var h := ProtectedHeader("", nonce, url, if embed then "" else id, if embed then Some(jwk) else None);
    assert p.isUtf8(p.encode(p.publicOf(priv)));
    if !embed {
      KeyRoundTrip(p, p.publicOf(priv));
      assert ResolveKey(p, reg, true)(id) == Some(p.publicOf(priv));
    }
    SignVerifyRoundTrip(p, priv, h, payload, ResolveKey(p, reg, true), id);
  }

  /** Handlers other than that of new accounts look at the account id and the payload only. */
  lemma HandlersIgnoreKey(pay: Payloads, reg: Registry, endpoint: Endpoint, v: Verified, w: Verified, env: RequestEnv)
    requires endpoint != NewAccount && v.thumbprint == w.thumbprint && v.payload == w.payload
    ensures Handled(pay, reg, endpoint, v, env) == Handled(pay, reg, endpoint, w, env)
  {
  }

  /** Orders, lists and revocations of a registered account are served alike whether the
      request names the account id or embeds the account key. */
  lemma EmbeddedKeyIsServed(p: Primitives, pay: Payloads, reg: Registry, t: Nonces.Table, priv: Octets, nonce: string, url: string,
                            payload: Option<Octets>, endpoint: Endpoint, env: RequestEnv)
    requires p.Lawful() && p.isUtf8(nonce) && p.isUtf8(url) && Nonces.Valid(t, nonce, env.useAt) && env.kidRead
    requires var id := Thumbprint(p, JWKFromEd25519(p, p.publicOf(priv)));
      && id != "" && Find(reg.accounts, R.AccountKey, id).Some?
      && Find(reg.accounts, R.AccountKey, id).value.publicKey == p.encode(p.publicOf(priv))
    requires endpoint != NewAccount
    ensures Admitted(p, reg, t, Some(ClientRequest(p, priv, nonce, url, true, payload)), url, true, env.useAt).1.Ok?
    ensures var (reg', t', reply) := Answered(p, pay, reg, t, endpoint, Some(ClientRequest(p, priv, nonce, url, true, payload)), url, env);
      var (reg1, t1, reply1) := Answered(p, pay, reg, t, endpoint, Some(ClientRequest(p, priv, nonce, url, false, payload)), url, env);
      reg' == reg1 && reply == reply1
  {
    HonestRequestIsAdmitted(p, reg, t, priv, nonce, url, true, payload, env.useAt);
    HonestRequestIsAdmitted(p, reg, t, priv, nonce, url, false, payload, env.useAt);
    var v := Admitted(p, reg, t, Some(ClientRequest(p, priv, nonce, url, true, payload)), url, true, env.useAt).1.value;
    var w := Admitted(p, reg, t, Some(ClientRequest(p, priv, nonce, url, false, payload)), url, true, env.useAt).1.value;
    HandlersIgnoreKey(pay, reg, endpoint, v, w, env);
  }
}
