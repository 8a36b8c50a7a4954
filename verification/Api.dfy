/** The signed-request API: admitting a request, the handlers behind it, and what an order
    does. */
module Api {
  import opened Wrappers
  import opened Text
  import opened Records
  import opened KeyedLists
  import opened Keys
  import R = Registries
  import opened Stores
  import opened Services
  import opened Jws
  import Nonces
  import P = Provenance
  import L = Lifecycle
  import D = Revocations

  // ----- admitting a request -----

  datatype Refusal = Unreadable | BadJws(error: JwsError) | WrongUrl | BadNonce

  /** The key of a stored account; read is the success of the look-up. */
  function ResolveKey(p: Primitives, reg: Registry, read: bool): string -> Option<Octets> {
    kid =>
      match if read then Find(reg.accounts, R.AccountKey, kid) else None
      case None => None
      case Some(acc) =>
        match Ed25519(p, JWK("OKP", "Ed25519", acc.publicKey))
        case Ok(pub) => Some(pub)
        case Err(_) => None
  }

  /** The checks that consume nothing: signature, then url. body is None when it cannot
      be read. */
  function CheckedRequest(p: Primitives, reg: Registry, body: Option<Octets>, url: string, read: bool): Result<Verified, Refusal> {
    if body.None? then Err(Unreadable)
    else
      match Verify(p, body.value, ResolveKey(p, reg, read))
      case Err(e) => Err(BadJws(e))
      case Ok(v) => if v.header.url != url then Err(WrongUrl) else Ok(v)
  }

  /** The last check consumes the nonce, valid or not. */
  function NonceChecked(t: Nonces.Table, v: Verified, at: int): (Nonces.Table, Result<Verified, Refusal>) {
    (Nonces.Used(t, v.header.nonce), if Nonces.Valid(t, v.header.nonce, at) then Ok(v) else Err(BadNonce))
  }

  function Admitted(p: Primitives, reg: Registry, t: Nonces.Table, body: Option<Octets>, url: string, read: bool, at: int)
    : (Nonces.Table, Result<Verified, Refusal>)
  {
    match CheckedRequest(p, reg, body, url, read)
    case Err(e) => (t, Err(e))
    case Ok(v) => NonceChecked(t, v, at)
  }

  // ----- the handlers -----

  datatype Endpoint = NewAccount | NewOrder | Subscriptions | RevokeKey

  datatype AccountRequest = AccountRequest(contact: string, serverId: string)
  datatype OrderRequest = OrderRequest(serverId: string, products: seq<string>, level: string, sockets: string)

  /** The JSON readers of the request payloads. */
  datatype Payloads = Payloads(
    account: Octets -> AccountRequest,
    order: Octets -> Option<OrderRequest>,
    revoke: Octets -> Option<string>)

  datatype Subscription = Subscription(product: string, key: string, status: Status, productName: string, nextDueDate: string)

  function SubscriptionOf(l: License): Subscription {
    Subscription(l.product, l.key, l.status, l.productName, l.nextDueDate)
  }

  datatype Reply =
    | Problem(code: nat)
    | AccountReply(thumbprint: string, serverId: string, status: Status)
    | OrderReply(serverId: string, valid: bool, issued: seq<Subscription>, pending: seq<string>, problems: map<string, ServiceError>)
    | ListReply(subscriptions: seq<Subscription>)
    | RevokeReply(key: string)

  /** Everything outside the server that one request meets. */
  datatype RequestEnv = RequestEnv(
    kidRead: bool,
    useAt: int,
    nonce: Option<string>,
    collectAt: int,
    issueAt: int,
    autoApprove: bool,
    now: Moment,
    read: bool,
    write: bool,
    issue: nat -> IssueEnv)

  function OrderFor(thumbprint: string, req: OrderRequest, product: string): IssueInput {
    IssueInput(thumbprint, req.serverId, product, req.level, req.sockets)
  }

  datatype Progress = Progress(reg: Registry, issued: seq<Subscription>, pending: seq<string>, problems: map<string, ServiceError>)

  /** The tally of an order after one more product. */
  function Advanced(before: Progress, product: string, out: Outcome<License>): Progress {
    match out.result
    case Ok(l) => before.(reg := out.reg, issued := before.issued + [SubscriptionOf(l)])
    case Err(e) =>
      if e == AccountNotApproved then before.(reg := out.reg, pending := before.pending + [product])
      else before.(reg := out.reg, problems := before.problems[product := e])
  }

  /** An order after its first n products. */
  function Ordered(reg: Registry, thumbprint: string, req: OrderRequest, issue: nat -> IssueEnv, n: nat): Progress
    requires n <= |req.products|
  {
    if n == 0 then Progress(reg, [], [], map[])
    else
      var before := Ordered(reg, thumbprint, req, issue, n - 1);
      var product := req.products[n - 1];
      Advanced(before, product, Issuing(before.reg, OrderFor(thumbprint, req, product), issue(n - 1)))
  }

  predicate ValidOrder(d: Progress) {
    !(d.issued == [] || d.pending != [] || d.problems != map[])
  }

  function OwnSubscriptions(licenses: seq<License>, account: string): seq<Subscription> {
    if licenses == [] then []
    else
      var before := OwnSubscriptions(licenses[..|licenses| - 1], account);
      var l := licenses[|licenses| - 1];
      if l.account == account then before + [SubscriptionOf(l)] else before
  }

  /** What an admitted request does to the registry, and its reply. */
  function Handled(pay: Payloads, reg: Registry, endpoint: Endpoint, v: Verified, env: RequestEnv): (Registry, Reply) {
    match endpoint
    case NewAccount =>
      if v.jwk.None? then (reg, Problem(400))
      else
        var req := pay.account(v.payload);
        var out := Registering(reg, v.thumbprint, v.jwk.value.x, req.serverId, req.contact, env.autoApprove, env.now, env.read, env.write);
        (match out.result
         case Err(_) => (out.reg, Problem(400))
         case Ok(acc) => (out.reg, AccountReply(acc.thumbprint, acc.serverId, acc.status)))
    case NewOrder =>
      (match pay.order(v.payload)
       case None => (reg, Problem(400))
       case Some(req) =>
         if req.serverId == "" || req.products == [] then (reg, Problem(400))
         else
           var d := Ordered(reg, v.thumbprint, req, env.issue, |req.products|);
           (d.reg, OrderReply(req.serverId, ValidOrder(d), d.issued, d.pending, d.problems)))
    case Subscriptions =>
      if env.read then (reg, ListReply(OwnSubscriptions(reg.licenses, v.thumbprint))) else (reg, Problem(500))
    case RevokeKey =>
      (match pay.revoke(v.payload)
       case None => (reg, Problem(400))
       case Some(key) =>
         if key == "" then (reg, Problem(400))
         else if !env.read then (reg, Problem(500))
         else
           var found := Find(reg.licenses, R.LicenseKey, key);
           if found.None? || found.value.account != v.thumbprint then (reg, Problem(403))
           else if !env.write then (reg, Problem(500))
           else (R.Apply(reg, R.SetLicenseStatus(key, Revoked)), RevokeReply(key)))
  }

  function RefusalCode(r: Refusal): nat {
    if r == BadJws(UnknownAccount) then 401 else 400
  }

  /** One request from the body to the reply, without the fresh nonce. */
  function Answered(p: Primitives, pay: Payloads, reg: Registry, t: Nonces.Table,
                    endpoint: Endpoint, body: Option<Octets>, url: string, env: RequestEnv): (Registry, Nonces.Table, Reply)
  {
    var (t', r) := Admitted(p, reg, t, body, url, env.kidRead, env.useAt);
    match r
    case Err(e) => (reg, t', Problem(RefusalCode(e)))
    case Ok(v) =>
      var (reg', reply) := Handled(pay, reg, endpoint, v, env);
      (reg', t', reply)
  }

  function WithFreshNonce(t: Nonces.Table, env: RequestEnv, ttl: int): Nonces.Table {
    if env.nonce.Some? then Nonces.Issued(t, env.nonce.value, env.collectAt, env.issueAt, ttl) else t
  }

  // ----- the server object -----

  class Server {
    const app: Service
    const nonces: Nonces.NonceStore
    const p: Primitives
    const pay: Payloads

    constructor (app: Service, nonces: Nonces.NonceStore, p: Primitives, pay: Payloads)
      ensures this.app == app && this.nonces == nonces && this.p == p && this.pay == pay
    {
      this.app, this.nonces, this.p, this.pay := app, nonces, p, pay;
    }

    method FreshNonce(env: RequestEnv) returns (header: Option<string>)
      requires env.collectAt <= env.issueAt
      modifies nonces
      ensures nonces.issued == WithFreshNonce(old(nonces.issued), env, nonces.ttl)
      ensures header == env.nonce
    {
      if env.nonce.Some? {
        nonces.Issue(env.nonce.value, env.collectAt, env.issueAt);
      }
      return env.nonce;
    }

    method VerifyJWS(body: Option<Octets>, url: string, env: RequestEnv) returns (r: Result<Verified, Refusal>)
      modifies nonces
      ensures (nonces.issued, r) == Admitted(p, app.store.reg, old(nonces.issued), body, url, env.kidRead, env.useAt)
    {
      if body.None? { return Err(Unreadable); }
      var v := Verify(p, body.value, ResolveKey(p, app.store.reg, env.kidRead));
      if v.Err? { return Err(BadJws(v.error)); }
      if v.value.header.url != url { return Err(WrongUrl); }
      var live := nonces.Use(v.value.header.nonce, env.useAt);
      if !live { return Err(BadNonce); }
      return Ok(v.value);
    }

    method HandleNewAccount(v: Verified, env: RequestEnv) returns (reply: Reply)
      modifies app.store
      ensures (app.store.reg, reply) == Handled(pay, old(app.store.reg), NewAccount, v, env)
    {
      if v.jwk.None? { return Problem(400); }
      var req := pay.account(v.payload);
      var r := app.RegisterAccount(v.thumbprint, v.jwk.value.x, req.serverId, req.contact, env.autoApprove, env.now, env.read, env.write);
      return match r
        case Err(_) => Problem(400)
        case Ok(acc) => AccountReply(acc.thumbprint, acc.serverId, acc.status);
    }

    method HandleNewOrder(v: Verified, env: RequestEnv) returns (reply: Reply)
      modifies app.store
      ensures (app.store.reg, reply) == Handled(pay, old(app.store.reg), NewOrder, v, env)
    {
      var decoded := pay.order(v.payload);
      if decoded.None? { return Problem(400); }
      var req := decoded.value;
      if req.serverId == "" || req.products == [] { return Problem(400); }
      var issued: seq<Subscription>, pending: seq<string>, problems: map<string, ServiceError> := [], [], map[];
      for i := 0 to |req.products|
        invariant Progress(app.store.reg, issued, pending, problems) == Ordered(old(app.store.reg), v.thumbprint, req, env.issue, i)
      {
        var product := req.products[i];
        var r := app.IssueSubscription(OrderFor(v.thumbprint, req, product), env.issue(i));
        if r.Ok? {
          issued := issued + [SubscriptionOf(r.value)];
        } else if r.error == AccountNotApproved {
          pending := pending + [product];
        } else {
          problems := problems[product := r.error];
        }
      }
      var valid := true;
      if issued == [] || pending != [] || problems != map[] {
        valid := false;
      }
      return OrderReply(req.serverId, valid, issued, pending, problems);
    }

    method HandleSubscriptions(v: Verified, env: RequestEnv) returns (reply: Reply)
      ensures (app.store.reg, reply) == Handled(pay, app.store.reg, Subscriptions, v, env)
    {
      var listed := app.store.ListLicenses(env.read);
      if listed.Err? { return Problem(500); }
      var all := listed.value;
      var out: seq<Subscription> := [];
      for i := 0 to |all|
        invariant out == OwnSubscriptions(all[..i], v.thumbprint)
      {
        assert all[..i + 1][..i] == all[..i];
        if all[i].account == v.thumbprint {
          out := out + [SubscriptionOf(all[i])];
        }
      }
      assert all[..|all|] == all;
      return ListReply(out);
    }

    method HandleRevoke(v: Verified, env: RequestEnv) returns (reply: Reply)
      modifies app.store
      ensures (app.store.reg, reply) == Handled(pay, old(app.store.reg), RevokeKey, v, env)
    {
      var decoded := pay.revoke(v.payload);
      if decoded.None? || decoded.value == "" { return Problem(400); }
      var found := app.store.GetLicense(decoded.value, env.read);
      if found.Err? { return Problem(500); }
      if found.value.None? || found.value.value.account != v.thumbprint { return Problem(403); }
      var ok, known := app.RevokeSubscription(decoded.value, Saving(env.write));
      if !ok { return Problem(500); }
      return RevokeReply(decoded.value);
    }

    /** One request: admit, handle, and answer with a fresh nonce whatever the outcome. */
    method Handle(endpoint: Endpoint, body: Option<Octets>, url: string, env: RequestEnv)
      returns (reply: Reply, header: Option<string>)
      requires env.collectAt <= env.issueAt
      modifies app.store, nonces
      ensures var (reg', t', r) := Answered(p, pay, old(app.store.reg), old(nonces.issued), endpoint, body, url, env);
        && app.store.reg == reg'
        && nonces.issued == WithFreshNonce(t', env, nonces.ttl)
        && reply == r && header == env.nonce
    {
      var v := VerifyJWS(body, url, env);
      if v.Err? {
        reply := Problem(RefusalCode(v.error));
      } else {
        match endpoint {
          case NewAccount => reply := HandleNewAccount(v.value, env);
          case NewOrder => reply := HandleNewOrder(v.value, env);
          case Subscriptions => reply := HandleSubscriptions(v.value, env);
          case RevokeKey => reply := HandleRevoke(v.value, env);
        }
      }
      header := FreshNonce(env);
    }
  }

  // ----- orders -----

  function ProductsOf(issued: seq<Subscription>): seq<string> {
    if issued == [] then [] else ProductsOf(issued[..|issued| - 1]) + [issued[|issued| - 1].product]
  }

  lemma IssuedProduct(reg: Registry, order: IssueInput, env: IssueEnv)
    requires Issuing(reg, order, env).result.Ok?
    ensures Issuing(reg, order, env).result.value.product == order.product
  {
    L.SuccessCases(reg, order, env);
    L.AssignedMeans(reg.licenses, order.thumbprint, order.product);
  }

  /** The first n products of an order are divided among the issued, the pending and the
      failed ones, repetitions included, and the failed ones are those with a problem. */
  ghost predicate Classified(d: Progress, products: seq<string>, failed: seq<string>) {
    && multiset(products) == multiset(ProductsOf(d.issued)) + multiset(d.pending) + multiset(failed)
    && forall product :: product in d.problems <==> product in failed
  }

  lemma ClassifyIssued(d: Progress, products: seq<string>, failed: seq<string>, reg: Registry, l: License)
    requires Classified(d, products, failed)
    ensures Classified(d.(reg := reg, issued := d.issued + [SubscriptionOf(l)]), products + [l.product], failed)
  {
  }

  lemma ClassifyFailed(d: Progress, products: seq<string>, failed: seq<string>, reg: Registry, product: string, e: ServiceError)
    requires Classified(d, products, failed)
    ensures Classified(d.(reg := reg, problems := d.problems[product := e]), products + [product], failed + [product])
  {
  }

  /** The tally of some products with the outcomes they had. */
  function Tally(reg: Registry, products: seq<string>, outs: seq<Outcome<License>>): Progress
    requires |products| == |outs|
  {
    if outs == [] then Progress(reg, [], [], map[])
    else
      var last := |outs| - 1;
      Advanced(Tally(reg, products[..last], outs[..last]), products[last], outs[last])
  }

  lemma {:induction false} TallyClassifies(reg: Registry, products: seq<string>, outs: seq<Outcome<License>>)
    returns (failed: seq<string>)
    requires |products| == |outs|
    requires forall i | 0 <= i < |outs| :: outs[i].result.Ok? ==> outs[i].result.value.product == products[i]
    ensures Classified(Tally(reg, products, outs), products, failed)
    decreases |outs|
  {
    if outs == [] {
      failed := [];
    } else {
      var last := |outs| - 1;
      failed := TallyClassifies(reg, products[..last], outs[..last]);
      var d := Tally(reg, products[..last], outs[..last]);
      assert products == products[..last] + [products[last]];
      match outs[last].result
      case Ok(l) => ClassifyIssued(d, products[..last], failed, outs[last].reg, l);
      case Err(e) =>
        if e != AccountNotApproved {
          ClassifyFailed(d, products[..last], failed, outs[last].reg, products[last], e);
          failed := failed + [products[last]];
        }
    }
  }

  /** An order issues its products one after the other, each for the account and for the
      host, level and sockets of the request; what it returns is the tally of their outcomes. */
  lemma {:induction false} OrderIsTally(reg: Registry, thumbprint: string, req: OrderRequest, issue: nat -> IssueEnv, n: nat)
    returns (regs: seq<Registry>, outs: seq<Outcome<License>>)
    requires n <= |req.products|
    ensures |outs| == n && Ordered(reg, thumbprint, req, issue, n) == Tally(reg, req.products[..n], outs)
    ensures |regs| == n + 1 && regs[0] == reg && regs[n] == Ordered(reg, thumbprint, req, issue, n).reg
    ensures forall i: nat | i < n ::
      && outs[i] == Issuing(regs[i], IssueInput(thumbprint, req.serverId, req.products[i], req.level, req.sockets), issue(i))
      && outs[i].reg == regs[i + 1]
      && (outs[i].result.Ok? ==> outs[i].result.value.product == req.products[i])
  {
    regs, outs := [reg], [];
    if n > 0 {
      var r, o := OrderIsTally(reg, thumbprint, req, issue, n - 1);
      var d := Ordered(reg, thumbprint, req, issue, n - 1);
      var out := OutcomeFor(d.reg, OrderFor(thumbprint, req, req.products[n - 1]), issue(n - 1));
      regs, outs := r + [out.reg], o + [out];
      assert outs[..n - 1] == o && req.products[..n][..n - 1] == req.products[..n - 1];
    }
  }

  /** The subscription tells of the license. */
  predicate Tells(s: Subscription, l: License) {
    s.product == l.product && s.key == l.key && s.status == l.status && s.productName == l.productName && s.nextDueDate == l.nextDueDate
  }

  /** The licenses among some outcomes, in order. */
  function IssuedOf(outs: seq<Outcome<License>>): seq<License> {
    if outs == [] then []
    else
      var last := |outs| - 1;
      var before := IssuedOf(outs[..last]);
      if outs[last].result.Ok? then before + [outs[last].result.value] else before
  }

  ghost predicate TellAll(issued: seq<Subscription>, licenses: seq<License>) {
    |issued| == |licenses| && forall i | 0 <= i < |issued| :: Tells(issued[i], licenses[i])
  }

  /** The products whose outcome is that the account is not approved, in order. */
  function PendingOf(products: seq<string>, outs: seq<Outcome<License>>): seq<string>
    requires |products| == |outs|
  {
    if outs == [] then []
    else
      var last := |outs| - 1;
      var before := PendingOf(products[..last], outs[..last]);
      if outs[last].result == Err(AccountNotApproved) then before + [products[last]] else before
  }

  predicate IsProblem(out: Outcome<License>) {
    out.result.Err? && out.result.error != AccountNotApproved
  }

  /** Each problem is the error of the last failure of its product. */
  ghost predicate ReportsProblems(problems: map<string, ServiceError>, products: seq<string>, outs: seq<Outcome<License>>)
    requires |products| == |outs|
  {
    && (forall i | 0 <= i < |outs| && IsProblem(outs[i]) :: products[i] in problems)
    && (forall product | product in problems ::
          exists i :: 0 <= i < |outs| && IsProblem(outs[i]) && products[i] == product
            && problems[product] == outs[i].result.error
            && forall j | i < j < |outs| && IsProblem(outs[j]) :: products[j] != product)
  }

  lemma ProblemsSnoc(problems: map<string, ServiceError>, products: seq<string>, outs: seq<Outcome<License>>,
                     product: string, out: Outcome<License>, after: map<string, ServiceError>)
    requires |products| == |outs| && ReportsProblems(problems, products, outs)
    requires after == if IsProblem(out) then problems[product := out.result.error] else problems
    ensures ReportsProblems(after, products + [product], outs + [out])
  {
    var ps, os := products + [product], outs + [out];
    forall p | p in after
      ensures exists i :: 0 <= i < |os| && IsProblem(os[i]) && ps[i] == p && after[p] == os[i].result.error
                && forall j | i < j < |os| && IsProblem(os[j]) :: ps[j] != p
    {
      if IsProblem(out) && p == product {
        assert os[|outs|] == out && ps[|outs|] == p;
      } else {
        var i :| 0 <= i < |outs| && IsProblem(outs[i]) && products[i] == p && problems[p] == outs[i].result.error
                 && forall j | i < j < |outs| && IsProblem(outs[j]) :: products[j] != p;
        assert os[i] == outs[i] && ps[i] == p;
      }
    }
  }

  /** A tally reports each outcome for what it is: the issued licenses, field by field and in
      order, the products that wait for the account's approval, in order, and for every other
      failed product the error of its last failure. */
  lemma {:induction false} TallyReports(reg: Registry, products: seq<string>, outs: seq<Outcome<License>>)
    requires |products| == |outs|
    ensures var d := Tally(reg, products, outs);
      && TellAll(d.issued, IssuedOf(outs))
      && d.pending == PendingOf(products, outs)
      && ReportsProblems(d.problems, products, outs)
    decreases |outs|
  {
    if outs != [] {
      var last := |outs| - 1;
      TallyReports(reg, products[..last], outs[..last]);
      assert products == products[..last] + [products[last]] && outs == outs[..last] + [outs[last]];
      ProblemsSnoc(Tally(reg, products[..last], outs[..last]).problems, products[..last], outs[..last],
                   products[last], outs[last], Tally(reg, products, outs).problems);
    }
  }

  lemma OutcomeFor(reg: Registry, order: IssueInput, env: IssueEnv) returns (out: Outcome<License>)
    ensures out == Issuing(reg, order, env)
    ensures out.result.Ok? ==> out.result.value.product == order.product
  {
    out := Issuing(reg, order, env);
    if out.result.Ok? {
      IssuedProduct(reg, order, env);
    }
  }

  lemma {:induction false} ProductsOfLength(issued: seq<Subscription>)
    ensures |ProductsOf(issued)| == |issued|
  {
    if issued != [] {
      ProductsOfLength(issued[..|issued| - 1]);
    }
  }

  /** Every product of an order is answered once, as issued, pending or failed, and the
      order is valid exactly when every product was issued. */
  lemma OrderIsValidWhenAllIssued(reg: Registry, thumbprint: string, req: OrderRequest, issue: nat -> IssueEnv)
    returns (failed: seq<string>)
    requires req.products != []
    ensures var d := Ordered(reg, thumbprint, req, issue, |req.products|);
      && Classified(d, req.products, failed)
      && (ValidOrder(d) <==> multiset(ProductsOf(d.issued)) == multiset(req.products))
      && (ValidOrder(d) <==> |d.issued| == |req.products|)
  {
    var regs, outs := OrderIsTally(reg, thumbprint, req, issue, |req.products|);
    assert req.products[..|req.products|] == req.products;
    failed := TallyClassifies(reg, req.products, outs);
    ValidWhenClassified(Tally(reg, req.products, outs), req.products, failed);
  }

  lemma ValidWhenClassified(d: Progress, products: seq<string>, failed: seq<string>)
    requires products != [] && Classified(d, products, failed)
    ensures ValidOrder(d) <==> multiset(ProductsOf(d.issued)) == multiset(products)
    ensures ValidOrder(d) <==> |d.issued| == |products|
  {
    ProductsOfLength(d.issued);
    var all := multiset(ProductsOf(d.issued)) + multiset(d.pending) + multiset(failed);
    assert |multiset(products)| == |all| == |d.issued| + |d.pending| + |failed|;
    if failed == [] {
      assert d.problems == map[];
    } else {
      assert failed[0] in d.problems;
    }
  }

  /** What the order endpoint answers: an ill-formed order is refused and changes nothing; any
      other is answered for its host with what it came to, as valid exactly when each product
      was issued. */
  lemma NewOrderIsAnswered(pay: Payloads, reg: Registry, v: Verified, env: RequestEnv)
    ensures var (reg', reply) := Handled(pay, reg, NewOrder, v, env);
      match pay.order(v.payload)
      case None => reg' == reg && reply == Problem(400)
      case Some(req) =>
        if req.serverId == "" || |req.products| == 0 then reg' == reg && reply == Problem(400)
        else
          var d := Ordered(reg, v.thumbprint, req, env.issue, |req.products|);
          && reg' == d.reg
          && reply == OrderReply(req.serverId, |d.issued| == |req.products|, d.issued, d.pending, d.problems)
  {
    var order := pay.order(v.payload);
    if order.Some? && order.value.products != [] {
      var failed := OrderIsValidWhenAllIssued(reg, v.thumbprint, order.value, env.issue);
    }
  }

  function KnownProducts(products: seq<string>): seq<string> {
    if products == [] then []
    else
      var last := products[|products| - 1];
      KnownProducts(products[..|products| - 1]) + (if ProductCode(last) then [last] else [])
  }

  predicate AccountApproved(reg: Registry, thumbprint: string) {
    var acc := Find(reg.accounts, R.AccountKey, thumbprint);
    acc.Some? && acc.value.status == Approved
  }

  /** An order of an account that is not approved changes nothing, issues nothing, and
      lists exactly the known products as pending, in the order they were named. */
  lemma {:induction false} UnapprovedOrderWaits(reg: Registry, thumbprint: string, req: OrderRequest, issue: nat -> IssueEnv, n: nat)
    requires n <= |req.products| && !AccountApproved(reg, thumbprint)
    requires forall i: nat | i < n :: issue(i).accountRead
    ensures var d := Ordered(reg, thumbprint, req, issue, n);
      d.reg == reg && d.issued == [] && d.pending == KnownProducts(req.products[..n])
  {
    if n > 0 {
      UnapprovedOrderWaits(reg, thumbprint, req, issue, n - 1);
      assert req.products[..n][..n - 1] == req.products[..n - 1];
    }
  }

  lemma ApprovedIsNotTurnedAway(reg: Registry, order: IssueInput, env: IssueEnv)
    requires AccountApproved(reg, order.thumbprint)
    ensures Issuing(reg, order, env).result != Err(AccountNotApproved) && Issuing(reg, order, env).reg.accounts == reg.accounts
  {
    L.IssueLeavesAccounts(reg, order, env);
  }

  /** No product of an order of an approved account waits for an approval. */
  lemma {:induction false} ApprovedOrderDoesNotWait(reg: Registry, thumbprint: string, req: OrderRequest, issue: nat -> IssueEnv, n: nat)
    requires n <= |req.products| && AccountApproved(reg, thumbprint)
    ensures var d := Ordered(reg, thumbprint, req, issue, n);
      d.reg.accounts == reg.accounts && d.pending == []
  {
    if n > 0 {
      ApprovedOrderDoesNotWait(reg, thumbprint, req, issue, n - 1);
      var before := Ordered(reg, thumbprint, req, issue, n - 1);
      var order := OrderFor(thumbprint, req, req.products[n - 1]);
      ApprovedIsNotTurnedAway(before.reg, order, issue(n - 1));
      assert Ordered(reg, thumbprint, req, issue, n) == Advanced(before, req.products[n - 1], Issuing(before.reg, order, issue(n - 1)));
    }
  }

  /** After any interleaving of transactions, an order passes the gate, so that no product of
      it waits, when the account's own machine ends in APPROVED; otherwise it changes nothing,
      and exactly its known products wait. */
  lemma GateFollowsDecisions(before: Registry, ms: seq<R.Mutation>, reg: Registry, thumbprint: string, req: OrderRequest,
                             issue: nat -> IssueEnv)
    requires reg == R.ApplyAll(before, ms) && forall i: nat | i < |req.products| :: issue(i).accountRead
    ensures var d := Ordered(reg, thumbprint, req, issue, |req.products|);
      if P.DecideAccountAll(P.AccountStatusOf(before, thumbprint), ms, thumbprint) == Some(Approved) then d.pending == []
      else d.reg == reg && d.issued == [] && d.pending == KnownProducts(req.products)
  {
    P.AccountStatusIsDecided(before, ms, thumbprint);
    if AccountApproved(reg, thumbprint) {
      ApprovedOrderDoesNotWait(reg, thumbprint, req, issue, |req.products|);
    } else {
      UnapprovedOrderWaits(reg, thumbprint, req, issue, |req.products|);
      assert req.products[..|req.products|] == req.products;
    }
  }

  /** So the last decision of an operator about a known account decides about its orders, as
      long as nothing else acts on the account. */
  lemma OperatorOpensGate(before: Registry, ms: seq<R.Mutation>, reg: Registry, thumbprint: string, status: Status,
                          req: OrderRequest, issue: nat -> IssueEnv)
    requires P.AccountStatusOf(before, thumbprint).Some?
    requires forall i | 0 <= i < |ms| :: !P.ActsOnAccount(ms[i], thumbprint)
    requires reg == R.ApplyAll(before, [R.SetAccountStatus(thumbprint, status)] + ms)
    requires forall i: nat | i < |req.products| :: issue(i).accountRead
    ensures var d := Ordered(reg, thumbprint, req, issue, |req.products|);
      if status == Approved then d.pending == []
      else d.reg == reg && d.issued == [] && d.pending == KnownProducts(req.products)
  {
    P.DecisionStands(P.AccountStatusOf(before, thumbprint), status, ms, thumbprint);
    GateFollowsDecisions(before, [R.SetAccountStatus(thumbprint, status)] + ms, reg, thumbprint, req, issue);
  }

  /** None of the keys that the first n products may be given repeats a stored one. */
  ghost predicate FreshOrders(reg: Registry, thumbprint: string, req: OrderRequest, issue: nat -> IssueEnv, n: nat)
    requires n <= |req.products|
  {
    n > 0 ==>
      && FreshOrders(reg, thumbprint, req, issue, n - 1)
      && L.FreshIssue(Ordered(reg, thumbprint, req, issue, n - 1).reg, OrderFor(thumbprint, req, req.products[n - 1]), issue(n - 1))
  }

  lemma OrderedStep(reg: Registry, thumbprint: string, req: OrderRequest, issue: nat -> IssueEnv, n: nat)
    requires 0 < n <= |req.products|
    ensures var before := Ordered(reg, thumbprint, req, issue, n - 1);
      var d := Ordered(reg, thumbprint, req, issue, n);
      var out := Issuing(before.reg, OrderFor(thumbprint, req, req.products[n - 1]), issue(n - 1));
      d.reg == out.reg && d.issued == before.issued + (if out.result.Ok? then [SubscriptionOf(out.result.value)] else [])
  {
  }

  lemma {:induction false} OrderKeepsInv(reg: Registry, thumbprint: string, req: OrderRequest, issue: nat -> IssueEnv, n: nat)
    requires n <= |req.products| && L.Inv(reg) && FreshOrders(reg, thumbprint, req, issue, n)
    ensures L.Inv(Ordered(reg, thumbprint, req, issue, n).reg)
  {
    if n > 0 {
      OrderKeepsInv(reg, thumbprint, req, issue, n - 1);
      L.IssueKeepsInv(Ordered(reg, thumbprint, req, issue, n - 1).reg, OrderFor(thumbprint, req, req.products[n - 1]), issue(n - 1));
      OrderedStep(reg, thumbprint, req, issue, n);
    }
  }

  lemma {:induction false} HeldFrame(licenses: seq<License>, k: string, account: string, product: string)
    requires forall i | 0 <= i < |licenses| && licenses[i].key == k :: !OwnedBy(licenses[i], account, product)
    ensures Held(Update(licenses, R.LicenseKey, k, R.WithLicenseStatus(Revoked)), account, product) == Held(licenses, account, product)
  {
    if licenses != [] {
      HeldFrame(licenses[1..], k, account, product);
      assert Update(licenses, R.LicenseKey, k, R.WithLicenseStatus(Revoked))[1..] ==
             Update(licenses[1..], R.LicenseKey, k, R.WithLicenseStatus(Revoked));
    }
  }

  lemma AppendFrame(licenses: seq<License>, l: License, account: string, product: string)
    requires !OwnedBy(l, account, product)
    ensures Held(licenses + [l], account, product) == Held(licenses, account, product)
  {
    HeldConcat(licenses, [l], account, product);
    assert Held([l], account, product) == [];
  }

  lemma RevokeFrame(reg: Registry, l: License, account: string, product: string)
    requires Unique(reg.licenses, R.LicenseKey) && l in reg.licenses && !OwnedBy(l, account, product)
    ensures Held(R.Apply(reg, R.SetLicenseStatus(l.key, Revoked)).licenses, account, product) == Held(reg.licenses, account, product)
  {
    var m :| 0 <= m < |reg.licenses| && reg.licenses[m] == l;
    forall i | 0 <= i < |reg.licenses| && reg.licenses[i].key == l.key ensures !OwnedBy(reg.licenses[i], account, product) {
      assert R.LicenseKey(reg.licenses[i]) == R.LicenseKey(reg.licenses[m]);
    }
    HeldFrame(reg.licenses, l.key, account, product);
  }

  lemma MintFrame(before: seq<License>, out: Outcome<License>, account: string, product: string)
    requires out.result.Ok? ==> out.reg.licenses == before + [out.result.value] && !OwnedBy(out.result.value, account, product)
    requires out.result.Err? ==> out.reg.licenses == before
    ensures Held(out.reg.licenses, account, product) == Held(before, account, product)
  {
    if out.result.Ok? {
      AppendFrame(before, out.result.value, account, product);
    }
  }

  lemma UpgradeFrame(reg: Registry, order: IssueInput, env: IssueEnv, product: string, l: License, reg1: Registry)
    requires L.Inv(reg) && L.FreshIssue(reg, order, env) && order.thumbprint != "" && product != order.product
    requires Assigned(reg.licenses, order.thumbprint, order.product) == Some(l) && l.Active() && NeedsSocketUpgrade(order, l)
    requires reg1 == R.Apply(reg, R.SetLicenseStatus(l.key, Revoked))
    ensures Held(reg1.licenses, order.thumbprint, product) == Held(reg.licenses, order.thumbprint, product)
    ensures Held(Mint(reg1, order, env).reg.licenses, order.thumbprint, product) == Held(reg.licenses, order.thumbprint, product)
  {
    L.AssignedMeans(reg.licenses, order.thumbprint, order.product);
    RevokeFrame(reg, l, order.thumbprint, product);
    L.UpgradeMintKeepsInv(reg, order, env, l, reg1);
    MintFrame(reg1.licenses, Mint(reg1, order, env), order.thumbprint, product);
  }

  /** Issuing for one product leaves what the account holds for another one alone. */
  lemma IssueFramesOtherProducts(reg: Registry, order: IssueInput, env: IssueEnv, product: string)
    requires L.Inv(reg) && L.FreshIssue(reg, order, env) && product != order.product
    ensures Held(Issuing(reg, order, env).reg.licenses, order.thumbprint, product) == Held(reg.licenses, order.thumbprint, product)
  {
    if Find(reg.accounts, R.AccountKey, order.thumbprint).Some? {
      L.ApprovedAccountIsNamed(reg, order.thumbprint);
      L.AssignedMeans(reg.licenses, order.thumbprint, order.product);
      match Assigned(reg.licenses, order.thumbprint, order.product)
      case None =>
        L.MintKeepsInv(reg, order, env);
        MintFrame(reg.licenses, Mint(reg, order, env), order.thumbprint, product);
      case Some(l) =>
        if l.Active() && NeedsSocketUpgrade(order, l) {
          UpgradeFrame(reg, order, env, product, l, R.Apply(reg, R.SetLicenseStatus(l.key, Revoked)));
        }
    }
  }

  /** The key covers the sockets that the request asks for, if it asks for a number. */
  predicate Covers(key: string, product: string, req: OrderRequest) {
    product == "pve" && Atoi(req.sockets).Some? ==> Atoi(req.sockets).value <= KeySockets(key)
  }

  /** The subscription tells of the active license that its pair is assigned, whose valid
      lab key is for its product and covers the sockets of the request. */
  ghost predicate Current(reg: Registry, thumbprint: string, req: OrderRequest, s: Subscription) {
    var held := Assigned(reg.licenses, thumbprint, s.product);
    && held.Some? && held.value in reg.licenses && held.value.Active() && held.value.account == thumbprint
    && Tells(s, held.value)
    && ValidKey(s.key) && IsLabKey(s.key) && ParseKey(s.key).product == s.product && Covers(s.key, s.product, req)
  }

  ghost predicate AllCurrent(reg: Registry, thumbprint: string, req: OrderRequest, issued: seq<Subscription>) {
    forall i | 0 <= i < |issued| :: Current(reg, thumbprint, req, issued[i])
  }

  lemma IssueKeepsCurrent(reg: Registry, thumbprint: string, req: OrderRequest, product: string, env: IssueEnv, s: Subscription)
    requires L.Inv(reg) && L.FreshIssue(reg, OrderFor(thumbprint, req, product), env)
    requires Current(reg, thumbprint, req, s)
    ensures Current(Issuing(reg, OrderFor(thumbprint, req, product), env).reg, thumbprint, req, s)
  {
    if product != s.product {
      var after := Issuing(reg, OrderFor(thumbprint, req, product), env).reg;
      IssueFramesOtherProducts(reg, OrderFor(thumbprint, req, product), env, s.product);
      L.AssignedMeans(after.licenses, thumbprint, s.product);
    }
  }

  lemma IssuedIsCurrent(reg: Registry, thumbprint: string, req: OrderRequest, product: string, env: IssueEnv)
    requires L.Inv(reg) && L.FreshIssue(reg, OrderFor(thumbprint, req, product), env)
    requires Issuing(reg, OrderFor(thumbprint, req, product), env).result.Ok?
    ensures var out := Issuing(reg, OrderFor(thumbprint, req, product), env);
      Current(out.reg, thumbprint, req, SubscriptionOf(out.result.value))
  {
    L.IssuedKey(reg, OrderFor(thumbprint, req, product), env);
  }

  /** Every subscription an order returns tells of a license that is still the active one of
      the account and its product when the order ends, and whose key covers the sockets asked
      for; also when a product was named twice or another one failed. */
  lemma {:induction false} OrderedKeysStayActive(reg: Registry, thumbprint: string, req: OrderRequest, issue: nat -> IssueEnv, n: nat)
    requires n <= |req.products| && L.Inv(reg) && FreshOrders(reg, thumbprint, req, issue, n)
    ensures var d := Ordered(reg, thumbprint, req, issue, n);
      AllCurrent(d.reg, thumbprint, req, d.issued)
  {
    if n > 0 {
      OrderedKeysStayActive(reg, thumbprint, req, issue, n - 1);
      OrderKeepsInv(reg, thumbprint, req, issue, n - 1);
      var before := Ordered(reg, thumbprint, req, issue, n - 1);
      AllStayCurrent(before, thumbprint, req, req.products[n - 1], issue(n - 1));
      OrderedStep(reg, thumbprint, req, issue, n);
    }
  }

  /** One more product keeps all that was issued current, and adds its own key. */
  lemma AllStayCurrent(before: Progress, thumbprint: string, req: OrderRequest, product: string, env: IssueEnv)
    requires L.Inv(before.reg) && L.FreshIssue(before.reg, OrderFor(thumbprint, req, product), env)
    requires AllCurrent(before.reg, thumbprint, req, before.issued)
    ensures var out := Issuing(before.reg, OrderFor(thumbprint, req, product), env);
      var issued := before.issued + (if out.result.Ok? then [SubscriptionOf(out.result.value)] else []);
      AllCurrent(out.reg, thumbprint, req, issued)
  {
    var out := Issuing(before.reg, OrderFor(thumbprint, req, product), env);
    if out.result.Ok? {
      IssuedIsCurrent(before.reg, thumbprint, req, product, env);
    }
    forall i | 0 <= i < |before.issued| ensures Current(out.reg, thumbprint, req, before.issued[i]) {
      IssueKeepsCurrent(before.reg, thumbprint, req, product, env, before.issued[i]);
    }
  }

  /** Every active license was there at the origin, or was made for an account, a host, a
      level and a socket count. */
  ghost predicate KeptOrMade(origin: seq<License>, licenses: seq<License>, account: string, serverId: string, level: string, sockets: string) {
    forall l | l in licenses && l.Active() :: l in origin || L.MadeFor(l, account, serverId, level, sockets)
  }

  lemma MintKeepsOrMakes(origin: seq<License>, reg: Registry, order: IssueInput, env: IssueEnv)
    requires KeptOrMade(origin, reg.licenses, order.thumbprint, order.serverId, order.level, order.sockets)
    requires L.FreshIssue(reg, order, env)
    ensures KeptOrMade(origin, Mint(reg, order, env).reg.licenses, order.thumbprint, order.serverId, order.level, order.sockets)
  {
    L.MintAppends(reg, order, env);
    if Mint(reg, order, env).result.Ok? {
      L.MintIsMadeFor(reg, order, env);
    }
  }

  lemma UpgradeKeepsOrMakes(origin: seq<License>, reg: Registry, order: IssueInput, env: IssueEnv, key: string, reg1: Registry)
    requires KeptOrMade(origin, reg.licenses, order.thumbprint, order.serverId, order.level, order.sockets)
    requires L.FreshIssue(reg, order, env) && reg1 == R.Apply(reg, R.SetLicenseStatus(key, Revoked))
    ensures KeptOrMade(origin, reg1.licenses, order.thumbprint, order.serverId, order.level, order.sockets)
    ensures KeptOrMade(origin, Mint(reg1, order, env).reg.licenses, order.thumbprint, order.serverId, order.level, order.sockets)
  {
    L.RevokedStaysFresh(reg, key, order, env);
    MintKeepsOrMakes(origin, reg1, order, env);
  }

  lemma IssueKeepsOrMakes(origin: seq<License>, reg: Registry, order: IssueInput, env: IssueEnv)
    requires KeptOrMade(origin, reg.licenses, order.thumbprint, order.serverId, order.level, order.sockets)
    requires L.FreshIssue(reg, order, env)
    ensures KeptOrMade(origin, Issuing(reg, order, env).reg.licenses, order.thumbprint, order.serverId, order.level, order.sockets)
  {
    var current := Assigned(reg.licenses, order.thumbprint, order.product);
    if current.None? {
      MintKeepsOrMakes(origin, reg, order, env);
    } else {
      UpgradeKeepsOrMakes(origin, reg, order, env, current.value.key, R.Apply(reg, R.SetLicenseStatus(current.value.key, Revoked)));
    }
  }

  /** An order leaves no active license but those that were there before it and those it made
      for its account, host, level and sockets. */
  lemma {:induction false} OrderKeepsOrMakes(reg: Registry, thumbprint: string, req: OrderRequest, issue: nat -> IssueEnv, n: nat)
    requires n <= |req.products| && FreshOrders(reg, thumbprint, req, issue, n)
    ensures KeptOrMade(reg.licenses, Ordered(reg, thumbprint, req, issue, n).reg.licenses,
                       thumbprint, req.serverId, req.level, req.sockets)
  {
    if n > 0 {
      OrderKeepsOrMakes(reg, thumbprint, req, issue, n - 1);
      IssueKeepsOrMakes(reg.licenses, Ordered(reg, thumbprint, req, issue, n - 1).reg,
                        OrderFor(thumbprint, req, req.products[n - 1]), issue(n - 1));
      OrderedStep(reg, thumbprint, req, issue, n);
    }
  }

  /** Every requested product is known and its pair not barred by a revocation. */
  ghost predicate AllOpen(reg: Registry, thumbprint: string, req: OrderRequest) {
    forall i | 0 <= i < |req.products| :: L.Open(reg, thumbprint, req.products[i])
  }

  ghost predicate AllFavourable(reg: Registry, thumbprint: string, req: OrderRequest, issue: nat -> IssueEnv) {
    forall i: nat | i < |req.products| :: L.Favourable(reg, OrderFor(thumbprint, req, req.products[i]), issue(i))
  }

  lemma IssueKeepsOpen(reg: Registry, order: IssueInput, env: IssueEnv, product: string)
    requires L.Inv(reg) && L.FreshIssue(reg, order, env) && Issuing(reg, order, env).result.Ok?
    requires L.Open(reg, order.thumbprint, product)
    ensures L.Open(Issuing(reg, order, env).reg, order.thumbprint, product)
  {
    if product == order.product {
      L.IssuedKey(reg, order, env);
    } else {
      IssueFramesOtherProducts(reg, order, env, product);
    }
  }

  lemma FavourableIsAboutAccounts(reg: Registry, reg': Registry, order: IssueInput, env: IssueEnv)
    requires L.Favourable(reg, order, env) && reg'.accounts == reg.accounts
    ensures L.Favourable(reg', order, env)
  {
  }

  lemma {:induction false} FavourablePrefix(reg: Registry, thumbprint: string, req: OrderRequest, issue: nat -> IssueEnv, n: nat)
    requires n <= |req.products| && L.Inv(reg) && FreshOrders(reg, thumbprint, req, issue, n)
    requires AllOpen(reg, thumbprint, req) && AllFavourable(reg, thumbprint, req, issue)
    ensures var d := Ordered(reg, thumbprint, req, issue, n);
      && |d.issued| == n && AllOpen(d.reg, thumbprint, req) && d.reg.accounts == reg.accounts
  {
    if n > 0 {
      FavourablePrefix(reg, thumbprint, req, issue, n - 1);
      OrderKeepsInv(reg, thumbprint, req, issue, n - 1);
      OneMoreFavourable(reg, Ordered(reg, thumbprint, req, issue, n - 1).reg, thumbprint, req, issue, n - 1);
      OrderedStep(reg, thumbprint, req, issue, n);
    }
  }

  lemma OneMoreFavourable(reg: Registry, before: Registry, thumbprint: string, req: OrderRequest, issue: nat -> IssueEnv, i: nat)
    requires i < |req.products| && L.Inv(before) && before.accounts == reg.accounts
    requires AllOpen(before, thumbprint, req) && AllFavourable(reg, thumbprint, req, issue)
    requires L.FreshIssue(before, OrderFor(thumbprint, req, req.products[i]), issue(i))
    ensures var out := Issuing(before, OrderFor(thumbprint, req, req.products[i]), issue(i));
      out.result.Ok? && AllOpen(out.reg, thumbprint, req) && out.reg.accounts == reg.accounts
  {
    var order := OrderFor(thumbprint, req, req.products[i]);
    FavourableIsAboutAccounts(reg, before, order, issue(i));
    L.FavourableOrderSucceeds(before, order, issue(i));
    L.IssueLeavesAccounts(before, order, issue(i));
    var after := Issuing(before, order, issue(i)).reg;
    forall j | 0 <= j < |req.products| ensures L.Open(after, thumbprint, req.products[j]) {
      IssueKeepsOpen(before, order, issue(i), req.products[j]);
    }
  }

  /** An approved account that orders known products at a valid level and socket count,
      none of them revoked, gets a valid order: a key for every product named. */
  lemma ApprovedOrderIsValid(reg: Registry, thumbprint: string, req: OrderRequest, issue: nat -> IssueEnv)
    requires L.Inv(reg) && req.products != [] && FreshOrders(reg, thumbprint, req, issue, |req.products|)
    requires AllOpen(reg, thumbprint, req) && AllFavourable(reg, thumbprint, req, issue)
    ensures ValidOrder(Ordered(reg, thumbprint, req, issue, |req.products|))
    ensures |Ordered(reg, thumbprint, req, issue, |req.products|).issued| == |req.products|
  {
    var n := |req.products|;
    FavourablePrefix(reg, thumbprint, req, issue, n);
    var failed := OrderIsValidWhenAllIssued(reg, thumbprint, req, issue);
  }

  /** Every product of such an order is issued a key. */
  lemma EachProductIsIssued(reg: Registry, thumbprint: string, req: OrderRequest, issue: nat -> IssueEnv, product: string)
    requires L.Inv(reg) && FreshOrders(reg, thumbprint, req, issue, |req.products|)
    requires AllOpen(reg, thumbprint, req) && AllFavourable(reg, thumbprint, req, issue) && product in req.products
    ensures exists s :: s in Ordered(reg, thumbprint, req, issue, |req.products|).issued && s.product == product
  {
    var failed := OrderIsValidWhenAllIssued(reg, thumbprint, req, issue);
    ApprovedOrderIsValid(reg, thumbprint, req, issue);
    var d := Ordered(reg, thumbprint, req, issue, |req.products|);
    assert product in multiset(ProductsOf(d.issued));
    ProductIsIssued(d.issued, product);
  }

  lemma TierCoversHost(key: string, req: OrderRequest, n: int)
    requires ValidKey(key) && ParseKey(key).product == "pve" && Covers(key, "pve", req)
    requires req.sockets == PVESocketTier(n)
    ensures n <= KeySockets(key) <==> n <= 8
  {
    AtoiOfSocketDigit(req.sockets);
    PrintParse(key);
  }

  /** A host of n sockets that orders the tier chosen for it is issued a PVE key, and every
      one it is issued covers it exactly when it has at most eight sockets. */
  lemma HostIsCoveredByOrder(reg: Registry, thumbprint: string, req: OrderRequest, issue: nat -> IssueEnv, n: int, d: Progress)
    requires L.Inv(reg) && FreshOrders(reg, thumbprint, req, issue, |req.products|)
    requires AllOpen(reg, thumbprint, req) && AllFavourable(reg, thumbprint, req, issue)
    requires "pve" in req.products && req.sockets == PVESocketTier(n)
    requires d == Ordered(reg, thumbprint, req, issue, |req.products|)
    ensures exists s :: s in d.issued && s.product == "pve"
    ensures forall s | s in d.issued && s.product == "pve" :: n <= KeySockets(s.key) <==> n <= 8
  {
    EachProductIsIssued(reg, thumbprint, req, issue, "pve");
    OrderedKeysStayActive(reg, thumbprint, req, issue, |req.products|);
    forall s | s in d.issued && s.product == "pve" ensures n <= KeySockets(s.key) <==> n <= 8 {
      assert Current(d.reg, thumbprint, req, s);
      TierCoversHost(s.key, req, n);
    }
  }

  lemma {:induction false} ProductIsIssued(issued: seq<Subscription>, product: string)
    requires product in ProductsOf(issued)
    ensures exists s :: s in issued && s.product == product
  {
    var last := |issued| - 1;
    if issued[last].product != product {
      ProductIsIssued(issued[..last], product);
    }
  }

  // ----- accounts over the API -----

  /** A request for an account succeeds exactly when it embeds a key that is not empty and the
      disk works; then the key's id is on file with that key, for the host and contact of the
      request, and the reply tells its status. Otherwise nothing changes. */
  lemma NewAccountIsAnswered(pay: Payloads, reg: Registry, v: Verified, env: RequestEnv)
    ensures var (reg', reply) := Handled(pay, reg, NewAccount, v, env);
      var succeeds := v.jwk.Some? && v.thumbprint != "" && v.jwk.value.x != "" && env.write;
      var acc := Find(reg'.accounts, R.AccountKey, v.thumbprint);
      && (!succeeds ==> reg' == reg && reply == Problem(400))
      && (succeeds ==>
            && acc.Some? && acc.value.publicKey == v.jwk.value.x
            && acc.value.serverId == pay.account(v.payload).serverId && acc.value.contact == pay.account(v.payload).contact
            && reply == AccountReply(v.thumbprint, pay.account(v.payload).serverId, acc.value.status))
      && (succeeds && Find(reg.accounts, R.AccountKey, v.thumbprint).None? ==>
            acc.value.status == (if env.autoApprove then Approved else Pending))
  {
    var (reg', reply) := Handled(pay, reg, NewAccount, v, env);
    if reply.AccountReply? {
      var req := pay.account(v.payload);
      var acc := Registering(reg, v.thumbprint, v.jwk.value.x, req.serverId, req.contact, env.autoApprove, env.now, env.read, env.write).result.value;
      P.AccountAfter(reg, R.UpsertAccount(acc), v.thumbprint);
    }
  }

  // ----- listing over the API -----

  /** The positions of an account's licenses among the first n, in order. */
  ghost predicate OwnPositions(licenses: seq<License>, account: string, n: nat, at: seq<nat>)
    requires n <= |licenses|
  {
    && (forall k | 0 <= k < |at| :: at[k] < n && licenses[at[k]].account == account)
    && (forall j, k | 0 <= j < k < |at| :: at[j] < at[k])
    && (forall i: nat | i < n && licenses[i].account == account :: exists k :: 0 <= k < |at| && at[k] == i)
  }

  /** The subscriptions tell of the licenses at these positions, one by one. */
  ghost predicate TellOf(own: seq<Subscription>, licenses: seq<License>, at: seq<nat>) {
    |own| == |at| && forall k | 0 <= k < |at| :: at[k] < |licenses| && Tells(own[k], licenses[at[k]])
  }

  lemma NextPosition(licenses: seq<License>, account: string, n: nat, at: seq<nat>, after: seq<nat>)
    requires n < |licenses| && OwnPositions(licenses, account, n, at)
    requires after == if licenses[n].account == account then at + [n] else at
    ensures OwnPositions(licenses, account, n + 1, after)
  {
    forall i: nat | i < n + 1 && licenses[i].account == account ensures exists k :: 0 <= k < |after| && after[k] == i {
      if i < n {
        var k :| 0 <= k < |at| && at[k] == i;
        assert after[k] == i;
      } else {
        assert after[|at|] == i;
      }
    }
  }

  lemma OneMoreTold(own: seq<Subscription>, licenses: seq<License>, at: seq<nat>, n: nat)
    requires TellOf(own, licenses, at) && n < |licenses|
    ensures TellOf(own + [SubscriptionOf(licenses[n])], licenses, at + [n])
  {
  }

  /** The list tells of exactly the licenses the account owns, each once and in the order of
      the registry. */
  lemma {:induction false} ListedAreOwn(licenses: seq<License>, account: string, n: nat) returns (at: seq<nat>)
    requires n <= |licenses|
    ensures OwnPositions(licenses, account, n, at) && TellOf(OwnSubscriptions(licenses[..n], account), licenses, at)
  {
    at := [];
    if n > 0 {
      var before := ListedAreOwn(licenses, account, n - 1);
      assert licenses[..n][..n - 1] == licenses[..n - 1];
      at := if licenses[n - 1].account == account then before + [n - 1] else before;
      NextPosition(licenses, account, n - 1, before, at);
      OneMoreTold(OwnSubscriptions(licenses[..n - 1], account), licenses, before, n - 1);
    }
  }

  /** A list request changes nothing and is answered with that list when the disk works. */
  lemma ListIsAnswered(pay: Payloads, reg: Registry, v: Verified, env: RequestEnv) returns (at: seq<nat>)
    ensures OwnPositions(reg.licenses, v.thumbprint, |reg.licenses|, at)
    ensures var (reg', reply) := Handled(pay, reg, Subscriptions, v, env);
      && reg' == reg
      && (!env.read ==> reply == Problem(500))
      && (env.read ==> reply.ListReply? && TellOf(reply.subscriptions, reg.licenses, at))
  {
    at := ListedAreOwn(reg.licenses, v.thumbprint, |reg.licenses|);
    assert reg.licenses[..|reg.licenses|] == reg.licenses;
  }

  // ----- revoking over the API -----

  /** A revocation request leaves every license of another account as it was. */
  lemma RevokeTouchesOwnLicenseOnly(pay: Payloads, reg: Registry, v: Verified, env: RequestEnv, i: nat)
    requires Unique(reg.licenses, R.LicenseKey)
    requires i < |reg.licenses| && reg.licenses[i].account != v.thumbprint
    ensures var reg' := Handled(pay, reg, RevokeKey, v, env).0;
      |reg'.licenses| == |reg.licenses| && reg'.licenses[i] == reg.licenses[i]
  {
    L.UniqueIsFound(reg.licenses, reg.licenses[i]);
  }

  /** The account owns a license with this key. */
  ghost predicate Owns(reg: Registry, account: string, key: string) {
    exists i :: 0 <= i < |reg.licenses| && reg.licenses[i].key == key && reg.licenses[i].account == account
  }

  lemma OwnedIsFound(reg: Registry, account: string, key: string)
    requires Unique(reg.licenses, R.LicenseKey)
    ensures var found := Find(reg.licenses, R.LicenseKey, key);
      (found.Some? && found.value.account == account) <==> Owns(reg, account, key)
  {
    FindMeans(reg.licenses, R.LicenseKey, key);
    if i :| 0 <= i < |reg.licenses| && reg.licenses[i].key == key && reg.licenses[i].account == account {
      L.UniqueIsFound(reg.licenses, reg.licenses[i]);
    }
  }

  lemma RevokedIsFound(reg: Registry, key: string)
    requires Find(reg.licenses, R.LicenseKey, key).Some?
    ensures Find(R.Apply(reg, R.SetLicenseStatus(key, Revoked)).licenses, R.LicenseKey, key) ==
            Some(Find(reg.licenses, R.LicenseKey, key).value.(status := Revoked))
  {
    R.MutationRefinesMaps(reg, R.SetLicenseStatus(key, Revoked));
    FindIsLookup(reg.licenses, R.LicenseKey, key);
    FindIsLookup(R.Apply(reg, R.SetLicenseStatus(key, Revoked)).licenses, R.LicenseKey, key);
  }

  /** A revocation request succeeds exactly when it names a key the account owns and the
      disk works; then the key is dead, and otherwise nothing changed. */
  lemma RevokeTakesEffect(pay: Payloads, reg: Registry, v: Verified, env: RequestEnv)
    requires Unique(reg.licenses, R.LicenseKey)
    ensures var (reg', reply) := Handled(pay, reg, RevokeKey, v, env);
      var asked := pay.revoke(v.payload);
      var succeeds := asked.Some? && asked.value != "" && env.read && env.write && Owns(reg, v.thumbprint, asked.value);
      && (succeeds ==>
            && reply == RevokeReply(asked.value) && D.Dead(reg', asked.value)
            && Find(reg'.licenses, R.LicenseKey, asked.value) ==
               Some(Find(reg.licenses, R.LicenseKey, asked.value).value.(status := Revoked)))
      && (!succeeds ==> reg' == reg && reply == Problem(
            if asked.None? || asked.value == "" then 400
            else if env.read && !Owns(reg, v.thumbprint, asked.value) then 403
            else 500))
  {
    var asked := pay.revoke(v.payload);
    if asked.Some? {
      OwnedIsFound(reg, v.thumbprint, asked.value);
      FindMeans(reg.licenses, R.LicenseKey, asked.value);
      if Find(reg.licenses, R.LicenseKey, asked.value).Some? {
        D.RevokedIsDead(reg, asked.value);
        RevokedIsFound(reg, asked.value);
      }
    }
  }
}
