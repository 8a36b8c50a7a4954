/** A request whose steps meet no interference is exactly the request as the handlers
    perform it in one piece: each lemma takes the request through some of its steps (its
    checks, a registration, a list, a revocation, the products of an order one after the
    other, its answer), says which state they lead to, and leaves the nonces alone until
    the nonce check and the answer. */
module RequestSteps {
  import opened Wrappers
  import opened Records
  import R = Registries
  import opened Services
  import opened Jws
  import Nonces
  import C = ConcurrentOrders
  import opened Api
  import opened ApiRuns
  import W = OrderSheets

  /** n moves lead from one state to the other. */
  ghost predicate Reach<S(!new)>(move: (S, S) -> bool, n: nat, s: S, s': S)
    decreases n
  {
    if n == 0 then s == s' else exists s1: S :: move(s, s1) && Reach(move, n - 1, s1, s')
  }

  lemma {:induction false} ReachThen<S(!new)>(move: (S, S) -> bool, n: nat, s: S, s1: S, m: nat, s2: S)
    requires Reach(move, n, s, s1) && Reach(move, m, s1, s2)
    ensures Reach(move, n + m, s, s2)
    decreases n
  {
    if n > 0 {
      var next: S :| move(s, next) && Reach(move, n - 1, next, s1);
      ReachThen(move, n - 1, next, s1, m, s2);
    }
  }

  lemma ReachOne<S(!new)>(move: (S, S) -> bool, s: S, s': S)
    requires move(s, s')
    ensures Reach(move, 1, s, s')
  {
    assert Reach(move, 0, s', s');
  }

  /** The request makes its next step. */
  predicate Moves(c: Setup, r: nat, env: RequestEnv, s: State, s': State) {
    && r in s.requests && !s.requests[r].Replied?
    && (s.requests[r].Handling? && s.requests[r].job.Ordering? ==> r in s.core.orders && !s.core.orders[r].phase.Ended?)
    && Enabled(s, NextStep(s, r, env))
    && s' == Next(c, s, NextStep(s, r, env))
  }

  function Mover(c: Setup, r: nat, env: RequestEnv): (State, State) -> bool {
    (s, s') => Moves(c, r, env, s, s')
  }

  /** The state after the next n steps of one request. */
  ghost predicate Reaches(c: Setup, s: State, r: nat, env: RequestEnv, n: nat, s': State) {
    Reach(Mover(c, r, env), n, s, s')
  }

  lemma ReachesThen(c: Setup, s: State, r: nat, env: RequestEnv, n: nat, s1: State, m: nat, s2: State)
    requires Reaches(c, s, r, env, n, s1) && Reaches(c, s1, r, env, m, s2)
    ensures Reaches(c, s, r, env, n + m, s2)
  {
    ReachThen(Mover(c, r, env), n, s, s1, m, s2);
  }

  lemma OneStep(c: Setup, s: State, r: nat, env: RequestEnv, s': State)
    requires Moves(c, r, env, s, s')
    ensures Reaches(c, s, r, env, 1, s')
  {
    ReachOne(Mover(c, r, env), s, s');
  }

  // ----- orders -----

  /** The request is at product i of an order, which is in the given phase. */
  ghost predicate AtProduct(s: State, r: nat, body: Octets, v: Verified, req: OrderRequest, i: nat, d: Tallied, phase: C.Phase) {
    && i < |req.products| && !phase.Ended?
    && r in s.requests && s.requests[r] == Handling(body, v, Ordering(req, i, d))
    && r in s.core.orders && s.core.orders[r] == C.Order(OrderFor(v.thumbprint, req, req.products[i]), phase)
  }

  /** Where the request is once product i has this outcome. */
  ghost predicate PastProduct(s: State, r: nat, body: Octets, v: Verified, req: OrderRequest, i: nat, d: Tallied)
    requires i < |req.products|
  {
    if i + 1 < |req.products| then AtProduct(s, r, body, v, req, i + 1, d, C.Called)
    else r in s.requests && s.requests[r] == Replying(Reported(s.core.reg, req, d))
  }

  lemma OneAccess(c: Setup, s: State, r: nat, env: RequestEnv, body: Octets, v: Verified,
                  req: OrderRequest, i: nat, d: Tallied, phase: C.Phase, access: C.Access) returns (s': State)
    requires AtProduct(s, r, body, v, req, i, d, phase) && access == C.NextAccess(phase, env.issue(i))
    ensures Reaches(c, s, r, env, 1, s') && s'.books.table == s.books.table
    ensures var (reg1, phase1) := C.After(s.core.reg, OrderFor(v.thumbprint, req, req.products[i]), phase, access);
      && s'.core.reg == reg1
      && if phase1.Ended? then PastProduct(s', r, body, v, req, i, TalliedWith(d, req.products[i], phase1.result))
         else AtProduct(s', r, body, v, req, i, d, phase1)
  {
    s' := Next(c, s, Order(r, access));
    assert NextStep(s, r, env) == Order(r, access);
    OneStep(c, s, r, env, s');
  }

  /** After one more access of a product that will have the outcome out, it has it, or will. */
  lemma AccessGoesOn(c: Setup, s: State, r: nat, env: RequestEnv, body: Octets, v: Verified, req: OrderRequest, i: nat,
                     d: Tallied, phase: C.Phase, out: Outcome<License>) returns (s': State, phase': C.Phase)
    requires AtProduct(s, r, body, v, req, i, d, phase)
    requires out == C.Finished(s.core.reg, OrderFor(v.thumbprint, req, req.products[i]), phase, env.issue(i))
    ensures Reaches(c, s, r, env, 1, s') && s'.books.table == s.books.table && C.Rank(phase') < C.Rank(phase)
    ensures if phase'.Ended? then
              s'.core.reg == out.reg && PastProduct(s', r, body, v, req, i, TalliedWith(d, req.products[i], out.result))
            else
              && AtProduct(s', r, body, v, req, i, d, phase')
              && out == C.Finished(s'.core.reg, OrderFor(v.thumbprint, req, req.products[i]), phase', env.issue(i))
  {
    var order := OrderFor(v.thumbprint, req, req.products[i]);
    var access := C.NextAccess(phase, env.issue(i));
    C.RankFalls(s.core.reg, order, phase, access);
    C.FinishedAfter(s.core.reg, order, phase, env.issue(i));
    phase' := C.After(s.core.reg, order, phase, access).1;
    s' := OneAccess(c, s, r, env, body, v, req, i, d, phase, access);
  }

  lemma {:induction false} ProductFinishes(c: Setup, s: State, r: nat, env: RequestEnv, body: Octets, v: Verified,
                                           req: OrderRequest, i: nat, d: Tallied, phase: C.Phase, out: Outcome<License>)
    returns (n: nat, s': State)
    requires AtProduct(s, r, body, v, req, i, d, phase)
    requires out == C.Finished(s.core.reg, OrderFor(v.thumbprint, req, req.products[i]), phase, env.issue(i))
    ensures Reaches(c, s, r, env, n, s') && s'.books.table == s.books.table
    ensures s'.core.reg == out.reg && PastProduct(s', r, body, v, req, i, TalliedWith(d, req.products[i], out.result))
    decreases C.Rank(phase)
  {
    var s1, phase1 := AccessGoesOn(c, s, r, env, body, v, req, i, d, phase, out);
    if phase1.Ended? {
      return 1, s1;
    }
    n, s' := ProductFinishes(c, s1, r, env, body, v, req, i, d, phase1, out);
    ReachesThen(c, s, r, env, 1, s1, n, s');
    n := 1 + n;
  }

  function TalliedOf(d: Progress): Tallied {
    Tallied(d.issued, d.pending, d.problems)
  }

  lemma AdvancedTally(d: Progress, product: string, out: Outcome<License>)
    ensures TalliedOf(Advanced(d, product, out)) == TalliedWith(TalliedOf(d), product, out.result)
    ensures Advanced(d, product, out).reg == out.reg
  {
  }

  /** The request is at product i of an order that has come to d. */
  ghost predicate InOrder(s: State, r: nat, body: Octets, v: Verified, req: OrderRequest, i: nat, d: Progress)
    requires i <= |req.products|
  {
    && s.core.reg == d.reg
    && if i < |req.products| then AtProduct(s, r, body, v, req, i, TalliedOf(d), C.Called)
       else r in s.requests && s.requests[r] == Replying(Reported(d.reg, req, TalliedOf(d)))
  }

  /** One more product of an order that has come to d. */
  lemma OneMoreProduct(c: Setup, s: State, r: nat, env: RequestEnv, body: Octets, v: Verified, req: OrderRequest, i: nat,
                       d: Progress, out: Outcome<License>) returns (n: nat, s': State)
    requires i < |req.products| && InOrder(s, r, body, v, req, i, d)
    requires out == C.Finished(d.reg, OrderFor(v.thumbprint, req, req.products[i]), C.Called, env.issue(i))
    ensures Reaches(c, s, r, env, n, s') && s'.books.table == s.books.table
    ensures InOrder(s', r, body, v, req, i + 1, Advanced(d, req.products[i], out))
  {
    AdvancedTally(d, req.products[i], out);
    n, s' := ProductFinishes(c, s, r, env, body, v, req, i, TalliedOf(d), C.Called, out);
  }

  lemma NextProductReached(c: Setup, s: State, r: nat, env: RequestEnv, n1: nat, s1: State, body: Octets, v: Verified,
                           req: OrderRequest, i: nat, d: Progress, out: Outcome<License>) returns (n: nat, s': State)
    requires Reaches(c, s, r, env, n1, s1)
    requires i < |req.products| && InOrder(s1, r, body, v, req, i, d)
    requires out == C.Finished(d.reg, OrderFor(v.thumbprint, req, req.products[i]), C.Called, env.issue(i))
    ensures Reaches(c, s, r, env, n, s') && s'.books.table == s1.books.table
    ensures InOrder(s', r, body, v, req, i + 1, Advanced(d, req.products[i], out))
  {
    n, s' := OneMoreProduct(c, s1, r, env, body, v, req, i, d, out);
    ReachesThen(c, s, r, env, n1, s1, n, s');
    n := n1 + n;
  }

  /** An order alone comes to product i as the handler's loop does. */
  lemma {:induction false} ProductsReached(c: Setup, s: State, r: nat, env: RequestEnv, body: Octets, v: Verified,
                                           req: OrderRequest, ds: seq<Progress>, outs: seq<Outcome<License>>, i: nat)
    returns (n: nat, s': State)
    requires i <= |outs| == |req.products| && W.Sheet(v.thumbprint, req, env.issue, ds, outs)
    requires InOrder(s, r, body, v, req, 0, ds[0])
    ensures Reaches(c, s, r, env, n, s') && s'.books.table == s.books.table && InOrder(s', r, body, v, req, i, ds[i])
  {
    if i == 0 {
      n, s' := 0, s;
      assert Reach(Mover(c, r, env), 0, s, s);
    } else {
      var n1, s1 := ProductsReached(c, s, r, env, body, v, req, ds, outs, i - 1);
      n, s' := NextProductReached(c, s, r, env, n1, s1, body, v, req, i - 1, ds[i - 1], outs[i - 1]);
    }
  }

  // ----- the handlers -----

  /** The request has its reply, and the handler did this to the registry. */
  ghost predicate Decides(s: State, r: nat, reg: Registry, reply: Reply) {
    r in s.requests && s.requests[r] == Replying(reply) && s.core.reg == reg
  }

  lemma StoreAlone(c: Setup, s: State, r: nat, env: RequestEnv, body: Octets, v: Verified, job: Job) returns (s': State)
    requires r in s.requests && s.requests[r] == Handling(body, v, job) && (job.Storing? || job.Revoking?)
    ensures Reaches(c, s, r, env, 1, s') && s'.books.table == s.books.table
    ensures Decides(s', r, if env.write then R.Apply(s.core.reg, Committed(job)) else s.core.reg, Stored(job, env.write).reply)
  {
    s' := Next(c, s, Store(r, env.write));
    OneStep(c, s, r, env, s');
  }

  lemma LookAlone(c: Setup, s: State, r: nat, env: RequestEnv, body: Octets, v: Verified, job: Job) returns (n: nat, s': State)
    requires r in s.requests && s.requests[r] == Handling(body, v, job)
    requires (job.Registering? && v.jwk.Some?) || job.Listing? || job.Finding?
    ensures Reaches(c, s, r, env, n, s') && s'.books.table == s.books.table && r in s'.requests
    ensures var stage := Looked(s.core.reg, body, v, job, env.read, env.autoApprove, env.now);
      if stage.Replying? then Decides(s', r, s.core.reg, stage.reply)
      else
        && stage.Handling? && (stage.job.Storing? || stage.job.Revoking?)
        && Decides(s', r, if env.write then R.Apply(s.core.reg, Committed(stage.job)) else s.core.reg, Stored(stage.job, env.write).reply)
  {
    var stage := Looked(s.core.reg, body, v, job, env.read, env.autoApprove, env.now);
    var s1 := Next(c, s, Look(r, env.read, env.autoApprove, env.now));
    OneStep(c, s, r, env, s1);
    n, s' := 1, s1;
    if stage.Handling? {
      s' := StoreAlone(c, s1, r, env, body, v, stage.job);
      ReachesThen(c, s, r, env, 1, s1, 1, s');
      n := 2;
    }
  }

  /** From the start of its handler to its reply, a request alone is the handler. */
  lemma HandlerAlone(c: Setup, s: State, r: nat, env: RequestEnv, endpoint: Endpoint, body: Octets, v: Verified)
    returns (n: nat, s': State)
    requires r in s.requests && s.requests[r] == Started(c.pay, endpoint, body, v)
    requires s.requests[r].Handling? && s.requests[r].job.Ordering? ==>
      && r in s.core.orders
      && s.core.orders[r] == C.Order(OrderFor(v.thumbprint, s.requests[r].job.order, s.requests[r].job.order.products[0]), C.Called)
    ensures Reaches(c, s, r, env, n, s') && s'.books.table == s.books.table
    ensures var (reg', reply) := Handled(c.pay, s.core.reg, endpoint, v, env);
      Decides(s', r, reg', reply)
  {
    var x := s.requests[r];
    if x.Replying? {
      n, s' := 0, s;
      assert Reach(Mover(c, r, env), 0, s, s);
    } else if x.job.Ordering? {
      var req := x.job.order;
      var ds, outs := W.SheetOf(s.core.reg, v.thumbprint, req, env.issue, |req.products|);
      n, s' := ProductsReached(c, s, r, env, body, v, req, ds, outs, |req.products|);
    } else {
      n, s' := LookAlone(c, s, r, env, body, v, x.job);
    }
  }

  lemma CoreStartedCalls(core: C.State, r: nat, stage: Stage)
    requires r !in core.orders
    requires stage.Handling? && stage.job.Ordering? ==> stage.job.order.products != []
    ensures CoreStarted(core, r, stage).reg == core.reg
    ensures stage.Handling? && stage.job.Ordering? ==>
      var core' := CoreStarted(core, r, stage);
      && r in core'.orders
      && core'.orders[r] == C.Order(OrderFor(stage.v.thumbprint, stage.job.order, stage.job.order.products[0]), C.Called)
  {
  }

  lemma StartedOrders(pay: Payloads, endpoint: Endpoint, body: Octets, v: Verified)
    ensures var stage := Started(pay, endpoint, body, v);
      && (stage.Replying? || stage.Handling?)
      && (stage.Handling? ==> stage.v == v && stage.body == body)
      && (stage.Handling? && stage.job.Ordering? ==> stage.job.order.products != [])
  {
  }

  lemma AdmittedAlone(c: Setup, s: State, r: nat, env: RequestEnv, endpoint: Endpoint, body: Octets, v: Verified)
    returns (n: nat, s': State)
    requires r in s.requests && s.requests[r] == Checked(endpoint, body, v) && r !in s.core.orders
    ensures Reaches(c, s, r, env, n, s')
    ensures var (reg', t', reply) := Continued(c.pay, s.core.reg, s.books.table, endpoint, v, env);
      Decides(s', r, reg', reply) && s'.books.table == t'
  {
    var s1 := Next(c, s, UseNonce(r, env.useAt));
    OneStep(c, s, r, env, s1);
    n, s' := 1, s1;
    if Nonces.Valid(s.books.table, v.header.nonce, env.useAt) {
      StartedOrders(c.pay, endpoint, body, v);
      CoreStartedCalls(s.core, r, Started(c.pay, endpoint, body, v));
      n, s' := HandlerAlone(c, s1, r, env, endpoint, body, v);
      ReachesThen(c, s, r, env, 1, s1, n, s');
      n := 1 + n;
    }
  }

  lemma CheckAlone(c: Setup, s: State, r: nat, env: RequestEnv, endpoint: Endpoint, raw: Option<Octets>, url: string)
    returns (s': State)
    requires r in s.requests && s.requests[r] == Received(endpoint, raw, url)
    ensures Reaches(c, s, r, env, 1, s')
    ensures s'.core == s.core && s'.books.table == s.books.table && r in s'.requests
    ensures s'.requests[r] ==
      match CheckedRequest(c.p, s.core.reg, raw, url, env.kidRead)
      case Err(e) => Replying(Problem(RefusalCode(e)))
      case Ok(v) => Checked(endpoint, raw.value, v)
  {
    s' := Next(c, s, Check(r, env.kidRead));
    OneStep(c, s, r, env, s');
  }

  lemma AnswerAlone(c: Setup, s: State, r: nat, env: RequestEnv) returns (s': State)
    requires r in s.requests && s.requests[r].Replying? && env.collectAt <= env.issueAt
    ensures Reaches(c, s, r, env, 1, s')
    ensures s'.core == s.core && s'.books.table == WithFreshNonce(s.books.table, env, c.ttl)
    ensures r in s'.requests && s'.requests[r] == Replied(s.requests[r].reply)
  {
    s' := Next(c, s, Answer(r, Draw(env.nonce, env.collectAt, env.issueAt)));
    OneStep(c, s, r, env, s');
  }

  /** The two ways a request is answered: at its checks, or from its nonce on. */
  lemma AnsweredCases(p: Primitives, pay: Payloads, reg: Registry, t: Nonces.Table, endpoint: Endpoint,
                      raw: Option<Octets>, url: string, env: RequestEnv)
    ensures Answered(p, pay, reg, t, endpoint, raw, url, env) ==
      match CheckedRequest(p, reg, raw, url, env.kidRead)
      case Err(e) => (reg, t, Problem(RefusalCode(e)))
      case Ok(v) => Continued(pay, reg, t, endpoint, v, env)
  {
  }

  /** The registry, the nonces and the reply that a checked request leaves. */
  function Continued(pay: Payloads, reg: Registry, t: Nonces.Table, endpoint: Endpoint, v: Verified, env: RequestEnv)
    : (Registry, Nonces.Table, Reply)
  {
    var (t', verdict) := NonceChecked(t, v, env.useAt);
    if verdict.Ok? then
      var (reg', reply) := Handled(pay, reg, endpoint, v, env);
      (reg', t', reply)
    else (reg, t', Problem(RefusalCode(BadNonce)))
  }

  lemma DecidedAlone(c: Setup, s: State, r: nat, env: RequestEnv, endpoint: Endpoint, raw: Option<Octets>, url: string)
    returns (n: nat, s': State)
    requires r in s.requests && s.requests[r] == Received(endpoint, raw, url) && r !in s.core.orders
    ensures Reaches(c, s, r, env, n, s')
    ensures var (reg', t', reply) := Answered(c.p, c.pay, s.core.reg, s.books.table, endpoint, raw, url, env);
      Decides(s', r, reg', reply) && s'.books.table == t'
  {
    AnsweredCases(c.p, c.pay, s.core.reg, s.books.table, endpoint, raw, url, env);
    var s1 := CheckAlone(c, s, r, env, endpoint, raw, url);
    n, s' := 1, s1;
    if s1.requests[r].Checked? {
      n, s' := AdmittedAlone(c, s1, r, env, endpoint, raw.value, s1.requests[r].v);
      ReachesThen(c, s, r, env, 1, s1, n, s');
      n := 1 + n;
    }
  }

  /** A request whose steps nothing interrupts leaves the registry, the nonces and the reply
      that its handler specifies, fresh nonce included. */
  lemma RequestAlone(c: Setup, s: State, r: nat, env: RequestEnv, endpoint: Endpoint, raw: Option<Octets>, url: string)
    returns (n: nat, s': State)
    requires r in s.requests && s.requests[r] == Received(endpoint, raw, url) && r !in s.core.orders
    requires env.collectAt <= env.issueAt
    ensures Reaches(c, s, r, env, n, s')
    ensures var (reg', t', reply) := Answered(c.p, c.pay, s.core.reg, s.books.table, endpoint, raw, url, env);
      && s'.core.reg == reg' && s'.books.table == WithFreshNonce(t', env, c.ttl)
      && r in s'.requests && s'.requests[r] == Replied(reply)
  {
    var m, s1 := DecidedAlone(c, s, r, env, endpoint, raw, url);
    s' := AnswerAlone(c, s1, r, env);
    ReachesThen(c, s, r, env, m, s1, 1, s');
    n := m + 1;
  }
}
