/** Orders as the program runs them: each one is up to four accesses to the store, and any
    number of orders are interleaved with each other and with every other transaction. */
module ConcurrentOrders {
  import opened Wrappers
  import opened Records
  import opened KeyedLists
  import opened Keys
  import R = Registries
  import opened Services
  import L = Lifecycle
  import D = Revocations

  // ----- one order, access by access -----

  datatype Phase =
    | Called
    | Cleared                          // the account is approved
    | Replacing(small: License)          // the active key it read covers too few sockets
    | Minting(prior: Option<License>)    // it read no key, or has revoked the one it read
    | Ended(result: Result<License, ServiceError>)

  datatype Access =
    | ReadAccount(read: bool)
    | ReadList(read: bool)
    | RevokeOld(write: bool)
    | AddNew(entropy: Option<Entropy>, now: Moment, write: bool)

  /** The access an order in this phase makes next. */
  predicate Follows(phase: Phase, access: Access) {
    match phase
    case Called => access.ReadAccount?
    case Cleared => access.ReadList?
    case Replacing(_) => access.RevokeOld?
    case Minting(_) => access.AddNew?
    case Ended(_) => false
  }

  /** The surroundings of a key being minted. */
  function MintEnv(entropy: Option<Entropy>, now: Moment, write: bool): IssueEnv {
    IssueEnv(entropy, now, true, true, true, write)
  }

  function Decided(licenses: seq<License>, order: IssueInput): Phase {
    match Assigned(licenses, order.thumbprint, order.product)
    case None => Minting(None)
    case Some(l) =>
      if !l.Active() then Ended(Err(SubscriptionRevoked))
      else if !NeedsSocketUpgrade(order, l) then Ended(Ok(l))
      else Replacing(l)
  }

  function After(reg: Registry, order: IssueInput, phase: Phase, access: Access): (Registry, Phase)
    requires Follows(phase, access)
  {
    match access
    case ReadAccount(read) =>
      if !ProductCode(order.product) then (reg, Ended(Err(ServiceError.UnknownProduct)))
      else if !read then (reg, Ended(Err(StoreFailed)))
      else
        var acc := Find(reg.accounts, R.AccountKey, order.thumbprint);
        (reg, if acc.None? || acc.value.status != Approved then Ended(Err(AccountNotApproved)) else Cleared)
    case ReadList(read) =>
      (reg, if !read then Ended(Err(StoreFailed)) else Decided(reg.licenses, order))
    case RevokeOld(write) =>
      if !write then (reg, Ended(Err(StoreFailed)))
      else (R.Apply(reg, R.SetLicenseStatus(phase.small.key, Revoked)), Minting(Some(phase.small)))
    case AddNew(entropy, now, write) =>
      var out := Mint(reg, order, MintEnv(entropy, now, write));
      (out.reg, Ended(out.result))
  }

  function Rank(phase: Phase): nat {
    match phase
    case Called => 4
    case Cleared => 3
    case Replacing(_) => 2
    case Minting(_) => 1
    case Ended(_) => 0
  }

  /** The access an order makes next when its surroundings are env. */
  function NextAccess(phase: Phase, env: IssueEnv): Access
    requires !phase.Ended?
    ensures Follows(phase, NextAccess(phase, env))
  {
    match phase
    case Called => ReadAccount(env.accountRead)
    case Cleared => ReadList(env.listRead)
    case Replacing(_) => RevokeOld(env.revokeWrite)
    case Minting(_) => AddNew(env.entropy, env.now, env.addWrite)
  }

  lemma RankFalls(reg: Registry, order: IssueInput, phase: Phase, access: Access)
    requires Follows(phase, access)
    ensures Rank(After(reg, order, phase, access).1) < Rank(phase)
  {
  }

  /** An order that goes on from a phase without interference. */
  function Finished(reg: Registry, order: IssueInput, phase: Phase, env: IssueEnv): Outcome<License>
    decreases Rank(phase)
  {
    if phase.Ended? then Outcome(reg, phase.result)
    else
      RankFalls(reg, order, phase, NextAccess(phase, env));
      var (reg', phase') := After(reg, order, phase, NextAccess(phase, env));
      Finished(reg', order, phase', env)
  }

  lemma FinishedAfter(reg: Registry, order: IssueInput, phase: Phase, env: IssueEnv)
    requires !phase.Ended?
    ensures var (reg', phase') := After(reg, order, phase, NextAccess(phase, env));
      && Finished(reg, order, phase, env) == Finished(reg', order, phase', env)
      && (phase'.Ended? ==> Finished(reg, order, phase, env) == Outcome(reg', phase'.result))
  {
    RankFalls(reg, order, phase, NextAccess(phase, env));
  }

  lemma MintingFinishes(reg: Registry, order: IssueInput, prior: Option<License>, env: IssueEnv)
    ensures Finished(reg, order, Minting(prior), env) == Mint(reg, order, env)
  {
    var out := Mint(reg, order, env);
    assert Finished(out.reg, order, Ended(out.result), env) == out;
  }

  lemma DecidedFinishes(reg: Registry, order: IssueInput, env: IssueEnv)
    requires Find(reg.accounts, R.AccountKey, order.thumbprint).Some?
    requires Find(reg.accounts, R.AccountKey, order.thumbprint).value.status == Approved
    requires ProductCode(order.product) && env.accountRead && env.listRead
    ensures Finished(reg, order, Decided(reg.licenses, order), env) == Issuing(reg, order, env)
  {
    match Decided(reg.licenses, order)
    case Minting(prior) => MintingFinishes(reg, order, prior, env);
    case Replacing(l) =>
      var reg1 := R.Apply(reg, R.SetLicenseStatus(l.key, Revoked));
      MintingFinishes(reg1, order, Some(l), env);
    case Ended(_) =>
  }

  /** An order without interference is exactly the issuing operation. */
  lemma AloneIsIssuing(reg: Registry, order: IssueInput, env: IssueEnv)
    ensures Finished(reg, order, Called, env) == Issuing(reg, order, env)
  {
    var phase := After(reg, order, Called, ReadAccount(env.accountRead)).1;
    if phase == Cleared {
      if env.listRead {
        DecidedFinishes(reg, order, env);
      }
    }
  }

  // ----- many orders -----

  datatype Order = Order(input: IssueInput, phase: Phase)

  /** disturbed is a history: the orders for whose pair another order has added a key
      since they read the list. */
  datatype State = State(reg: Registry, orders: map<nat, Order>, disturbed: set<nat>)

  datatype Event =
    | Call(o: nat, input: IssueInput)
    | Advance(o: nat, access: Access)
    | Other(m: R.Mutation)

  /** The transactions of everything but orders: what the service stores by hand, by
      registration, by contacts and by revocation, and what operators do. */
  predicate OtherTransaction(m: R.Mutation) {
    match m
    case AddLicense(l) => l.account == "" && IsLabKey(l.key)
    case SetLicenseStatus(_, st) => st == Revoked
    case UpsertAccount(acc) => acc.thumbprint != ""
    case _ => true
  }

  predicate Enabled(s: State, e: Event) {
    match e
    case Call(o, _) => o in s.orders ==> s.orders[o].phase.Ended?
    case Advance(o, access) => o in s.orders && Follows(s.orders[o].phase, access)
    case Other(m) => OtherTransaction(m)
  }

  /** Between its reading of the list and its adding of a key. */
  predicate Open(phase: Phase) {
    phase.Replacing? || phase.Minting?
  }

  predicate SamePair(a: IssueInput, b: IssueInput) {
    a.thumbprint == b.thumbprint && a.product == b.product
  }

  /** The event stores a new key. */
  predicate Adds(s: State, e: Event)
    requires Enabled(s, e)
  {
    && e.Advance? && e.access.AddNew?
    && After(s.reg, s.orders[e.o].input, s.orders[e.o].phase, e.access).1.result.Ok?
  }

  function Rivals(s: State, o: nat): set<nat>
    requires o in s.orders
  {
    set p | p in s.orders && p != o && Open(s.orders[p].phase) && SamePair(s.orders[p].input, s.orders[o].input)
  }

  function Next(s: State, e: Event): State
    requires Enabled(s, e)
  {
    match e
    case Call(o, input) => s.(orders := s.orders[o := Order(input, Called)])
    case Advance(o, access) =>
      var (reg, phase) := After(s.reg, s.orders[o].input, s.orders[o].phase, access);
      State(reg, s.orders[o := Order(s.orders[o].input, phase)],
            s.disturbed - (if access.ReadList? then {o} else {}) + (if Adds(s, e) then Rivals(s, o) else {}))
    case Other(m) => s.(reg := R.Apply(s.reg, m))
  }

  /** The random suffix of a key about to be added repeats no stored key. */
  ghost predicate Fresh(s: State, e: Event)
    requires Enabled(s, e)
  {
    e.Advance? && e.access.AddNew? ==>
      L.FreshIssue(s.reg, s.orders[e.o].input, MintEnv(e.access.entropy, e.access.now, e.access.write))
  }

  // ----- the exact condition at each added key -----

  /** Adding a fresh key keeps the lifecycle invariant exactly when everything its pair
      holds is inactive and covers fewer sockets. */
  lemma AddKeepsInvIff(reg: Registry, order: IssueInput, env: IssueEnv)
    requires L.Inv(reg) && order.thumbprint != "" && L.FreshIssue(reg, order, env)
    requires Mint(reg, order, env).result.Ok?
    ensures L.Inv(Mint(reg, order, env).reg) <==>
      L.Superseded(reg.licenses, order.thumbprint, order.product, Mint(reg, order, env).result.value.key)
  {
    L.MintServes(reg, order, env);
    var l := Mint(reg, order, env).result.value;
    L.MintAppends(reg, order, env);
    if L.Superseded(reg.licenses, order.thumbprint, order.product, l.key) {
      L.MintKeepsInv(reg, order, env);
    } else {
      NotSupersededBreaks(reg.licenses, l);
    }
  }

  lemma NotSupersededBreaks(licenses: seq<License>, l: License)
    requires l.account != "" && !L.Superseded(licenses, l.account, l.product, l.key)
    ensures !L.TierOrdered(licenses + [l])
  {
    var i :| 0 <= i < |licenses| && OwnedBy(licenses[i], l.account, l.product) &&
             !(!licenses[i].Active() && KeySockets(licenses[i].key) < KeySockets(l.key));
    var r := licenses + [l];
    assert L.SamePair(r[i], r[|licenses|]);
  }

  // ----- what other transactions do to a pair -----

  /** Every license of the pair afterwards was one before, and none became active. */
  ghost predicate Weakens(before: seq<License>, after: seq<License>, account: string, product: string) {
    forall i | 0 <= i < |after| && OwnedBy(after[i], account, product) ::
      exists j :: 0 <= j < |before| && OwnedBy(before[j], account, product) &&
                  before[j].key == after[i].key && (after[i].Active() ==> before[j].Active())
  }

  lemma UpsertOtherWeakens(licenses: seq<License>, l: License, account: string, product: string)
    requires !OwnedBy(l, account, product)
    ensures Weakens(licenses, Upsert(licenses, R.LicenseKey, l), account, product)
  {
    var p := UpsertShape(licenses, R.LicenseKey, l);
    var r := Upsert(licenses, R.LicenseKey, l);
    forall i | 0 <= i < |r| && OwnedBy(r[i], account, product)
      ensures exists j :: 0 <= j < |licenses| && OwnedBy(licenses[j], account, product) &&
                          licenses[j].key == r[i].key && (r[i].Active() ==> licenses[j].Active())
    {
      assert r[i] == licenses[i];
    }
  }

  lemma UpdateWeakens(licenses: seq<License>, k: string, f: License -> License, account: string, product: string)
    requires forall l: License :: f(l).key == l.key && f(l).account == l.account && f(l).product == l.product
    requires forall l: License :: f(l).Active() ==> l.Active()
    ensures Weakens(licenses, Update(licenses, R.LicenseKey, k, f), account, product)
  {
    var r := Update(licenses, R.LicenseKey, k, f);
    forall i | 0 <= i < |r| && OwnedBy(r[i], account, product)
      ensures exists j :: 0 <= j < |licenses| && OwnedBy(licenses[j], account, product) &&
                          licenses[j].key == r[i].key && (r[i].Active() ==> licenses[j].Active())
    {
      assert OwnedBy(licenses[i], account, product);
    }
  }

  lemma WithoutWeakens(licenses: seq<License>, k: string, account: string, product: string)
    ensures Weakens(licenses, Without(licenses, R.LicenseKey, k), account, product)
  {
    var r := Without(licenses, R.LicenseKey, k);
    forall i | 0 <= i < |r| && OwnedBy(r[i], account, product)
      ensures exists j :: 0 <= j < |licenses| && OwnedBy(licenses[j], account, product) &&
                          licenses[j].key == r[i].key && (r[i].Active() ==> licenses[j].Active())
    {
      var j := L.WithoutMembers(licenses, R.LicenseKey, k, i);
      assert OwnedBy(licenses[j], account, product);
    }
  }

  lemma OtherWeakens(reg: Registry, m: R.Mutation, account: string, product: string)
    requires OtherTransaction(m) && account != ""
    ensures Weakens(reg.licenses, R.Apply(reg, m).licenses, account, product)
  {
    match m
    case AddLicense(l) => UpsertOtherWeakens(reg.licenses, l, account, product);
    case RemoveLicense(k) => WithoutWeakens(reg.licenses, k, account, product);
    case SetDue(k, due) => UpdateWeakens(reg.licenses, k, R.WithDue(due), account, product);
    case SetLicenseStatus(k, st) => UpdateWeakens(reg.licenses, k, R.WithLicenseStatus(st), account, product);
    case _ =>
  }

  lemma OtherKeepsInv(reg: Registry, m: R.Mutation)
    requires L.Inv(reg) && OtherTransaction(m)
    ensures L.Inv(R.Apply(reg, m))
  {
    match m
    case AddLicense(l) => L.UpsertUnownedKeepsInv(reg, l);
    case SetLicenseStatus(k, _) => L.RevokeKeepsInv(reg, k);
    case UpsertAccount(acc) => L.RegisterKeepsInv(reg, acc);
    case UpsertServer(id, k, p, auto, now) => L.ContactKeepsInv(reg, id, k, p, auto, now);
    case _ => L.OperatorKeepsInv(reg, m);
  }

  /** Every service operation but an order stores at most one such transaction. */
  lemma OtherOperationsAreOneTransaction(reg: Registry, e: L.Event) returns (m: Option<R.Mutation>)
    requires L.Allowed(reg, e) && !e.Issue?
    ensures m.None? ==> L.Step(reg, e) == reg
    ensures m.Some? ==> OtherTransaction(m.value) && L.Step(reg, e) == R.Apply(reg, m.value)
  {
    m := None;
    match e
    case Add(request, now, write) =>
      var l := BuildLicense(request, now);
      if write && l.Ok? {
        m := Some(R.AddLicense(l.value));
      }
    case Generate(product, level, sockets, keep, entropy, now, write) =>
      var out := Generating(reg, product, level, sockets, keep, entropy, now, write);
      GenerateKeyPrints(product, level, sockets, entropy);
      if keep && out.result.Ok? {
        m := Some(R.AddLicense(out.result.value));
      }
    case Register(t, k, sid, c, auto, now, read, write) =>
      var out := Registering(reg, t, k, sid, c, auto, now, read, write);
      if out.result.Ok? {
        m := Some(R.UpsertAccount(out.result.value));
      }
    case Revoke(key, write) =>
      if write {
        m := Some(R.SetLicenseStatus(key, Revoked));
      }
    case Verify(sid, key, token, auto, now, contactWrite, licenseRead) =>
      if sid != "" && contactWrite {
        m := Some(R.UpsertServer(sid, key, Describe(key).product, auto, now.stamp));
      }
    case Operate(mutation) => m := Some(mutation);
  }

  // ----- what an open order relies on -----

  /** All that the pair holds covers no more sockets than the prior key, and is inactive
      but for the spared key; without an prior key the pair holds nothing. */
  ghost predicate Room(licenses: seq<License>, order: IssueInput, prior: Option<License>, spared: Option<string>) {
    forall i | 0 <= i < |licenses| && OwnedBy(licenses[i], order.thumbprint, order.product) ::
      && prior.Some? && KeySockets(licenses[i].key) <= KeySockets(prior.value.key)
      && (!licenses[i].Active() || spared == Some(licenses[i].key))
  }

  /** The order belongs to a named account and, when it replaces a key, that is too small. */
  ghost predicate Named(x: Order) {
    && (x.phase.Cleared? || Open(x.phase) ==> x.input.thumbprint != "")
    && (x.phase.Replacing? ==> NeedsSocketUpgrade(x.input, x.phase.small))
    && (x.phase.Minting? && x.phase.prior.Some? ==> NeedsSocketUpgrade(x.input, x.phase.prior.value))
  }

  /** An open order finds the room that its reading of the list promised. */
  ghost predicate HasRoom(licenses: seq<License>, x: Order) {
    match x.phase
    case Replacing(l) => Room(licenses, x.input, Some(l), Some(l.key))
    case Minting(prior) => Room(licenses, x.input, prior, None)
    case _ => true
  }

  ghost predicate Inv(s: State) {
    && L.Inv(s.reg)
    && (forall o | o in s.orders :: Named(s.orders[o]))
    && (forall o | o in s.orders && o !in s.disturbed :: HasRoom(s.reg.licenses, s.orders[o]))
  }

  lemma DecidedHasRoom(reg: Registry, order: IssueInput)
    requires L.Inv(reg) && order.thumbprint != ""
    ensures Named(Order(order, Decided(reg.licenses, order)))
    ensures HasRoom(reg.licenses, Order(order, Decided(reg.licenses, order)))
  {
    L.AssignedMeans(reg.licenses, order.thumbprint, order.product);
    var phase := Decided(reg.licenses, order);
    if phase.Replacing? {
      var m :| 0 <= m < |reg.licenses| && OwnedBy(reg.licenses[m], order.thumbprint, order.product) && reg.licenses[m] == phase.small;
      forall i | 0 <= i < |reg.licenses| && OwnedBy(reg.licenses[i], order.thumbprint, order.product) && i != m
        ensures KeySockets(reg.licenses[i].key) <= KeySockets(phase.small.key) && !reg.licenses[i].Active()
      {
        L.OthersAreBelow(reg.licenses, m, i);
      }
    }
  }

  lemma RevokedHasRoom(reg: Registry, order: IssueInput, l: License)
    requires Room(reg.licenses, order, Some(l), Some(l.key))
    ensures Room(R.Apply(reg, R.SetLicenseStatus(l.key, Revoked)).licenses, order, Some(l), None)
  {
  }

  /** In the room an order found, its new key supersedes what the pair holds. */
  lemma RoomIsSuperseded(licenses: seq<License>, order: IssueInput, prior: Option<License>, env: IssueEnv)
    requires Room(licenses, order, prior, None)
    requires prior.Some? ==> NeedsSocketUpgrade(order, prior.value)
    ensures var key := GenerateKey(order.product, order.level, order.sockets, env.entropy);
      key.Ok? ==> L.Superseded(licenses, order.thumbprint, order.product, key.value)
  {
    if prior.Some? {
      L.UpgradeCoversMore(order, env, prior.value);
    }
  }

  // ----- every step -----

  /** What an access of an order leaves for its own next phase. */
  lemma AccessKeepsOwn(reg: Registry, x: Order, access: Access, calm: bool)
    requires L.Inv(reg) && Follows(x.phase, access) && Named(x)
    requires calm && !access.ReadList? ==> HasRoom(reg.licenses, x)
    ensures var (reg', phase) := After(reg, x.input, x.phase, access);
      && Named(Order(x.input, phase))
      && (calm || access.ReadList? ==> HasRoom(reg'.licenses, Order(x.input, phase)))
  {
    match access
    case ReadAccount(read) =>
      if Find(reg.accounts, R.AccountKey, x.input.thumbprint).Some? {
        L.ApprovedAccountIsNamed(reg, x.input.thumbprint);
      }
    case ReadList(read) => DecidedHasRoom(reg, x.input);
    case RevokeOld(write) =>
      if calm {
        RevokedHasRoom(reg, x.input, x.phase.small);
      }
    case AddNew(entropy, now, write) =>
  }

  /** An access that adds no key keeps the lifecycle invariant, and only weakens every
      pair of a named account. */
  lemma AccessKeepsRegistry(reg: Registry, x: Order, access: Access, account: string, product: string)
    requires L.Inv(reg) && Follows(x.phase, access) && !access.AddNew? && account != ""
    ensures var reg' := After(reg, x.input, x.phase, access).0;
      L.Inv(reg') && Weakens(reg.licenses, reg'.licenses, account, product)
  {
    if access.RevokeOld? {
      L.RevokeKeepsInv(reg, x.phase.small.key);
      OtherWeakens(reg, R.SetLicenseStatus(x.phase.small.key, Revoked), account, product);
    }
  }

  /** Adding a key only weakens every other pair. */
  lemma AddWeakensOthers(reg: Registry, order: IssueInput, env: IssueEnv, account: string, product: string)
    requires L.FreshIssue(reg, order, env)
    requires Mint(reg, order, env).result.Ok? ==> order.thumbprint != account || order.product != product
    ensures Weakens(reg.licenses, Mint(reg, order, env).reg.licenses, account, product)
  {
    L.MintAppends(reg, order, env);
    var out := Mint(reg, order, env);
    if out.result.Ok? {
      AppendWeakens(reg.licenses, out.result.value, account, product);
    }
  }

  lemma AppendWeakens(licenses: seq<License>, l: License, account: string, product: string)
    requires !OwnedBy(l, account, product)
    ensures Weakens(licenses, licenses + [l], account, product)
  {
    var r := licenses + [l];
    forall i | 0 <= i < |r| && OwnedBy(r[i], account, product)
      ensures exists j :: 0 <= j < |licenses| && OwnedBy(licenses[j], account, product) &&
                          licenses[j].key == r[i].key && (r[i].Active() ==> licenses[j].Active())
    {
      assert r[i] == licenses[i];
    }
  }

  /** The key is added in a state where it supersedes what its pair holds. */
  ghost predicate Supersedes(s: State, e: Event)
    requires Enabled(s, e)
  {
    Adds(s, e) ==>
      L.Superseded(s.reg.licenses, s.orders[e.o].input.thumbprint, s.orders[e.o].input.product,
                   After(s.reg, s.orders[e.o].input, s.orders[e.o].phase, e.access).1.result.value.key)
  }

  /** No other order of the pair has added a key since this one read the list. */
  predicate Calm(s: State, e: Event)
    requires Enabled(s, e)
  {
    Adds(s, e) ==> e.o !in s.disturbed
  }

  lemma CalmSupersedes(s: State, e: Event)
    requires Inv(s) && Enabled(s, e) && Calm(s, e)
    ensures Supersedes(s, e)
  {
    if Adds(s, e) {
      var x := s.orders[e.o];
      assert Named(x) && HasRoom(s.reg.licenses, x);
      RoomIsSuperseded(s.reg.licenses, x.input, x.phase.prior, MintEnv(e.access.entropy, e.access.now, e.access.write));
    }
  }

  ghost predicate AllNamed(s: State) {
    forall o | o in s.orders :: Named(s.orders[o])
  }

  lemma StepKeepsNames(s: State, e: Event)
    requires L.Inv(s.reg) && AllNamed(s) && Enabled(s, e)
    ensures AllNamed(Next(s, e))
  {
    if e.Advance? {
      AccessKeepsOwn(s.reg, s.orders[e.o], e.access, false);
    }
  }

  /** One step keeps the lifecycle invariant exactly when a key it adds supersedes what
      its pair holds. */
  lemma StepKeepsInvIff(s: State, e: Event)
    requires L.Inv(s.reg) && AllNamed(s) && Enabled(s, e) && Fresh(s, e)
    ensures L.Inv(Next(s, e).reg) <==> Supersedes(s, e)
  {
    match e
    case Call(_, _) =>
    case Other(m) => OtherKeepsInv(s.reg, m);
    case Advance(o, access) =>
      var x := s.orders[o];
      assert Named(x);
      if access.AddNew? {
        var env := MintEnv(access.entropy, access.now, access.write);
        L.MintAppends(s.reg, x.input, env);
        if Mint(s.reg, x.input, env).result.Ok? {
          AddKeepsInvIff(s.reg, x.input, env);
        }
      } else {
        AccessKeepsRegistry(s.reg, x, access, "x", "");
      }
  }

  lemma OthersKeepRoom(s: State, e: Event, p: nat)
    requires Inv(s) && Enabled(s, e) && Fresh(s, e) && e.Advance?
    requires p in s.orders && p != e.o && p !in Next(s, e).disturbed
    ensures HasRoom(Next(s, e).reg.licenses, s.orders[p])
  {
    var x, y := s.orders[e.o], s.orders[p];
    var after := Next(s, e).reg.licenses;
    assert Named(y) && HasRoom(s.reg.licenses, y);
    if Open(y.phase) {
      if e.access.AddNew? {
        var env := MintEnv(e.access.entropy, e.access.now, e.access.write);
        AddWeakensOthers(s.reg, x.input, env, y.input.thumbprint, y.input.product);
      } else {
        AccessKeepsRegistry(s.reg, x, e.access, y.input.thumbprint, y.input.product);
      }
    }
  }

  lemma NextKeepsInv(s: State, e: Event)
    requires Inv(s) && Enabled(s, e) && Fresh(s, e) && Calm(s, e)
    ensures Inv(Next(s, e))
  {
    CalmSupersedes(s, e);
    StepKeepsInvIff(s, e);
    StepKeepsNames(s, e);
    var s' := Next(s, e);
    forall p | p in s'.orders && p !in s'.disturbed ensures HasRoom(s'.reg.licenses, s'.orders[p]) {
      match e
      case Call(o, _) =>
      case Other(m) =>
        assert Named(s.orders[p]);
        if Open(s.orders[p].phase) {
          OtherWeakens(s.reg, m, s.orders[p].input.thumbprint, s.orders[p].input.product);
        }
      case Advance(o, access) =>
        if p == o {
          AccessKeepsOwn(s.reg, s.orders[o], access, o !in s.disturbed);
        } else {
          OthersKeepRoom(s, e, p);
        }
    }
  }

  // ----- runs -----

  ghost predicate AllowedRun(s: State, es: seq<Event>)
    decreases |es|
  {
    es != [] ==> Enabled(s, es[0]) && Fresh(s, es[0]) && AllowedRun(Next(s, es[0]), es[1..])
  }

  ghost function Run(s: State, es: seq<Event>): State
    requires AllowedRun(s, es)
    decreases |es|
  {
    if es == [] then s else Run(Next(s, es[0]), es[1..])
  }

  ghost predicate CalmRun(s: State, es: seq<Event>)
    requires AllowedRun(s, es)
    decreases |es|
  {
    es != [] ==> Calm(s, es[0]) && CalmRun(Next(s, es[0]), es[1..])
  }

  /** The lifecycle invariant holds in every interleaving in which no other order of the
      same pair adds a key between an order's reading of the list and its own adding. */
  lemma {:induction false} CalmRunKeepsInv(s: State, es: seq<Event>)
    requires Inv(s) && AllowedRun(s, es) && CalmRun(s, es)
    ensures Inv(Run(s, es))
    decreases |es|
  {
    if es != [] {
      NextKeepsInv(s, es[0]);
      CalmRunKeepsInv(Next(s, es[0]), es[1..]);
    }
  }

  ghost predicate InvThroughout(s: State, es: seq<Event>)
    requires AllowedRun(s, es)
    decreases |es|
  {
    L.Inv(s.reg) && (es != [] ==> InvThroughout(Next(s, es[0]), es[1..]))
  }

  ghost predicate SupersedesThroughout(s: State, es: seq<Event>)
    requires AllowedRun(s, es)
    decreases |es|
  {
    es != [] ==> Supersedes(s, es[0]) && SupersedesThroughout(Next(s, es[0]), es[1..])
  }

  /** The exact condition, for every interleaving: the lifecycle invariant holds in every
      state of a run if and only if every key was added when all its pair held was
      inactive and covered fewer sockets. */
  lemma {:induction false} InvThroughoutIff(s: State, es: seq<Event>)
    requires L.Inv(s.reg) && AllNamed(s) && AllowedRun(s, es)
    ensures InvThroughout(s, es) <==> SupersedesThroughout(s, es)
    decreases |es|
  {
    if es != [] {
      StepKeepsInvIff(s, es[0]);
      StepKeepsNames(s, es[0]);
      if L.Inv(Next(s, es[0]).reg) {
        InvThroughoutIff(Next(s, es[0]), es[1..]);
      } else {
        assert !InvThroughout(Next(s, es[0]), es[1..]);
      }
    }
  }

  /** At most one order is open at a time. */
  ghost predicate OneOpen(s: State) {
    forall o, p | o in s.orders && p in s.orders && Open(s.orders[o].phase) && Open(s.orders[p].phase) :: o == p
  }

  ghost predicate OneOpenThroughout(s: State, es: seq<Event>)
    requires AllowedRun(s, es)
    decreases |es|
  {
    OneOpen(s) && (es != [] ==> OneOpenThroughout(Next(s, es[0]), es[1..]))
  }

  /** Orders that take turns never disturb each other, whatever else is interleaved. */
  lemma {:induction false} TurnsAreCalm(s: State, es: seq<Event>)
    requires AllowedRun(s, es) && OneOpenThroughout(s, es) && s.disturbed == {}
    ensures CalmRun(s, es)
    decreases |es|
  {
    if es != [] {
      assert es[0].Advance? && Adds(s, es[0]) ==> Rivals(s, es[0].o) == {};
      TurnsAreCalm(Next(s, es[0]), es[1..]);
    }
  }

  // ----- overlapping orders -----

  /** Two orders of one pair that are both about to add a key, and do so one after the
      other, leave the pair two active keys, whatever it held before. */
  lemma OverlappingAddsBreakTheGuarantee(s: State, o: nat, p: nat, a: Access, b: Access)
    requires AllNamed(s) && o != p && o in s.orders && p in s.orders
    requires s.orders[o].phase.Minting? && s.orders[p].phase.Minting? && SamePair(s.orders[o].input, s.orders[p].input)
    requires a.AddNew? && b.AddNew?
    requires Adds(s, Advance(o, a)) && Fresh(s, Advance(o, a))
    requires var s1 := Next(s, Advance(o, a)); Adds(s1, Advance(p, b)) && Fresh(s1, Advance(p, b))
    ensures var s1 := Next(s, Advance(o, a));
      var s2 := Next(s1, Advance(p, b));
      && p in s1.disturbed
      && s1.orders[o].phase.Ended? && s2.orders[p].phase.Ended?
      && s1.orders[o].phase.result.Ok? && s2.orders[p].phase.result.Ok?
      && var k, l := s1.orders[o].phase.result.value, s2.orders[p].phase.result.value;
         && s2.reg.licenses == s.reg.licenses + [k, l]
         && k.Active() && l.Active() && L.SamePair(k, l)
         && !L.TierOrdered(s2.reg.licenses)
  {
    assert Named(s.orders[o]);
    var s1 := Next(s, Advance(o, a));
    var s2 := Next(s1, Advance(p, b));
    var ea, eb := MintEnv(a.entropy, a.now, a.write), MintEnv(b.entropy, b.now, b.write);
    L.MintAppends(s.reg, s.orders[o].input, ea);
    L.MintAppends(s1.reg, s.orders[p].input, eb);
    L.MintServes(s.reg, s.orders[o].input, ea);
    L.MintServes(s1.reg, s.orders[p].input, eb);
    var n := |s.reg.licenses|;
    var k, l := s1.orders[o].phase.result.value, s2.orders[p].phase.result.value;
    assert s2.reg.licenses == s.reg.licenses + [k, l];
    assert L.SamePair(s2.reg.licenses[n], s2.reg.licenses[n + 1]);
  }

  // ----- after a revocation -----

  /** The orders of the pair that have read the list and may still add a key. */
  function OpenFor(s: State, account: string, product: string): set<nat> {
    set o | o in s.orders && Open(s.orders[o].phase) && s.orders[o].input.thumbprint == account && s.orders[o].input.product == product
  }

  /** The event stores a new key for the pair. */
  predicate AddsFor(s: State, e: Event, account: string, product: string)
    requires Enabled(s, e)
  {
    Adds(s, e) && s.orders[e.o].input.thumbprint == account && s.orders[e.o].input.product == product
  }

  /** An order of this kind that reads the list now is refused as revoked. */
  predicate Refused(s: State, order: IssueInput) {
    Decided(s.reg.licenses, order) == Ended(Err(SubscriptionRevoked))
  }

  lemma BarredRefuses(s: State, order: IssueInput, k: string)
    requires D.Barred(s.reg, order.thumbprint, order.product, k)
    ensures Refused(s, order)
  {
    D.BarredIsAssigned(s.reg, order.thumbprint, order.product, k);
  }

  lemma AddKeepsBarred(reg: Registry, order: IssueInput, env: IssueEnv, account: string, product: string, k: string)
    requires D.Barred(reg, account, product, k) && L.FreshIssue(reg, order, env)
    requires Mint(reg, order, env).result.Ok? ==> order.thumbprint != account || order.product != product
    ensures D.Barred(Mint(reg, order, env).reg, account, product, k)
  {
    L.MintAppends(reg, order, env);
    var out := Mint(reg, order, env);
    if out.result.Ok? {
      var l := out.result.value;
      var m :| 0 <= m < |reg.licenses| && reg.licenses[m].key == k && OwnedBy(reg.licenses[m], account, product);
      assert R.LicenseKey(reg.licenses[m]) == k;
      assert l.key != k;
      D.UpsertOtherKeepsBarred(reg, account, product, k, l);
    }
  }

  /** A key added for a pair is active, so the pair is refused no more. */
  lemma AddOpens(reg: Registry, order: IssueInput, env: IssueEnv)
    requires L.FreshIssue(reg, order, env) && Mint(reg, order, env).result.Ok?
    ensures var current := Assigned(Mint(reg, order, env).reg.licenses, order.thumbprint, order.product);
      current.Some? && current.value.Active()
  {
    L.MintAppends(reg, order, env);
    L.MintServes(reg, order, env);
    var after := Mint(reg, order, env).reg.licenses;
    L.AssignedMeans(after, order.thumbprint, order.product);
    assert after[|reg.licenses|] == Mint(reg, order, env).result.value;
  }

  lemma AccessKeepsBarred(reg: Registry, x: Order, access: Access, account: string, product: string, k: string)
    requires D.Barred(reg, account, product, k) && Follows(x.phase, access) && !access.AddNew?
    ensures D.Barred(After(reg, x.input, x.phase, access).0, account, product, k)
  {
    if access.RevokeOld? {
      D.UpdateKeepsBarred(reg, account, product, k, x.phase.small.key, R.WithLicenseStatus(Revoked));
    }
  }

  /** While a pair is barred, one step leaves it barred exactly when it adds no key for it. */
  lemma StepBarredIff(s: State, e: Event, account: string, product: string, k: string)
    requires D.Barred(s.reg, account, product, k) && account != ""
    requires Enabled(s, e) && Fresh(s, e) && (e.Other? ==> !D.Revives(e.m, k))
    ensures !AddsFor(s, e, account, product) ==> D.Barred(Next(s, e).reg, account, product, k)
    ensures AddsFor(s, e, account, product) ==>
      var current := Assigned(Next(s, e).reg.licenses, account, product);
      current.Some? && current.value.Active()
  {
    match e
    case Call(_, _) =>
    case Other(m) => D.MutationKeepsBarred(s.reg, m, account, product, k);
    case Advance(o, access) =>
      var x := s.orders[o];
      if access.AddNew? {
        var env := MintEnv(access.entropy, access.now, access.write);
        if AddsFor(s, e, account, product) {
          AddOpens(s.reg, x.input, env);
        } else {
          AddKeepsBarred(s.reg, x.input, env, account, product, k);
        }
      } else {
        AccessKeepsBarred(s.reg, x, access, account, product, k);
      }
  }

  ghost predicate RefusedThroughout(s: State, es: seq<Event>, order: IssueInput)
    requires AllowedRun(s, es)
    decreases |es|
  {
    Refused(s, order) && (es != [] ==> RefusedThroughout(Next(s, es[0]), es[1..], order))
  }

  ghost predicate NeverAddsFor(s: State, es: seq<Event>, account: string, product: string)
    requires AllowedRun(s, es)
    decreases |es|
  {
    es != [] ==> !AddsFor(s, es[0], account, product) && NeverAddsFor(Next(s, es[0]), es[1..], account, product)
  }

  ghost predicate NoneRevives(es: seq<Event>, k: string) {
    forall i | 0 <= i < |es| && es[i].Other? :: !D.Revives(es[i].m, k)
  }

  /** A barred pair is refused in every state of an interleaving if and only if no order of
      the pair adds a key in it. */
  lemma {:induction false} RefusedThroughoutIff(s: State, es: seq<Event>, order: IssueInput, k: string)
    requires D.Barred(s.reg, order.thumbprint, order.product, k) && order.thumbprint != ""
    requires AllowedRun(s, es) && NoneRevives(es, k)
    ensures RefusedThroughout(s, es, order) <==> NeverAddsFor(s, es, order.thumbprint, order.product)
    ensures NeverAddsFor(s, es, order.thumbprint, order.product) ==>
      D.Barred(Run(s, es).reg, order.thumbprint, order.product, k)
    decreases |es|
  {
    BarredRefuses(s, order, k);
    if es != [] {
      StepBarredIff(s, es[0], order.thumbprint, order.product, k);
      if AddsFor(s, es[0], order.thumbprint, order.product) {
        assert !Refused(Next(s, es[0]), order);
      } else {
        RefusedThroughoutIff(Next(s, es[0]), es[1..], order, k);
      }
    }
  }

  /** While a pair is barred, no order of it comes to stand before an adding: one that reads
      the list ends there. */
  lemma BarredOpensNone(s: State, e: Event, account: string, product: string, k: string)
    requires D.Barred(s.reg, account, product, k) && Enabled(s, e)
    ensures OpenFor(Next(s, e), account, product) <= OpenFor(s, account, product)
  {
    if e.Advance? && e.access.ReadList? {
      D.BarredIsAssigned(s.reg, account, product, k);
    }
  }

  /** No order of the set makes an attempt to add a key. */
  predicate NoneAttempts(es: seq<Event>, orders: set<nat>) {
    forall i | 0 <= i < |es| && es[i].Advance? && es[i].access.AddNew? :: es[i].o !in orders
  }

  /** Only orders that were open when the pair was barred can add a key for it. */
  lemma {:induction false} OnlyOpenOrdersAdd(s: State, es: seq<Event>, account: string, product: string, k: string, orders: set<nat>)
    requires D.Barred(s.reg, account, product, k) && account != ""
    requires AllowedRun(s, es) && NoneRevives(es, k)
    requires OpenFor(s, account, product) <= orders && NoneAttempts(es, orders)
    ensures NeverAddsFor(s, es, account, product)
    decreases |es|
  {
    if es != [] {
      StepBarredIff(s, es[0], account, product, k);
      BarredOpensNone(s, es[0], account, product, k);
      OnlyOpenOrdersAdd(Next(s, es[0]), es[1..], account, product, k, orders);
    }
  }

  /** The exact condition, for every interleaving: once the active key of a pair is revoked,
      and while no transaction revives it, orders of the pair stay refused if and only if
      none of them adds a key; and only those that had read the list before the revocation
      could. */
  lemma RevokedPairIsRefusedIff(s: State, l: License, s1: State, es: seq<Event>, order: IssueInput)
    requires L.Inv(s.reg) && l in s.reg.licenses && l.account != "" && l.Active()
    requires s1 == Next(s, Other(R.SetLicenseStatus(l.key, Revoked)))
    requires AllowedRun(s1, es) && NoneRevives(es, l.key)
    requires order.thumbprint == l.account && order.product == l.product
    ensures RefusedThroughout(s1, es, order) <==> NeverAddsFor(s1, es, l.account, l.product)
    ensures NoneAttempts(es, OpenFor(s, l.account, l.product)) ==> RefusedThroughout(s1, es, order)
  {
    D.RevokedIsBarred(s.reg, l);
    RefusedThroughoutIff(s1, es, order, l.key);
    if NoneAttempts(es, OpenFor(s, l.account, l.product)) {
      OnlyOpenOrdersAdd(s1, es, l.account, l.product, l.key, OpenFor(s, l.account, l.product));
    }
  }

  /** So after the revocation, when no order of the pair adds a key, a later order of the
      pair is refused whole: as revoked if its account is approved, and nothing changes. */
  lemma RevokedPairIsRefused(s: State, l: License, s1: State, es: seq<Event>, s': State, order: IssueInput, env: IssueEnv)
    requires L.Inv(s.reg) && l in s.reg.licenses && l.account != "" && l.Active()
    requires s1 == Next(s, Other(R.SetLicenseStatus(l.key, Revoked)))
    requires AllowedRun(s1, es) && s' == Run(s1, es) && NoneRevives(es, l.key)
    requires NeverAddsFor(s1, es, l.account, l.product)
    requires order.thumbprint == l.account && order.product == l.product && env.accountRead && env.listRead
    ensures Refused(s', order)
    ensures var acc := Find(s'.reg.accounts, R.AccountKey, order.thumbprint);
      Issuing(s'.reg, order, env) ==
        Outcome(s'.reg, Err(if acc.Some? && acc.value.status == Approved then SubscriptionRevoked else AccountNotApproved))
  {
    D.RevokedIsBarred(s.reg, l);
    RefusedThroughoutIff(s1, es, order, l.key);
    BarredRefuses(s', order, l.key);
    D.BarredIsAssigned(s'.reg, l.account, l.product, l.key);
  }

  /** An order of the pair that read the list before the revocation and adds its key after
      it gives the pair an active key again. */
  lemma OpenOrderEscapesRevocation(s: State, o: nat, a: Access)
    requires o in s.orders && s.orders[o].phase.Minting? && a.AddNew?
    requires Adds(s, Advance(o, a)) && Fresh(s, Advance(o, a))
    ensures var current := Assigned(Next(s, Advance(o, a)).reg.licenses, s.orders[o].input.thumbprint, s.orders[o].input.product);
      current.Some? && current.value.Active()
  {
    AddOpens(s.reg, s.orders[o].input, MintEnv(a.entropy, a.now, a.write));
  }

  // ----- lab keys -----

  /** Every stored license carries a lab key, and an owned one a key generated for its
      product, under the marked name. */
  ghost predicate AllLab(licenses: seq<License>) {
    forall i | 0 <= i < |licenses| :: L.Minted(licenses[i]) && IsLabKey(licenses[i].key)
  }

  lemma UpsertKeepsLab(licenses: seq<License>, l: License)
    requires AllLab(licenses) && L.Minted(l) && IsLabKey(l.key)
    ensures AllLab(Upsert(licenses, R.LicenseKey, l))
  {
    var i := UpsertShape(licenses, R.LicenseKey, l);
  }

  lemma WithoutKeepsLab(licenses: seq<License>, k: string)
    requires AllLab(licenses)
    ensures AllLab(Without(licenses, R.LicenseKey, k))
  {
    var r := Without(licenses, R.LicenseKey, k);
    forall i | 0 <= i < |r| ensures L.Minted(r[i]) && IsLabKey(r[i].key) {
      var j := L.WithoutMembers(licenses, R.LicenseKey, k, i);
    }
  }

  lemma UpdateKeepsLab(licenses: seq<License>, k: string, f: License -> License)
    requires AllLab(licenses)
    requires forall l: License :: f(l).key == l.key && f(l).account == l.account && f(l).product == l.product
    requires forall l: License :: f(l).productName == l.productName
    ensures AllLab(Update(licenses, R.LicenseKey, k, f))
  {
    var r := Update(licenses, R.LicenseKey, k, f);
    forall i | 0 <= i < |r| ensures L.Minted(r[i]) && IsLabKey(r[i].key) {
      assert L.Minted(licenses[i]) && IsLabKey(licenses[i].key);
    }
  }

  lemma OtherKeepsLab(reg: Registry, m: R.Mutation)
    requires AllLab(reg.licenses) && OtherTransaction(m)
    ensures AllLab(R.Apply(reg, m).licenses)
  {
    match m
    case AddLicense(l) => UpsertKeepsLab(reg.licenses, l);
    case RemoveLicense(k) => WithoutKeepsLab(reg.licenses, k);
    case SetDue(k, due) => UpdateKeepsLab(reg.licenses, k, R.WithDue(due));
    case SetLicenseStatus(k, st) => UpdateKeepsLab(reg.licenses, k, R.WithLicenseStatus(st));
    case _ =>
  }

  lemma MintKeepsLab(reg: Registry, order: IssueInput, env: IssueEnv)
    requires AllLab(reg.licenses)
    ensures AllLab(Mint(reg, order, env).reg.licenses)
  {
    if Mint(reg, order, env).result.Ok? {
      L.MintServes(reg, order, env);
      UpsertKeepsLab(reg.licenses, Mint(reg, order, env).result.value);
    }
  }

  lemma AccessKeepsLab(reg: Registry, x: Order, access: Access)
    requires AllLab(reg.licenses) && Follows(x.phase, access)
    ensures AllLab(After(reg, x.input, x.phase, access).0.licenses)
  {
    match access
    case RevokeOld(_) => OtherKeepsLab(reg, R.SetLicenseStatus(x.phase.small.key, Revoked));
    case AddNew(entropy, now, write) => MintKeepsLab(reg, x.input, MintEnv(entropy, now, write));
    case _ =>
  }

  lemma StepKeepsLab(s: State, e: Event)
    requires AllLab(s.reg.licenses) && Enabled(s, e)
    ensures AllLab(Next(s, e).reg.licenses)
  {
    match e
    case Call(_, _) =>
    case Other(m) => OtherKeepsLab(s.reg, m);
    case Advance(o, access) => AccessKeepsLab(s.reg, s.orders[o], access);
  }

  ghost predicate EnabledRun(s: State, es: seq<Event>)
    decreases |es|
  {
    es != [] ==> Enabled(s, es[0]) && EnabledRun(Next(s, es[0]), es[1..])
  }

  ghost predicate LabThroughout(s: State, es: seq<Event>)
    requires EnabledRun(s, es)
    decreases |es|
  {
    AllLab(s.reg.licenses) && (es != [] ==> LabThroughout(Next(s, es[0]), es[1..]))
  }

  /** Every key is a lab key, and every owned one shows it, in every state of every
      interleaving, whether or not orders overlap or random suffixes repeat. */
  lemma {:induction false} LabKeysAlways(s: State, es: seq<Event>)
    requires AllLab(s.reg.licenses) && EnabledRun(s, es)
    ensures LabThroughout(s, es)
    decreases |es|
  {
    if es != [] {
      StepKeepsLab(s, es[0]);
      LabKeysAlways(Next(s, es[0]), es[1..]);
    }
  }
}
