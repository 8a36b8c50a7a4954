/** Serial runs of the service and what holds in every state they reach: at most one
    active key for each account and product, tiers that only grow, and what an order
    gives. */
module Lifecycle {
  import opened Wrappers
  import opened Text
  import opened Records
  import opened KeyedLists
  import opened Keys
  import R = Registries
  import opened Services

  // ----- the invariant -----

  predicate SamePair(a: License, b: License) {
    a.account != "" && a.account == b.account && a.product == b.product
  }

  /** Of two licenses one account holds for one product, the earlier one covers fewer
      sockets and is no longer active. */
  ghost predicate TierOrdered(licenses: seq<License>) {
    forall i, j | 0 <= i < j < |licenses| && SamePair(licenses[i], licenses[j]) ::
      KeySockets(licenses[i].key) < KeySockets(licenses[j].key) && !licenses[i].Active()
  }

  /** A license with an owner carries a key generated for its product, and shows it. */
  predicate Minted(l: License) {
    l.account != "" ==>
      ValidKey(l.key) && ParseKey(l.key).product == l.product && l.productName == DisplayName(l.key)
  }

  ghost predicate Inv(reg: Registry) {
    && R.UniqueKeys(reg)
    && TierOrdered(reg.licenses)
    && (forall i | 0 <= i < |reg.licenses| :: Minted(reg.licenses[i]) && IsLabKey(reg.licenses[i].key))
    && (forall i | 0 <= i < |reg.accounts| :: reg.accounts[i].thumbprint != "")
  }

  // ----- runs -----

  /** One service operation, run to its end before the next one starts. */
  datatype Event =
    | Add(request: AddInput, now: Moment, write: bool)
    | Generate(product: string, level: string, sockets: string, keep: bool, entropy: Option<Entropy>, now: Moment, write: bool)
    | Register(thumbprint: string, publicKey: string, serverId: string, contact: string, autoApprove: bool, now: Moment, read: bool, write: bool)
    | Issue(order: IssueInput, env: IssueEnv)
    | Revoke(key: string, write: bool)
    | Verify(serverId: string, key: string, token: string, autoApprove: bool, now: Moment, contactWrite: bool, licenseRead: bool)
    | Operate(mutation: R.Mutation)

  /** The mutations an operator performs directly on the store. */
  predicate OperatorMutation(m: R.Mutation) {
    m.RemoveLicense? || m.SetDue? || m.SetAccountStatus? || m.SetServerStatus? || m.SetServerNote? || m.RemoveServer?
  }

  function Step(reg: Registry, e: Event): Registry {
    match e
    case Add(request, now, write) => Adding(reg, request, now, write).reg
    case Generate(product, level, sockets, keep, entropy, now, write) =>
      Generating(reg, product, level, sockets, keep, entropy, now, write).reg
    case Register(t, k, s, c, auto, now, read, write) => Registering(reg, t, k, s, c, auto, now, read, write).reg
    case Issue(order, env) => Issuing(reg, order, env).reg
    case Revoke(key, write) => if write then R.Apply(reg, R.SetLicenseStatus(key, Revoked)) else reg
    case Verify(s, key, token, auto, now, contactWrite, licenseRead) =>
      Verifying(reg, s, key, token, auto, now, contactWrite, licenseRead).0
    case Operate(m) => R.Apply(reg, m)
  }

  /** The random suffix of a key about to be issued does not repeat a stored key. */
  ghost predicate FreshIssue(reg: Registry, order: IssueInput, env: IssueEnv) {
    var key := GenerateKey(order.product, order.level, order.sockets, env.entropy);
    key.Ok? ==> !Has(reg.licenses, R.LicenseKey, key.value)
  }

  ghost predicate Allowed(reg: Registry, e: Event) {
    && (e.Operate? ==> OperatorMutation(e.mutation))
    && (e.Issue? ==> FreshIssue(reg, e.order, e.env))
  }

  function Run(reg: Registry, es: seq<Event>): Registry
    decreases |es|
  {
    if es == [] then reg else Run(Step(reg, es[0]), es[1..])
  }

  ghost predicate AllowedRun(reg: Registry, es: seq<Event>)
    decreases |es|
  {
    es != [] ==> Allowed(reg, es[0]) && AllowedRun(Step(reg, es[0]), es[1..])
  }

  // ----- the list changes keep the invariant -----

  lemma UpdateKeepsTiers(licenses: seq<License>, k: string, f: License -> License)
    requires TierOrdered(licenses)
    requires forall l: License :: f(l).key == l.key && f(l).account == l.account && f(l).product == l.product
    requires forall l: License :: f(l).Active() ==> l.Active()
    ensures TierOrdered(Update(licenses, R.LicenseKey, k, f))
  {
  }

  lemma WithoutKeepsTiers(licenses: seq<License>, k: string)
    requires TierOrdered(licenses)
    ensures TierOrdered(Without(licenses, R.LicenseKey, k))
  {
    var r := Without(licenses, R.LicenseKey, k);
    forall i, j | 0 <= i < j < |r| && SamePair(r[i], r[j])
      ensures KeySockets(r[i].key) < KeySockets(r[j].key) && !r[i].Active()
    {
      var i', j' := WithoutOrder(licenses, R.LicenseKey, k, i, j);
    }
  }

  lemma UpsertUnownedKeepsInv(reg: Registry, l: License)
    requires Inv(reg) && l.account == "" && IsLabKey(l.key)
    ensures Inv(R.Apply(reg, R.AddLicense(l)))
  {
    R.MutationKeepsUniqueKeys(reg, R.AddLicense(l));
    var i := UpsertShape(reg.licenses, R.LicenseKey, l);
  }

  lemma {:induction false} WithoutMembers<T>(s: seq<T>, key: T -> string, k: string, i: nat)
    returns (i': nat)
    requires i < |Without(s, key, k)|
    ensures i' < |s| && Without(s, key, k)[i] == s[i']
  {
    ghost var j';
    i', j' := WithoutOrder(s, key, k, i, i);
  }

  lemma RemoveKeepsInv(reg: Registry, k: string)
    requires Inv(reg)
    ensures Inv(R.Apply(reg, R.RemoveLicense(k)))
  {
    R.MutationKeepsUniqueKeys(reg, R.RemoveLicense(k));
    WithoutKeepsTiers(reg.licenses, k);
    var r := Without(reg.licenses, R.LicenseKey, k);
    forall i | 0 <= i < |r| ensures Minted(r[i]) && IsLabKey(r[i].key) {
      var i' := WithoutMembers(reg.licenses, R.LicenseKey, k, i);
    }
  }

  lemma RevokeKeepsInv(reg: Registry, k: string)
    requires Inv(reg)
    ensures Inv(R.Apply(reg, R.SetLicenseStatus(k, Revoked)))
  {
    R.MutationKeepsUniqueKeys(reg, R.SetLicenseStatus(k, Revoked));
    UpdateKeepsTiers(reg.licenses, k, R.WithLicenseStatus(Revoked));
  }

  // ----- what a look-up finds -----

  lemma {:induction false} HeldIndex(licenses: seq<License>, account: string, product: string, i: nat, j: nat)
    returns (i': nat, j': nat)
    requires i <= j < |Held(licenses, account, product)|
    ensures i' <= j' < |licenses| && (i < j ==> i' < j')
    ensures Held(licenses, account, product)[i] == licenses[i'] && Held(licenses, account, product)[j] == licenses[j']
    ensures OwnedBy(licenses[i'], account, product) && OwnedBy(licenses[j'], account, product)
  {
    var own := OwnedBy(licenses[0], account, product);
    if !own {
      i', j' := HeldIndex(licenses[1..], account, product, i, j);
      i', j' := i' + 1, j' + 1;
    } else if j == 0 {
      i', j' := 0, 0;
    } else if i == 0 {
      ghost var u;
      u, j' := HeldIndex(licenses[1..], account, product, j - 1, j - 1);
      i', j' := 0, j' + 1;
    } else {
      i', j' := HeldIndex(licenses[1..], account, product, i - 1, j - 1);
      i', j' := i' + 1, j' + 1;
    }
  }

  lemma {:induction false} OwnedIsHeld(licenses: seq<License>, account: string, product: string, i: nat)
    requires i < |licenses| && OwnedBy(licenses[i], account, product)
    ensures licenses[i] in Held(licenses, account, product)
  {
    if i > 0 {
      OwnedIsHeld(licenses[1..], account, product, i - 1);
    }
  }

  lemma {:induction false} PickMeans(held: seq<License>)
    ensures Pick(held).None? <==> held == []
    ensures Pick(held).Some? ==> Pick(held).value in held
    ensures Pick(held).Some? && !Pick(held).value.Active() ==> forall l | l in held :: !l.Active()
  {
    if held != [] {
      PickMeans(held[1..]);
    }
  }

  /** What the look-up answers: nothing exactly when nothing is held; an inactive
      license only when all that is held is inactive. */
  lemma AssignedMeans(licenses: seq<License>, account: string, product: string)
    ensures Assigned(licenses, account, product).None? ==>
      forall i | 0 <= i < |licenses| :: !OwnedBy(licenses[i], account, product)
    ensures Assigned(licenses, account, product).Some? ==>
      exists i :: 0 <= i < |licenses| && OwnedBy(licenses[i], account, product) && licenses[i] == Assigned(licenses, account, product).value
    ensures Assigned(licenses, account, product).Some? && !Assigned(licenses, account, product).value.Active() ==>
      forall i | 0 <= i < |licenses| && OwnedBy(licenses[i], account, product) :: !licenses[i].Active()
  {
    var held := Held(licenses, account, product);
    PickMeans(held);
    forall i | 0 <= i < |licenses| && OwnedBy(licenses[i], account, product) ensures licenses[i] in held {
      OwnedIsHeld(licenses, account, product, i);
    }
    if Pick(held).Some? {
      var k :| 0 <= k < |held| && held[k] == Pick(held).value;
      var i', j' := HeldIndex(licenses, account, product, k, k);
    }
  }

  /** An active license of a pair is what the look-up answers. */
  lemma ActiveIsAssigned(licenses: seq<License>, i: nat)
    requires TierOrdered(licenses) && i < |licenses|
    requires licenses[i].account != "" && licenses[i].Active()
    ensures Assigned(licenses, licenses[i].account, licenses[i].product) == Some(licenses[i])
  {
    AssignedMeans(licenses, licenses[i].account, licenses[i].product);
    var found := Assigned(licenses, licenses[i].account, licenses[i].product);
    var j :| 0 <= j < |licenses| && OwnedBy(licenses[j], licenses[i].account, licenses[i].product) && licenses[j] == found.value;
    assert found.value.Active();
    if i != j {
      assert SamePair(licenses[i], licenses[j]) && SamePair(licenses[j], licenses[i]);
      assert false;
    }
  }

  // ----- issuing keeps the invariant -----

  /** Everything the pair holds is inactive and covers fewer sockets than the key. */
  ghost predicate Superseded(licenses: seq<License>, account: string, product: string, key: string) {
    forall i | 0 <= i < |licenses| && OwnedBy(licenses[i], account, product) ::
      !licenses[i].Active() && KeySockets(licenses[i].key) < KeySockets(key)
  }

  /** A fresh key is added at the end of the list. */
  lemma MintAppends(reg: Registry, order: IssueInput, env: IssueEnv)
    requires FreshIssue(reg, order, env)
    ensures var out := Mint(reg, order, env);
      && (out.result.Ok? ==> out.reg == reg.(licenses := reg.licenses + [out.result.value]))
      && (out.result.Err? ==> out.reg == reg)
  {
    var out := Mint(reg, order, env);
    if out.result.Ok? {
      var l := out.result.value;
      forall j | 0 <= j < |reg.licenses| ensures R.LicenseKey(reg.licenses[j]) != R.LicenseKey(l) {
        assert !Has(reg.licenses, R.LicenseKey, l.key);
      }
      UpsertAppends(reg.licenses, R.LicenseKey, l);
    }
  }

  lemma AppendKeepsInv(reg: Registry, l: License)
    requires Inv(reg) && Minted(l) && IsLabKey(l.key) && !Has(reg.licenses, R.LicenseKey, l.key)
    requires l.account != "" && Superseded(reg.licenses, l.account, l.product, l.key)
    ensures Inv(reg.(licenses := reg.licenses + [l]))
  {
    var r := reg.licenses + [l];
    forall i, j | 0 <= i < j < |r| ensures R.LicenseKey(r[i]) != R.LicenseKey(r[j]) {
      if j == |reg.licenses| {
        assert !Has(reg.licenses, R.LicenseKey, l.key);
      }
    }
  }

  lemma MintKeepsInv(reg: Registry, order: IssueInput, env: IssueEnv)
    requires Inv(reg) && order.thumbprint != "" && FreshIssue(reg, order, env)
    requires var key := GenerateKey(order.product, order.level, order.sockets, env.entropy);
      key.Ok? ==> Superseded(reg.licenses, order.thumbprint, order.product, key.value)
    ensures Inv(Mint(reg, order, env).reg)
    ensures Mint(reg, order, env).result.Ok? ==>
      Mint(reg, order, env).reg == reg.(licenses := reg.licenses + [Mint(reg, order, env).result.value])
  {
    var out := Mint(reg, order, env);
    MintAppends(reg, order, env);
    if out.result.Ok? {
      MintServes(reg, order, env);
      AppendKeepsInv(reg, out.result.value);
    }
  }

  /** A key generated for a wanted upgrade covers more sockets than the old key. */
  lemma UpgradeCoversMore(order: IssueInput, env: IssueEnv, l: License)
    requires NeedsSocketUpgrade(order, l)
    ensures var key := GenerateKey(order.product, order.level, order.sockets, env.entropy);
      key.Ok? ==> KeySockets(l.key) < KeySockets(key.value)
  {
    GenerateKeyPrints(order.product, order.level, order.sockets, env.entropy);
  }

  /** Beside an active license of a pair, all that the pair holds is inactive and covers
      fewer sockets. */
  lemma OthersAreBelow(licenses: seq<License>, m: nat, i: nat)
    requires TierOrdered(licenses) && m < |licenses| && i < |licenses| && i != m
    requires licenses[m].Active() && SamePair(licenses[i], licenses[m])
    ensures !licenses[i].Active() && KeySockets(licenses[i].key) < KeySockets(licenses[m].key)
  {
  }

  /** After the active key of a pair is revoked for an upgrade, a key for more sockets
      supersedes everything the pair holds. */
  lemma UpgradeSupersedes(licenses: seq<License>, account: string, product: string, l: License, key: string)
    requires TierOrdered(licenses) && account != ""
    requires Assigned(licenses, account, product) == Some(l) && l.Active()
    requires KeySockets(l.key) < KeySockets(key)
    ensures Superseded(Update(licenses, R.LicenseKey, l.key, R.WithLicenseStatus(Revoked)), account, product, key)
  {
    AssignedMeans(licenses, account, product);
    var m :| 0 <= m < |licenses| && OwnedBy(licenses[m], account, product) && licenses[m] == l;
    var r := Update(licenses, R.LicenseKey, l.key, R.WithLicenseStatus(Revoked));
    forall i | 0 <= i < |r| && OwnedBy(r[i], account, product)
      ensures !r[i].Active() && KeySockets(r[i].key) < KeySockets(key)
    {
      if i != m {
        OthersAreBelow(licenses, m, i);
      }
    }
  }

  lemma ApprovedAccountIsNamed(reg: Registry, thumbprint: string)
    requires Inv(reg) && Find(reg.accounts, R.AccountKey, thumbprint).Some?
    ensures thumbprint != ""
  {
    FindMeans(reg.accounts, R.AccountKey, thumbprint);
  }

  lemma RevokedStaysFresh(reg: Registry, k: string, order: IssueInput, env: IssueEnv)
    requires FreshIssue(reg, order, env)
    ensures FreshIssue(R.Apply(reg, R.SetLicenseStatus(k, Revoked)), order, env)
  {
  }

  /** The upgrade branch: revoke the active key, then mint. */
  lemma UpgradeMintKeepsInv(reg: Registry, order: IssueInput, env: IssueEnv, l: License, reg1: Registry)
    requires Inv(reg) && FreshIssue(reg, order, env) && order.thumbprint != ""
    requires Assigned(reg.licenses, order.thumbprint, order.product) == Some(l) && l.Active()
    requires NeedsSocketUpgrade(order, l)
    requires reg1 == R.Apply(reg, R.SetLicenseStatus(l.key, Revoked))
    ensures var out := Mint(reg1, order, env);
      Inv(out.reg) && (out.result.Ok? ==> out.reg == reg1.(licenses := reg1.licenses + [out.result.value]))
  {
    RevokeKeepsInv(reg, l.key);
    RevokedStaysFresh(reg, l.key, order, env);
    UpgradedIsSuperseded(reg, order, env, l, reg1);
    MintKeepsInv(reg1, order, env);
  }

  lemma UpgradedIsSuperseded(reg: Registry, order: IssueInput, env: IssueEnv, l: License, reg1: Registry)
    requires Inv(reg) && order.thumbprint != ""
    requires Assigned(reg.licenses, order.thumbprint, order.product) == Some(l) && l.Active()
    requires NeedsSocketUpgrade(order, l)
    requires reg1 == R.Apply(reg, R.SetLicenseStatus(l.key, Revoked))
    ensures var key := GenerateKey(order.product, order.level, order.sockets, env.entropy);
      key.Ok? ==> Superseded(reg1.licenses, order.thumbprint, order.product, key.value)
  {
    UpgradeCoversMore(order, env, l);
    var key := GenerateKey(order.product, order.level, order.sockets, env.entropy);
    if key.Ok? {
      UpgradeSupersedes(reg.licenses, order.thumbprint, order.product, l, key.value);
    }
  }

  lemma IssueKeepsInv(reg: Registry, order: IssueInput, env: IssueEnv)
    requires Inv(reg) && FreshIssue(reg, order, env)
    ensures Inv(Issuing(reg, order, env).reg)
  {
    if Find(reg.accounts, R.AccountKey, order.thumbprint).Some? {
      ApprovedAccountIsNamed(reg, order.thumbprint);
      AssignedMeans(reg.licenses, order.thumbprint, order.product);
      match Assigned(reg.licenses, order.thumbprint, order.product)
      case None =>
        MintKeepsInv(reg, order, env);
      case Some(l) =>
        if l.Active() && NeedsSocketUpgrade(order, l) {
          RevokeKeepsInv(reg, l.key);
          UpgradeMintKeepsInv(reg, order, env, l, R.Apply(reg, R.SetLicenseStatus(l.key, Revoked)));
        }
    }
  }

  // ----- every reachable state -----

  lemma RegisterKeepsInv(reg: Registry, acc: Account)
    requires Inv(reg) && acc.thumbprint != ""
    ensures Inv(R.Apply(reg, R.UpsertAccount(acc)))
  {
    R.MutationKeepsUniqueKeys(reg, R.UpsertAccount(acc));
    var i := UpsertShape(reg.accounts, R.AccountKey, acc);
  }

  lemma AddKeepsInv(reg: Registry, request: AddInput, now: Moment, write: bool)
    requires Inv(reg)
    ensures Inv(Adding(reg, request, now, write).reg)
  {
    var l := BuildLicense(request, now);
    if l.Ok? {
      UpsertUnownedKeepsInv(reg, l.value);
    }
  }

  lemma GenerateKeepsInv(reg: Registry, product: string, level: string, sockets: string, keep: bool,
                         entropy: Option<Entropy>, now: Moment, write: bool)
    requires Inv(reg)
    ensures Inv(Generating(reg, product, level, sockets, keep, entropy, now, write).reg)
  {
    GenerateKeyPrints(product, level, sockets, entropy);
    var key := GenerateKey(product, level, sockets, entropy);
    if key.Ok? {
      UpsertUnownedKeepsInv(reg, GeneratedLicense(key.value, product, now, "", ""));
    }
  }

  lemma DueKeepsInv(reg: Registry, k: string, due: string)
    requires Inv(reg)
    ensures Inv(R.Apply(reg, R.SetDue(k, due)))
  {
    R.MutationKeepsUniqueKeys(reg, R.SetDue(k, due));
    UpdateKeepsTiers(reg.licenses, k, R.WithDue(due));
  }

  lemma NoLicenseKeepsInv(reg: Registry, m: R.Mutation)
    requires Inv(reg) && (m.SetAccountStatus? || m.SetServerStatus? || m.SetServerNote? || m.RemoveServer?)
    ensures Inv(R.Apply(reg, m))
  {
    R.MutationKeepsUniqueKeys(reg, m);
  }

  lemma OperatorKeepsInv(reg: Registry, m: R.Mutation)
    requires Inv(reg) && OperatorMutation(m)
    ensures Inv(R.Apply(reg, m))
  {
    match m
    case RemoveLicense(k) => RemoveKeepsInv(reg, k);
    case SetDue(k, due) => DueKeepsInv(reg, k, due);
    case _ => NoLicenseKeepsInv(reg, m);
  }

  lemma ContactKeepsInv(reg: Registry, serverId: string, presented: string, product: string, auto: bool, now: string)
    requires Inv(reg)
    ensures Inv(R.Apply(reg, R.UpsertServer(serverId, presented, product, auto, now)))
  {
    R.MutationKeepsUniqueKeys(reg, R.UpsertServer(serverId, presented, product, auto, now));
  }

  lemma RegisteringKeepsInv(reg: Registry, t: string, k: string, sid: string, c: string, auto: bool, now: Moment, read: bool, write: bool)
    requires Inv(reg)
    ensures Inv(Registering(reg, t, k, sid, c, auto, now, read, write).reg)
  {
    var out := Registering(reg, t, k, sid, c, auto, now, read, write);
    if out.result.Ok? {
      RegisterKeepsInv(reg, out.result.value);
    }
  }

  lemma VerifyingKeepsInv(reg: Registry, serverId: string, key: string, token: string, auto: bool, now: Moment,
                          contactWrite: bool, licenseRead: bool)
    requires Inv(reg)
    ensures Inv(Verifying(reg, serverId, key, token, auto, now, contactWrite, licenseRead).0)
  {
    ContactKeepsInv(reg, serverId, key, Describe(key).product, auto, now.stamp);
  }

  lemma SupplyKeepsInv(reg: Registry, e: Event)
    requires Inv(reg) && (e.Add? || e.Generate? || e.Register?)
    ensures Inv(Step(reg, e))
  {
    match e
    case Add(request, now, write) =>
      AddKeepsInv(reg, request, now, write);
    case Generate(product, level, sockets, keep, entropy, now, write) =>
      GenerateKeepsInv(reg, product, level, sockets, keep, entropy, now, write);
    case Register(t, k, s, c, auto, now, read, write) =>
      RegisteringKeepsInv(reg, t, k, s, c, auto, now, read, write);
  }

  lemma StepKeepsInv(reg: Registry, e: Event)
    requires Inv(reg) && Allowed(reg, e)
    ensures Inv(Step(reg, e))
  {
    match e
    case Issue(order, env) =>
      IssueKeepsInv(reg, order, env);
    case Revoke(key, write) =>
      RevokeKeepsInv(reg, key);
    case Verify(s, key, token, auto, now, contactWrite, licenseRead) =>
      VerifyingKeepsInv(reg, s, key, token, auto, now, contactWrite, licenseRead);
    case Operate(m) =>
      OperatorKeepsInv(reg, m);
    case _ =>
      SupplyKeepsInv(reg, e);
  }

  /** The invariant holds in every state a serial run reaches. */
  lemma {:induction false} InvAlways(reg: Registry, es: seq<Event>)
    requires Inv(reg) && AllowedRun(reg, es)
    ensures Inv(Run(reg, es))
    decreases |es|
  {
    if es != [] {
      StepKeepsInv(reg, es[0]);
      InvAlways(Step(reg, es[0]), es[1..]);
    }
  }

  // ----- what the invariant means for a pair -----

  /** Position of a PVE socket count among the four tiers. */
  function TierRank(sockets: nat): nat {
    if sockets < 2 then 0 else if sockets < 4 then 1 else if sockets < 8 then 2 else 3
  }

  lemma {:induction false} RanksGrow(held: seq<License>, product: string)
    requires forall i, j | 0 <= i < j < |held| :: KeySockets(held[i].key) < KeySockets(held[j].key)
    requires forall i | 0 <= i < |held| :: ValidKey(held[i].key) && ParseKey(held[i].key).product == product
    ensures held != [] ==> |held| <= 1 + TierRank(KeySockets(held[|held| - 1].key))
    ensures product != "pve" ==> |held| <= 1
  {
    if held != [] {
      var last := held[|held| - 1];
      PrintParse(last.key);
      if |held| > 1 {
        var rest := held[..|held| - 1];
        RanksGrow(rest, product);
        PrintParse(rest[|rest| - 1].key);
        assert KeySockets(rest[|rest| - 1].key) < KeySockets(last.key);
      }
    }
  }

  /** In every reachable state, the keys one account holds for one product have
      strictly growing socket counts and only the last may be active; so there are at
      most four of them for PVE and at most one for PBS and for PMG. */
  lemma HeldKeys(reg: Registry, account: string, product: string)
    requires Inv(reg) && account != ""
    ensures var held := Held(reg.licenses, account, product);
      && (forall i, j | 0 <= i < j < |held| :: KeySockets(held[i].key) < KeySockets(held[j].key) && !held[i].Active())
      && (forall i | 0 <= i < |held| - 1 :: !held[i].Active())
      && |held| <= (if product == "pve" then 4 else 1)
  {
    var held := Held(reg.licenses, account, product);
    forall i, j | 0 <= i < j < |held|
      ensures KeySockets(held[i].key) < KeySockets(held[j].key) && !held[i].Active()
    {
      var i', j' := HeldIndex(reg.licenses, account, product, i, j);
      assert SamePair(reg.licenses[i'], reg.licenses[j']);
    }
    forall i | 0 <= i < |held| ensures ValidKey(held[i].key) && ParseKey(held[i].key).product == product {
      var i', j' := HeldIndex(reg.licenses, account, product, i, i);
      assert Minted(reg.licenses[i']);
    }
    forall i | 0 <= i < |held| - 1 ensures !held[i].Active() {
      assert KeySockets(held[i].key) < KeySockets(held[|held| - 1].key);
    }
    RanksGrow(held, product);
  }

  // ----- what a successful order gives -----

  /** A license that answers an order: an active key of the account for the product,
      shown under its marked name, that covers any numeric number of sockets asked for. */
  predicate Serves(l: License, order: IssueInput) {
    && l.Active() && OwnedBy(l, order.thumbprint, order.product)
    && ValidKey(l.key) && IsLabKey(l.key) && ParseKey(l.key).product == order.product
    && l.productName == DisplayName(l.key)
    && (order.product == "pve" && Atoi(order.sockets).Some? ==> Atoi(order.sockets).value <= KeySockets(l.key))
  }

  /** A minted license serves the order, for the host that placed it and for a year. */
  lemma MintServes(reg: Registry, order: IssueInput, env: IssueEnv)
    requires Mint(reg, order, env).result.Ok?
    ensures var l := Mint(reg, order, env).result.value;
      && Serves(l, order)
      && l.status == Approved && l.serverId == order.serverId
      && l.regDate == env.now.today && l.nextDueDate == env.now.nextYear
  {
    GenerateKeyPrints(order.product, order.level, order.sockets, env.entropy);
    if order.sockets == "" {
      assert Atoi(order.sockets).None?;
    }
  }

  /** A license made anew for an account, a host, a level and a socket count as they stand
      in a request: community level and one socket when it names none. */
  predicate MadeFor(l: License, account: string, serverId: string, level: string, sockets: string) {
    && l.account == account && l.serverId == serverId && l.status == Approved
    && ValidKey(l.key)
    && [ParseKey(l.key).level] == (if level == "" then "c" else level)
    && (l.product == "pve" ==> if sockets == "" then KeySockets(l.key) == 1 else Atoi(sockets) == Some(KeySockets(l.key)))
    && l.productName == Describe(l.key).name + " " + "(LAB, proxmox-license-proxy - NOT FOR PRODUCTION)"
  }

  lemma MintIsMadeFor(reg: Registry, order: IssueInput, env: IssueEnv)
    requires Mint(reg, order, env).result.Ok?
    ensures MadeFor(Mint(reg, order, env).result.value, order.thumbprint, order.serverId, order.level, order.sockets)
  {
    GenerateKeyPrints(order.product, order.level, order.sockets, env.entropy);
  }

  lemma ReuseServes(reg: Registry, order: IssueInput, l: License)
    requires Inv(reg) && order.thumbprint != ""
    requires Assigned(reg.licenses, order.thumbprint, order.product) == Some(l) && l.Active()
    requires !NeedsSocketUpgrade(order, l)
    ensures Serves(l, order) && l in reg.licenses
  {
    AssignedMeans(reg.licenses, order.thumbprint, order.product);
    var m :| 0 <= m < |reg.licenses| && OwnedBy(reg.licenses[m], order.thumbprint, order.product) && reg.licenses[m] == l;
    assert Minted(reg.licenses[m]) && IsLabKey(reg.licenses[m].key);
    if order.sockets == "" {
      assert Atoi(order.sockets).None?;
    }
  }

  /** The ways an order succeeds: a first key, the key it already has, or an upgrade. */
  lemma SuccessCases(reg: Registry, order: IssueInput, env: IssueEnv)
    requires Issuing(reg, order, env).result.Ok?
    ensures var current := Assigned(reg.licenses, order.thumbprint, order.product);
      var out := Issuing(reg, order, env);
      && Find(reg.accounts, R.AccountKey, order.thumbprint).Some?
      && (current.None? ==> out == Mint(reg, order, env))
      && (current.Some? ==>
            && current.value.Active()
            && out == if NeedsSocketUpgrade(order, current.value)
                      then Mint(R.Apply(reg, R.SetLicenseStatus(current.value.key, Revoked)), order, env)
                      else Outcome(reg, Ok(current.value)))
  {
  }

  lemma AppendedIsAssigned(before: seq<License>, after: seq<License>, order: IssueInput, l: License)
    requires after == before + [l] && TierOrdered(after)
    requires order.thumbprint != "" && Serves(l, order)
    ensures l in after && Assigned(after, order.thumbprint, order.product) == Some(l)
  {
    assert after[|before|] == l;
    ActiveIsAssigned(after, |before|);
  }

  /** A successful order returns a license that was there before, or one made for it. */
  lemma IssuedIsKeptOrMade(reg: Registry, order: IssueInput, env: IssueEnv)
    requires Issuing(reg, order, env).result.Ok?
    ensures var l := Issuing(reg, order, env).result.value;
      l in reg.licenses || MadeFor(l, order.thumbprint, order.serverId, order.level, order.sockets)
  {
    SuccessCases(reg, order, env);
    match Assigned(reg.licenses, order.thumbprint, order.product)
    case None => MintIsMadeFor(reg, order, env);
    case Some(l) =>
      if NeedsSocketUpgrade(order, l) {
        MintIsMadeFor(R.Apply(reg, R.SetLicenseStatus(l.key, Revoked)), order, env);
      } else {
        AssignedMeans(reg.licenses, order.thumbprint, order.product);
      }
  }

  /** The key a successful order returns serves it, and it is what the registry now
      assigns to the pair. */
  lemma IssuedKey(reg: Registry, order: IssueInput, env: IssueEnv)
    requires Inv(reg) && FreshIssue(reg, order, env)
    requires Issuing(reg, order, env).result.Ok?
    ensures var out := Issuing(reg, order, env);
      var l := out.result.value;
      && order.thumbprint != "" && Serves(l, order)
      && l in out.reg.licenses
      && Assigned(out.reg.licenses, order.thumbprint, order.product) == Some(l)
  {
    SuccessCases(reg, order, env);
    ApprovedAccountIsNamed(reg, order.thumbprint);
    match Assigned(reg.licenses, order.thumbprint, order.product)
    case None => FirstKey(reg, order, env);
    case Some(current) =>
      if NeedsSocketUpgrade(order, current) {
        UpgradedKey(reg, order, env, current);
      } else {
        ReuseServes(reg, order, current);
      }
  }

  lemma FirstKey(reg: Registry, order: IssueInput, env: IssueEnv)
    requires Inv(reg) && FreshIssue(reg, order, env) && order.thumbprint != ""
    requires Assigned(reg.licenses, order.thumbprint, order.product).None?
    requires Mint(reg, order, env).result.Ok?
    ensures var out := Mint(reg, order, env);
      && Serves(out.result.value, order) && out.result.value in out.reg.licenses
      && Assigned(out.reg.licenses, order.thumbprint, order.product) == Some(out.result.value)
  {
    AssignedMeans(reg.licenses, order.thumbprint, order.product);
    MintKeepsInv(reg, order, env);
    MintServes(reg, order, env);
    var out := Mint(reg, order, env);
    AppendedIsAssigned(reg.licenses, out.reg.licenses, order, out.result.value);
  }

  lemma UpgradedKey(reg: Registry, order: IssueInput, env: IssueEnv, l: License)
    requires Inv(reg) && FreshIssue(reg, order, env) && order.thumbprint != ""
    requires Assigned(reg.licenses, order.thumbprint, order.product) == Some(l) && l.Active()
    requires NeedsSocketUpgrade(order, l)
    requires Mint(R.Apply(reg, R.SetLicenseStatus(l.key, Revoked)), order, env).result.Ok?
    ensures var out := Mint(R.Apply(reg, R.SetLicenseStatus(l.key, Revoked)), order, env);
      && Serves(out.result.value, order) && out.result.value in out.reg.licenses
      && Assigned(out.reg.licenses, order.thumbprint, order.product) == Some(out.result.value)
  {
    var reg1 := R.Apply(reg, R.SetLicenseStatus(l.key, Revoked));
    UpgradeMintKeepsInv(reg, order, env, l, reg1);
    MintServes(reg1, order, env);
    var out := Mint(reg1, order, env);
    AppendedIsAssigned(reg1.licenses, out.reg.licenses, order, out.result.value);
  }

  lemma IssueLeavesAccounts(reg: Registry, order: IssueInput, env: IssueEnv)
    ensures Issuing(reg, order, env).reg.accounts == reg.accounts
  {
  }

  /** Repeating a successful order gives the same license and changes nothing,
      whatever the random bytes and the clock say the second time. */
  lemma IssueIsIdempotent(reg: Registry, order: IssueInput, env: IssueEnv, again: IssueEnv)
    requires Inv(reg) && FreshIssue(reg, order, env)
    requires Issuing(reg, order, env).result.Ok?
    requires again.accountRead && again.listRead
    ensures var out := Issuing(reg, order, env);
      Issuing(out.reg, order, again) == out
  {
    IssuedKey(reg, order, env);
    IssueLeavesAccounts(reg, order, env);
    var l := Issuing(reg, order, env).result.value;
    assert !NeedsSocketUpgrade(order, l);
  }

  /** The pair has no key yet, or an active one. */
  predicate Open(reg: Registry, account: string, product: string) {
    var current := Assigned(reg.licenses, account, product);
    current.None? || current.value.Active()
  }

  /** The account is approved, the order well formed, and nothing outside fails. */
  predicate Favourable(reg: Registry, order: IssueInput, env: IssueEnv) {
    var acc := Find(reg.accounts, R.AccountKey, order.thumbprint);
    && acc.Some? && acc.value.status == Approved
    && ProductCode(order.product)
    && |EffectiveLevel(order.level)| == 1 && IsLevel(EffectiveLevel(order.level)[0])
    && (order.product == "pve" ==> order.sockets == "" || ValidSockets(order.sockets))
    && env.entropy.Some? && env.accountRead && env.listRead && env.revokeWrite && env.addWrite
  }

  /** Nothing but a revocation stands between a well-formed order and its key. */
  lemma FavourableOrderSucceeds(reg: Registry, order: IssueInput, env: IssueEnv)
    requires Favourable(reg, order, env)
    ensures Issuing(reg, order, env).result.Ok? <==> Open(reg, order.thumbprint, order.product)
  {
    GenerateKeyPrints(order.product, order.level, order.sockets, env.entropy);
  }

  /** A host of n sockets that orders the tier chosen for it gets a key unless its key was
      revoked, and the key covers the host exactly when it has at most eight sockets. */
  lemma HostIsCovered(reg: Registry, order: IssueInput, env: IssueEnv, n: int)
    requires Inv(reg) && FreshIssue(reg, order, env) && Favourable(reg, order, env)
    requires order.product == "pve" && order.sockets == PVESocketTier(n)
    requires Open(reg, order.thumbprint, "pve")
    ensures Issuing(reg, order, env).result.Ok?
    ensures n <= KeySockets(Issuing(reg, order, env).result.value.key) <==> n <= 8
  {
    FavourableOrderSucceeds(reg, order, env);
    IssuedKey(reg, order, env);
    TierCovers(Issuing(reg, order, env).result.value, order, n);
  }

  lemma TierCovers(l: License, order: IssueInput, n: int)
    requires Serves(l, order) && order.product == "pve" && order.sockets == PVESocketTier(n)
    ensures n <= KeySockets(l.key) <==> n <= 8
  {
    AtoiOfSocketDigit(order.sockets);
    PrintParse(l.key);
  }

  // ----- failed orders -----

  /** Why an order is refused: its product is unknown, its account is not approved, or the
      account holds keys for the product of which none is active. */
  lemma IssueIsRefused(reg: Registry, order: IssueInput, env: IssueEnv)
    ensures var result := Issuing(reg, order, env).result;
      var acc := Find(reg.accounts, R.AccountKey, order.thumbprint);
      var approved := acc.Some? && acc.value.status == Approved;
      && (result == Err(ServiceError.UnknownProduct) <==> !ProductCode(order.product))
      && (result == Err(AccountNotApproved) <==> ProductCode(order.product) && env.accountRead && !approved)
      && (result == Err(SubscriptionRevoked) <==>
            ProductCode(order.product) && env.accountRead && approved && env.listRead && HoldsOnlyInactive(reg.licenses, order.thumbprint, order.product))
  {
    AssignedMeans(reg.licenses, order.thumbprint, order.product);
    var current := Assigned(reg.licenses, order.thumbprint, order.product);
    assert HoldsOnlyInactive(reg.licenses, order.thumbprint, order.product) <==> current.Some? && !current.value.Active();
  }

  ghost predicate HoldsOnlyInactive(licenses: seq<License>, account: string, product: string) {
    && (exists i :: 0 <= i < |licenses| && OwnedBy(licenses[i], account, product))
    && (forall i | 0 <= i < |licenses| && OwnedBy(licenses[i], account, product) :: !licenses[i].Active())
  }

  lemma RevokingActiveChanges(reg: Registry, account: string, product: string)
    requires Assigned(reg.licenses, account, product).Some? && Assigned(reg.licenses, account, product).value.Active()
    ensures R.Apply(reg, R.SetLicenseStatus(Assigned(reg.licenses, account, product).value.key, Revoked)) != reg
  {
    AssignedMeans(reg.licenses, account, product);
    var l := Assigned(reg.licenses, account, product).value;
    var m :| 0 <= m < |reg.licenses| && reg.licenses[m] == l;
    assert !R.Apply(reg, R.SetLicenseStatus(l.key, Revoked)).licenses[m].Active();
  }

  /** The order reaches the revocation of the active key it wants replaced. */
  predicate Upgrades(reg: Registry, order: IssueInput, env: IssueEnv) {
    var acc := Find(reg.accounts, R.AccountKey, order.thumbprint);
    var current := Assigned(reg.licenses, order.thumbprint, order.product);
    && ProductCode(order.product)
    && env.accountRead && acc.Some? && acc.value.status == Approved
    && env.listRead && current.Some? && current.value.Active() && NeedsSocketUpgrade(order, current.value)
    && env.revokeWrite
  }

  lemma FailedIssueResult(reg: Registry, order: IssueInput, env: IssueEnv)
    requires Issuing(reg, order, env).result.Err?
    ensures Issuing(reg, order, env).reg ==
      if Upgrades(reg, order, env)
      then R.Apply(reg, R.SetLicenseStatus(Assigned(reg.licenses, order.thumbprint, order.product).value.key, Revoked))
      else reg
  {
  }

  /** A failed order changes the registry exactly when it was an upgrade: then the active
      key was revoked before no new key could be generated or stored, and the registry it
      leaves is the old one with that key revoked. */
  lemma FailedIssueChanges(reg: Registry, order: IssueInput, env: IssueEnv)
    requires Issuing(reg, order, env).result.Err?
    ensures Issuing(reg, order, env).reg != reg <==> Upgrades(reg, order, env)
    ensures Upgrades(reg, order, env) ==>
      Issuing(reg, order, env).reg ==
        R.Apply(reg, R.SetLicenseStatus(Assigned(reg.licenses, order.thumbprint, order.product).value.key, Revoked))
  {
    FailedIssueResult(reg, order, env);
    if Upgrades(reg, order, env) {
      RevokingActiveChanges(reg, order.thumbprint, order.product);
    }
  }

  /** An upgrade fails exactly when no key can be generated for the wanted level and
      sockets, or the new key cannot be stored. */
  lemma UpgradeFails(reg: Registry, order: IssueInput, env: IssueEnv)
    requires Upgrades(reg, order, env)
    ensures Issuing(reg, order, env).result.Err? <==>
      || !env.addWrite || env.entropy == None
      || |EffectiveLevel(order.level)| != 1 || !IsLevel(EffectiveLevel(order.level)[0])
      || !ValidSockets(order.sockets)
  {
    GenerateKeyPrints(order.product, order.level, order.sockets, env.entropy);
  }

  // ----- what the check says about issued keys and operator decisions -----

  /** A key just issued is honoured for any host that names itself, whatever an
      operator decided about that host and whether or not the contact was stored. */
  lemma IssuedKeyIsHonoured(reg: Registry, order: IssueInput, env: IssueEnv,
                            serverId: string, token: string, auto: bool, now: Moment, contactWrite: bool)
    requires Inv(reg) && FreshIssue(reg, order, env)
    requires Issuing(reg, order, env).result.Ok? && serverId != ""
    ensures var out := Issuing(reg, order, env);
      Verifying(out.reg, serverId, out.result.value.key, token, auto, now, contactWrite, true).1.active
  {
    var out := Issuing(reg, order, env);
    var l := out.result.value;
    IssuedKey(reg, order, env);
    IssueKeepsInv(reg, order, env);
    UniqueIsFound(out.reg.licenses, l);
    OwnedActiveIsHonoured(out.reg, l, serverId, token, auto, now, contactWrite);
  }

  lemma OwnedActiveIsHonoured(reg: Registry, l: License, serverId: string, token: string, auto: bool, now: Moment, contactWrite: bool)
    requires Find(reg.licenses, R.LicenseKey, l.key) == Some(l)
    requires l.account != "" && l.Active() && serverId != ""
    ensures Verifying(reg, serverId, l.key, token, auto, now, contactWrite, true).1.active
  {
  }

  lemma UniqueIsFound(licenses: seq<License>, l: License)
    requires Unique(licenses, R.LicenseKey) && l in licenses
    ensures Find(licenses, R.LicenseKey, l.key) == Some(l)
  {
  }
}
