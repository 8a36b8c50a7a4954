/** Small registries that satisfy the lifecycle invariant, and on which the program does
    less than its comments promise: failed look-ups, decisions made between two accesses of
    one operation, orders that overlap with each other or with a revocation, and upgrades
    that fail. The exact conditions, for all registries, are beside the properties they
    bound. */
module Counterexamples {
  import opened Wrappers
  import opened Records
  import opened KeyedLists
  import opened Keys
  import R = Registries
  import opened Services
  import L = Lifecycle
  import D = Revocations
  import C = ConcurrentOrders
  import P = Provenance

  /** A key that generation can give for PVE. */
  predicate LabKey(key: string) {
    ValidKey(key) && IsLabKey(key) && ParseKey(key).product == "pve"
  }

  lemma SomeLabKey(e: Entropy) returns (key: string)
    ensures LabKey(key) && KeySockets(key) == 1
  {
    GenerateKeyPrints("pve", "", "", Some(e));
    key := GenerateKey("pve", "", "", Some(e)).value;
  }

  function Host(key: string, status: Status): Server {
    Server("host", key, "pve", status, "", "", "")
  }

  function Owner(status: Status): Account {
    Account("acct", "pub", "host", "", status, "")
  }

  function Issued(key: string, status: Status): License {
    License(key, "pve", DisplayName(key), "", "", status, "host", "acct")
  }

  /** A revoked key of an approved host is answered "active" exactly when the look-up of
      the key fails. */
  lemma UnreadRevocationIsHonoured(key: string, now: Moment, licenseRead: bool, reg: Registry)
    requires LabKey(key) && reg == Registry([Issued(key, Revoked)], [Host(key, Approved)], [])
    ensures L.Inv(reg)
    ensures Verifying(reg, "host", key, "", false, now, true, licenseRead).1.active <==> !licenseRead
  {
    assert R.LicenseKey(reg.licenses[0]) == key;
    assert D.Dead(reg, key);
    D.DeadKeyIsInactive(reg, key, "host", "", false, now, true, licenseRead);
  }

  /** A blocked account that registers again from a trusted network is approved exactly
      when the look-up of the account fails. */
  lemma UnreadBlockIsUndone(now: Moment, read: bool, reg: Registry)
    requires reg == Registry([], [], [Owner(Blocked)])
    ensures L.Inv(reg)
    ensures var out := Registering(reg, "acct", "pub", "host", "", true, now, read, true);
      |out.reg.accounts| == 1 && out.reg.accounts[0].status == (if read then Blocked else Approved)
  {
  }

  /** An account that an operator blocks after a registration has looked it up, and before
      it is stored again, is approved again although the look-up worked. */
  lemma BlockBetweenIsUndone(now: Moment, before: Registry, after: Registry, acc: Account)
    requires before == Registry([], [], [Owner(Approved)])
    requires after == R.Apply(before, R.SetAccountStatus("acct", Blocked))
    requires acc == AccountToStore(AccountSeen(before, "acct", true), "acct", "pub", "host", "", false, now)
    ensures L.Inv(before) && L.Inv(after)
    ensures Find(after.accounts, R.AccountKey, "acct") == Some(Owner(Blocked))
    ensures Find(R.Apply(after, R.UpsertAccount(acc)).accounts, R.AccountKey, "acct") == Some(Owner(Approved))
  {
    assert after.accounts == [Owner(Blocked)];
    P.AccountAfter(after, R.UpsertAccount(acc), acc.thumbprint);
  }

  /** A blocked host with a key that an account was issued is answered "active". */
  lemma BlockedHostIsServed(key: string, now: Moment, reg: Registry)
    requires LabKey(key) && reg == Registry([Issued(key, Approved)], [Host(key, Blocked)], [])
    ensures L.Inv(reg)
    ensures Verifying(reg, "host", key, "", false, now, true, true).1.active
  {
    L.OwnedActiveIsHonoured(reg, reg.licenses[0], "host", "", false, now, true);
  }

  /** An order for more sockets at an unknown level fails, and the account's only key is
      revoked all the same. */
  lemma FailedUpgradeRevokes(key: string, env: IssueEnv, reg: Registry, order: IssueInput)
    requires LabKey(key) && KeySockets(key) == 1
    requires reg == Registry([Issued(key, Approved)], [], [Owner(Approved)])
    requires order == IssueInput("acct", "host", "pve", "z", "2")
    requires env.accountRead && env.listRead && env.revokeWrite
    ensures L.Inv(reg)
    ensures Issuing(reg, order, env).result.Err?
    ensures Issuing(reg, order, env).reg == reg.(licenses := [Issued(key, Revoked)])
  {
    AtoiOfSocketDigit("2");
    UpgradeOfOnlyKey(reg, reg.licenses[0], order, env);
  }

  lemma UpgradeOfOnlyKey(reg: Registry, l: License, order: IssueInput, env: IssueEnv)
    requires reg.licenses == [l] && l.Active() && OwnedBy(l, order.thumbprint, order.product)
    requires Find(reg.accounts, R.AccountKey, order.thumbprint).Some?
    requires Find(reg.accounts, R.AccountKey, order.thumbprint).value.status == Approved
    requires ProductCode(order.product) && NeedsSocketUpgrade(order, l)
    requires |EffectiveLevel(order.level)| != 1 || !IsLevel(EffectiveLevel(order.level)[0])
    requires env.accountRead && env.listRead && env.revokeWrite
    ensures Issuing(reg, order, env).result.Err?
    ensures Issuing(reg, order, env).reg == reg.(licenses := [l.(status := Revoked)])
  {
    OnlyKeyIsAssigned(l);
    assert L.Upgrades(reg, order, env);
    L.UpgradeFails(reg, order, env);
    L.FailedIssueChanges(reg, order, env);
  }

  lemma OnlyKeyIsAssigned(l: License)
    ensures Assigned([l], l.account, l.product) == Some(l)
  {
    assert [l][1..] == [];
    assert Held([l], l.account, l.product) == [l];
    L.PickMeans([l]);
  }

  // ----- two orders at once -----

  function AddKey(e: Entropy, now: Moment): C.Access {
    C.AddNew(Some(e), now, true)
  }

  /** Both orders have read the account and the list, in which the pair holds nothing. */
  function BothRead(reg: Registry, order: IssueInput): C.State {
    C.State(reg, map[0 := C.Order(order, C.Minting(None)), 1 := C.Order(order, C.Minting(None))], {})
  }

  /** An approved account with no key, and an order that a key can be generated for. */
  ghost predicate FirstOrder(reg: Registry, order: IssueInput) {
    && L.Inv(reg) && reg.licenses == [] && order.thumbprint != ""
    && Find(reg.accounts, R.AccountKey, order.thumbprint).Some?
    && Find(reg.accounts, R.AccountKey, order.thumbprint).value.status == Approved
    && ProductCode(order.product)
    && forall e: Entropy :: GenerateKey(order.product, order.level, order.sockets, Some(e)).Ok?
  }

  /** The accesses of two orders that read in turns. */
  lemma OrdersRead(reg: Registry, order: IssueInput, s: C.State)
    requires FirstOrder(reg, order)
    requires s == C.State(reg, map[0 := C.Order(order, C.Called), 1 := C.Order(order, C.Called)], {})
    ensures C.Inv(s)
    ensures var es := [C.Advance(0, C.ReadAccount(true)), C.Advance(1, C.ReadAccount(true)),
                       C.Advance(0, C.ReadList(true)), C.Advance(1, C.ReadList(true))];
      C.AllowedRun(s, es) && C.Run(s, es) == BothRead(reg, order)
  {
    var a0, a1 := C.Advance(0, C.ReadAccount(true)), C.Advance(1, C.ReadAccount(true));
    var l0, l1 := C.Advance(0, C.ReadList(true)), C.Advance(1, C.ReadList(true));
    var s1 := s.(orders := s.orders[0 := C.Order(order, C.Cleared)]);
    var s2 := s1.(orders := s1.orders[1 := C.Order(order, C.Cleared)]);
    var s3 := s2.(orders := s2.orders[0 := C.Order(order, C.Minting(None))]);
    var s4 := s3.(orders := s3.orders[1 := C.Order(order, C.Minting(None))]);
    assert s4.orders == BothRead(reg, order).orders;
    RunOfOne(s3, l1);
    RunOfMore(s2, l0, [l1]);
    RunOfMore(s1, a1, [l0, l1]);
    RunOfMore(s, a0, [a1, l0, l1]);
  }

  lemma RunOfOne(s: C.State, e: C.Event)
    requires C.Enabled(s, e) && C.Fresh(s, e)
    ensures C.AllowedRun(s, [e]) && C.Run(s, [e]) == C.Next(s, e)
  {
    assert C.AllowedRun(C.Next(s, e), []);
    RunOfMore(s, e, []);
  }

  lemma RunOfMore(s: C.State, e: C.Event, es: seq<C.Event>)
    requires C.Enabled(s, e) && C.Fresh(s, e) && C.AllowedRun(C.Next(s, e), es)
    ensures C.AllowedRun(s, [e] + es) && C.Run(s, [e] + es) == C.Run(C.Next(s, e), es)
  {
    assert ([e] + es)[1..] == es;
  }

  lemma BothAreFresh(reg: Registry, order: IssueInput, now: Moment, e: Entropy, f: Entropy, reg1: Registry)
    requires reg.licenses == [] && e[0] != f[0]
    requires GenerateKey(order.product, order.level, order.sockets, Some(e)).Ok?
    requires reg1 == Mint(reg, order, C.MintEnv(Some(e), now, true)).reg
    ensures L.FreshIssue(reg, order, C.MintEnv(Some(e), now, true))
    ensures L.FreshIssue(reg1, order, C.MintEnv(Some(f), now, true))
  {
    L.MintAppends(reg, order, C.MintEnv(Some(e), now, true));
    KeysCollide(order.product, order.level, order.sockets, e, f);
  }

  /** When both then add a key, with different random bytes, the account has two active
      keys for the product: both are in the registry, and the tier order is broken. */
  lemma SimultaneousOrdersGiveTwoKeys(reg: Registry, order: IssueInput, now: Moment, e: Entropy, f: Entropy,
                                      s: C.State, s1: C.State, s2: C.State)
    requires FirstOrder(reg, order) && e[0] != f[0] && s == BothRead(reg, order)
    requires s1 == C.Next(s, C.Advance(0, AddKey(e, now))) && s2 == C.Next(s1, C.Advance(1, AddKey(f, now)))
    ensures C.Fresh(s, C.Advance(0, AddKey(e, now))) && C.Fresh(s1, C.Advance(1, AddKey(f, now)))
    ensures |s2.reg.licenses| == 2 && !L.TierOrdered(s2.reg.licenses)
    ensures forall l | l in s2.reg.licenses :: l.Active() && OwnedBy(l, order.thumbprint, order.product)
  {
    BothAreFresh(reg, order, now, e, f, s1.reg);
    TwoAdds(s, order, AddKey(e, now), AddKey(f, now));
  }

  lemma TwoAdds(s: C.State, order: IssueInput, a: C.Access, b: C.Access)
    requires s.reg.licenses == [] && order.thumbprint != "" && s == BothRead(s.reg, order) && a.AddNew? && b.AddNew?
    requires C.Adds(s, C.Advance(0, a)) && C.Fresh(s, C.Advance(0, a))
    requires var s1 := C.Next(s, C.Advance(0, a)); C.Adds(s1, C.Advance(1, b)) && C.Fresh(s1, C.Advance(1, b))
    ensures var licenses := C.Next(C.Next(s, C.Advance(0, a)), C.Advance(1, b)).reg.licenses;
      && |licenses| == 2 && !L.TierOrdered(licenses)
      && forall l | l in licenses :: l.Active() && OwnedBy(l, order.thumbprint, order.product)
  {
    C.OverlappingAddsBreakTheGuarantee(s, 0, 1, a, b);
  }

  /** There is such an account and such an order. */
  lemma SomeFirstOrder(reg: Registry, order: IssueInput)
    requires reg == Registry([], [], [Owner(Approved)]) && order == IssueInput("acct", "host", "pbs", "", "")
    ensures FirstOrder(reg, order)
  {
    forall e: Entropy ensures GenerateKey(order.product, order.level, order.sockets, Some(e)).Ok? {
      GenerateKeyPrints(order.product, order.level, order.sockets, Some(e));
    }
  }

  // ----- an order across a revocation -----

  /** An approved account with one active key, and an order that wants a bigger one. */
  ghost predicate UpgradeOrder(reg: Registry, l: License, order: IssueInput, e: Entropy) {
    && L.Inv(reg) && reg.licenses == [l] && l.Active() && OwnedBy(l, order.thumbprint, order.product) && l.account != ""
    && Find(reg.accounts, R.AccountKey, order.thumbprint).Some?
    && Find(reg.accounts, R.AccountKey, order.thumbprint).value.status == Approved
    && ProductCode(order.product) && NeedsSocketUpgrade(order, l)
    && GenerateKey(order.product, order.level, order.sockets, Some(e)).Ok?
  }

  /** The order is the only one, and in this phase. */
  function OneOrder(reg: Registry, order: IssueInput, phase: C.Phase): C.State {
    C.State(reg, map[0 := C.Order(order, phase)], {})
  }

  lemma OneOrderMoves(reg: Registry, order: IssueInput, phase: C.Phase, access: C.Access)
    requires C.Follows(phase, access) && !access.AddNew?
    ensures var (reg', phase') := C.After(reg, order, phase, access);
      C.Next(OneOrder(reg, order, phase), C.Advance(0, access)) == OneOrder(reg', order, phase')
  {
    var (reg', phase') := C.After(reg, order, phase, access);
    var x := C.Order(order, phase');
    assert OneOrder(reg, order, phase).orders[0 := x] == map[0 := x];
  }

  lemma ReadsUnderway(reg: Registry, l: License, order: IssueInput, e: Entropy, s: C.State)
    requires UpgradeOrder(reg, l, order, e) && s == C.State(reg, map[], {})
    ensures C.Inv(s)
    ensures var es := [C.Call(0, order), C.Advance(0, C.ReadAccount(true)), C.Advance(0, C.ReadList(true))];
      C.AllowedRun(s, es) && C.Run(s, es) == OneOrder(reg, order, C.Replacing(l))
  {
    var called, cleared := OneOrder(reg, order, C.Called), OneOrder(reg, order, C.Cleared);
    OneOrderMoves(reg, order, C.Called, C.ReadAccount(true));
    OneOrderMoves(reg, order, C.Cleared, C.ReadList(true));
    assert C.Next(s, C.Call(0, order)) == called;
    RunOfOne(cleared, C.Advance(0, C.ReadList(true)));
    RunOfMore(called, C.Advance(0, C.ReadAccount(true)), [C.Advance(0, C.ReadList(true))]);
    RunOfMore(s, C.Call(0, order), [C.Advance(0, C.ReadAccount(true)), C.Advance(0, C.ReadList(true))]);
  }

  lemma RevokedTwice(reg: Registry, l: License, order: IssueInput, reg1: Registry)
    requires reg.licenses == [l] && reg1 == reg.(licenses := [l.(status := Revoked)])
    ensures var es := [C.Other(R.SetLicenseStatus(l.key, Revoked)), C.Advance(0, C.RevokeOld(true))];
      var s := OneOrder(reg, order, C.Replacing(l));
      C.AllowedRun(s, es) && C.Run(s, es) == OneOrder(reg1, order, C.Minting(Some(l)))
  {
    OneOrderMoves(reg1, order, C.Replacing(l), C.RevokeOld(true));
    RunOfOne(OneOrder(reg1, order, C.Replacing(l)), C.Advance(0, C.RevokeOld(true)));
    RunOfMore(OneOrder(reg, order, C.Replacing(l)), C.Other(R.SetLicenseStatus(l.key, Revoked)), [C.Advance(0, C.RevokeOld(true))]);
  }

  lemma {:induction false} RunsJoin(s: C.State, es: seq<C.Event>, fs: seq<C.Event>)
    requires C.AllowedRun(s, es) && C.AllowedRun(C.Run(s, es), fs)
    ensures C.AllowedRun(s, es + fs) && C.Run(s, es + fs) == C.Run(C.Run(s, es), fs)
    decreases |es|
  {
    if es == [] {
      assert es + fs == fs;
    } else {
      assert (es + fs)[1..] == es[1..] + fs;
      RunsJoin(C.Next(s, es[0]), es[1..], fs);
    }
  }

  /** The order is called and reads, an operator revokes the key, the order goes on to its
      own revocation of the key, and stands before adding a new one. */
  lemma RevokedUnderway(reg: Registry, l: License, order: IssueInput, e: Entropy, s: C.State, reg1: Registry)
    returns (es: seq<C.Event>)
    requires UpgradeOrder(reg, l, order, e)
    requires s == C.State(reg, map[], {}) && reg1 == reg.(licenses := [l.(status := Revoked)])
    ensures es == [C.Call(0, order), C.Advance(0, C.ReadAccount(true)), C.Advance(0, C.ReadList(true)),
                   C.Other(R.SetLicenseStatus(l.key, Revoked)), C.Advance(0, C.RevokeOld(true))]
    ensures C.Inv(s) && C.AllowedRun(s, es) && C.Run(s, es) == OneOrder(reg1, order, C.Minting(Some(l)))
    ensures D.Barred(reg1, order.thumbprint, order.product, l.key)
  {
    ReadsUnderway(reg, l, order, e, s);
    RevokedTwice(reg, l, order, reg1);
    var first := [C.Call(0, order), C.Advance(0, C.ReadAccount(true)), C.Advance(0, C.ReadList(true))];
    var second := [C.Other(R.SetLicenseStatus(l.key, Revoked)), C.Advance(0, C.RevokeOld(true))];
    RunsJoin(s, first, second);
    es := first + second;
    assert reg1.licenses[0].key == l.key && OwnedBy(reg1.licenses[0], order.thumbprint, order.product);
  }

  /** Then it adds its key, and the pair that was revoked has an active key again. */
  lemma RevocationIsEscaped(l: License, order: IssueInput, e: Entropy, now: Moment, reg: Registry, s1: C.State)
    requires UpgradeOrder(reg, l, order, e)
    requires s1 == OneOrder(reg.(licenses := [l.(status := Revoked)]), order, C.Minting(Some(l)))
    ensures C.Refused(s1, order)
    ensures C.Fresh(s1, C.Advance(0, AddKey(e, now))) && C.AddsFor(s1, C.Advance(0, AddKey(e, now)), order.thumbprint, order.product)
    ensures !C.Refused(C.Next(s1, C.Advance(0, AddKey(e, now))), order)
  {
    OnlyKeyIsAssigned(l.(status := Revoked));
    L.UpgradeCoversMore(order, C.MintEnv(Some(e), now, true), l);
    C.OpenOrderEscapesRevocation(s1, 0, AddKey(e, now));
  }

  /** There is such an account and such an order. */
  lemma SomeUpgradeOrder(key: string, reg: Registry, order: IssueInput, e: Entropy)
    requires LabKey(key) && KeySockets(key) == 1
    requires reg == Registry([Issued(key, Approved)], [], [Owner(Approved)])
    requires order == IssueInput("acct", "host", "pve", "", "2")
    ensures UpgradeOrder(reg, Issued(key, Approved), order, e)
  {
  }
}
