/** Revoked keys stay dead: what holds after a revocation under any interleaving of store
    transactions, whichever operations they belong to. */
module Revocations {
  import opened Wrappers
  import opened Records
  import opened KeyedLists
  import opened Keys
  import R = Registries
  import opened Services
  import L = Lifecycle

  ghost predicate Known(reg: Registry, k: string) {
    Has(reg.licenses, R.LicenseKey, k)
  }

  /** Every record of the key is inactive, and there is one. */
  ghost predicate Dead(reg: Registry, k: string) {
    && Known(reg, k)
    && forall i | 0 <= i < |reg.licenses| && reg.licenses[i].key == k :: !reg.licenses[i].Active()
  }

  /** The transaction stores a record of the key anew, takes its record away, or gives it
      an active status. */
  predicate Revives(m: R.Mutation, k: string) {
    match m
    case AddLicense(l) => l.key == k
    case RemoveLicense(k') => k' == k
    case SetLicenseStatus(k', st) => k' == k && !(st.Revoked? || st.Blocked? || st.Rejected? || st.Failed?)
    case _ => false
  }

  lemma {:induction false} WithoutKeepsOthers<T>(s: seq<T>, key: T -> string, k: string, i: nat) returns (j: nat)
    requires i < |s| && key(s[i]) != k
    ensures j < |Without(s, key, k)| && Without(s, key, k)[j] == s[i]
  {
    if i == 0 {
      j := 0;
    } else {
      j := WithoutKeepsOthers(s[1..], key, k, i - 1);
      if key(s[0]) != k {
        j := j + 1;
      }
    }
  }

  lemma UpsertOtherKeepsDead(reg: Registry, k: string, l: License)
    requires Dead(reg, k) && l.key != k
    ensures Dead(R.Apply(reg, R.AddLicense(l)), k)
  {
    var i := UpsertShape(reg.licenses, R.LicenseKey, l);
    var m :| 0 <= m < |reg.licenses| && R.LicenseKey(reg.licenses[m]) == k;
    var r := R.Apply(reg, R.AddLicense(l)).licenses;
    assert R.LicenseKey(r[m]) == k;
  }

  lemma UpdateKeepsDead(reg: Registry, k: string, k': string, f: License -> License)
    requires Dead(reg, k)
    requires forall l: License :: f(l).key == l.key && (k' == k && f(l).Active() ==> l.Active())
    ensures Dead(reg.(licenses := Update(reg.licenses, R.LicenseKey, k', f)), k)
  {
    var m :| 0 <= m < |reg.licenses| && R.LicenseKey(reg.licenses[m]) == k;
    var r := Update(reg.licenses, R.LicenseKey, k', f);
    assert R.LicenseKey(r[m]) == k;
  }

  lemma RemoveOtherKeepsDead(reg: Registry, k: string, k': string)
    requires Dead(reg, k) && k != k'
    ensures Dead(R.Apply(reg, R.RemoveLicense(k')), k)
  {
    var r := Without(reg.licenses, R.LicenseKey, k');
    var m :| 0 <= m < |reg.licenses| && R.LicenseKey(reg.licenses[m]) == k;
    var j := WithoutKeepsOthers(reg.licenses, R.LicenseKey, k', m);
    assert R.LicenseKey(r[j]) == k;
    forall i | 0 <= i < |r| && r[i].key == k ensures !r[i].Active() {
      var i' := L.WithoutMembers(reg.licenses, R.LicenseKey, k', i);
    }
  }

  lemma MutationKeepsDead(reg: Registry, m: R.Mutation, k: string)
    requires Dead(reg, k) && !Revives(m, k)
    ensures Dead(R.Apply(reg, m), k)
  {
    match m
    case AddLicense(l) => UpsertOtherKeepsDead(reg, k, l);
    case RemoveLicense(k') => RemoveOtherKeepsDead(reg, k, k');
    case SetDue(k', due) => UpdateKeepsDead(reg, k, k', R.WithDue(due));
    case SetLicenseStatus(k', st) => UpdateKeepsDead(reg, k, k', R.WithLicenseStatus(st));
    case _ =>
  }

  /** A dead key stays dead through every sequence of transactions none of which revives
      it, whoever interleaves them. */
  lemma {:induction false} DeadForGood(reg: Registry, ms: seq<R.Mutation>, k: string)
    requires Dead(reg, k) && forall i | 0 <= i < |ms| :: !Revives(ms[i], k)
    ensures Dead(R.ApplyAll(reg, ms), k)
    decreases |ms|
  {
    if ms != [] {
      DeadForGood(reg, ms[..|ms| - 1], k);
      MutationKeepsDead(R.ApplyAll(reg, ms[..|ms| - 1]), ms[|ms| - 1], k);
    }
  }

  lemma DeadIsFound(reg: Registry, k: string)
    requires Dead(reg, k)
    ensures Find(reg.licenses, R.LicenseKey, k).Some? && !Find(reg.licenses, R.LicenseKey, k).value.Active()
  {
    FindMeans(reg.licenses, R.LicenseKey, k);
  }

  lemma DeadKeyIsInactive(reg: Registry, k: string,
                          serverId: string, token: string, auto: bool, now: Moment, contactWrite: bool, licenseRead: bool)
    requires Dead(reg, k)
    ensures Verifying(reg, serverId, k, token, auto, now, contactWrite, licenseRead).1.active <==>
      && !licenseRead && serverId != "" && contactWrite
      && R.AfterContact(reg.servers, serverId, k, Describe(k).product, auto, now.stamp).status == Approved
  {
    DeadIsFound(reg, k);
  }

  lemma RevokedIsDead(reg: Registry, k: string)
    requires Known(reg, k)
    ensures Dead(R.Apply(reg, R.SetLicenseStatus(k, Revoked)), k)
  {
    var reg1 := R.Apply(reg, R.SetLicenseStatus(k, Revoked));
    var m :| 0 <= m < |reg.licenses| && R.LicenseKey(reg.licenses[m]) == k;
    assert R.LicenseKey(reg1.licenses[m]) == k;
  }

  /** Once a known key is revoked, a check that presents it is answered "inactive", for any
      host and any approval policy, after any interleaving of transactions none of which
      revives the key. The one exception is a failed license look-up, which the service
      reads as an unknown key: then an approved host is answered "active". */
  lemma RevocationLasts(reg: Registry, ms: seq<R.Mutation>, k: string, state: Registry,
                        serverId: string, token: string, auto: bool, now: Moment, contactWrite: bool, licenseRead: bool)
    requires Known(reg, k) && forall i | 0 <= i < |ms| :: !Revives(ms[i], k)
    requires state == R.ApplyAll(R.Apply(reg, R.SetLicenseStatus(k, Revoked)), ms)
    ensures Verifying(state, serverId, k, token, auto, now, contactWrite, licenseRead).1.active <==>
      && !licenseRead && serverId != "" && contactWrite
      && R.AfterContact(state.servers, serverId, k, Describe(k).product, auto, now.stamp).status == Approved
  {
    RevokedIsDead(reg, k);
    DeadForGood(R.Apply(reg, R.SetLicenseStatus(k, Revoked)), ms, k);
    DeadKeyIsInactive(state, k, serverId, token, auto, now, contactWrite, licenseRead);
  }

  // ----- the pair of a revoked key -----

  /** The account holds the dead key for the product, and nothing active. */
  ghost predicate Barred(reg: Registry, account: string, product: string, k: string) {
    && (exists i :: 0 <= i < |reg.licenses| && reg.licenses[i].key == k && OwnedBy(reg.licenses[i], account, product))
    && forall i | 0 <= i < |reg.licenses| && OwnedBy(reg.licenses[i], account, product) :: !reg.licenses[i].Active()
  }

  /** The transaction touches the record of the key, stores a license of the pair, or
      activates some license. */
  predicate Unbars(m: R.Mutation, account: string, product: string, k: string) {
    match m
    case AddLicense(l) => l.key == k || OwnedBy(l, account, product)
    case RemoveLicense(k') => k' == k
    case SetLicenseStatus(_, st) => !(st.Revoked? || st.Blocked? || st.Rejected? || st.Failed?)
    case _ => false
  }

  lemma UpsertOtherKeepsBarred(reg: Registry, account: string, product: string, k: string, l: License)
    requires Barred(reg, account, product, k) && l.key != k && !OwnedBy(l, account, product)
    ensures Barred(R.Apply(reg, R.AddLicense(l)), account, product, k)
  {
    var i := UpsertShape(reg.licenses, R.LicenseKey, l);
    var m :| 0 <= m < |reg.licenses| && reg.licenses[m].key == k && OwnedBy(reg.licenses[m], account, product);
    var r := R.Apply(reg, R.AddLicense(l)).licenses;
    assert r[m].key == k && OwnedBy(r[m], account, product);
  }

  lemma UpdateKeepsBarred(reg: Registry, account: string, product: string, k: string, k': string, f: License -> License)
    requires Barred(reg, account, product, k)
    requires forall l: License :: f(l).key == l.key && f(l).account == l.account && f(l).product == l.product
    requires forall l: License :: f(l).Active() ==> l.Active()
    ensures Barred(reg.(licenses := Update(reg.licenses, R.LicenseKey, k', f)), account, product, k)
  {
    var m :| 0 <= m < |reg.licenses| && reg.licenses[m].key == k && OwnedBy(reg.licenses[m], account, product);
    var r := Update(reg.licenses, R.LicenseKey, k', f);
    assert r[m].key == k && OwnedBy(r[m], account, product);
  }

  lemma RemoveOtherKeepsBarred(reg: Registry, account: string, product: string, k: string, k': string)
    requires Barred(reg, account, product, k) && k != k'
    ensures Barred(R.Apply(reg, R.RemoveLicense(k')), account, product, k)
  {
    var r := Without(reg.licenses, R.LicenseKey, k');
    var m :| 0 <= m < |reg.licenses| && reg.licenses[m].key == k && OwnedBy(reg.licenses[m], account, product);
    var j := WithoutKeepsOthers(reg.licenses, R.LicenseKey, k', m);
    assert r[j].key == k && OwnedBy(r[j], account, product);
    forall i | 0 <= i < |r| && OwnedBy(r[i], account, product) ensures !r[i].Active() {
      var i' := L.WithoutMembers(reg.licenses, R.LicenseKey, k', i);
    }
  }

  lemma MutationKeepsBarred(reg: Registry, m: R.Mutation, account: string, product: string, k: string)
    requires Barred(reg, account, product, k) && !Unbars(m, account, product, k)
    ensures Barred(R.Apply(reg, m), account, product, k)
  {
    match m
    case AddLicense(l) => UpsertOtherKeepsBarred(reg, account, product, k, l);
    case RemoveLicense(k') => RemoveOtherKeepsBarred(reg, account, product, k, k');
    case SetDue(k', due) => UpdateKeepsBarred(reg, account, product, k, k', R.WithDue(due));
    case SetLicenseStatus(k', st) => UpdateKeepsBarred(reg, account, product, k, k', R.WithLicenseStatus(st));
    case _ =>
  }

  lemma BarredIsAssigned(reg: Registry, account: string, product: string, k: string)
    requires Barred(reg, account, product, k)
    ensures Assigned(reg.licenses, account, product).Some? && !Assigned(reg.licenses, account, product).value.Active()
  {
    L.AssignedMeans(reg.licenses, account, product);
  }

  /** Revoking the active key of a pair bars the pair. */
  lemma RevokedIsBarred(reg: Registry, l: License)
    requires L.Inv(reg) && l in reg.licenses && l.account != "" && l.Active()
    ensures ProductCode(l.product)
    ensures Barred(R.Apply(reg, R.SetLicenseStatus(l.key, Revoked)), l.account, l.product, l.key)
  {
    var reg1 := R.Apply(reg, R.SetLicenseStatus(l.key, Revoked));
    var m :| 0 <= m < |reg.licenses| && reg.licenses[m] == l;
    forall i | 0 <= i < |reg1.licenses| && OwnedBy(reg1.licenses[i], l.account, l.product)
      ensures !reg1.licenses[i].Active()
    {
      if i != m {
        L.OthersAreBelow(reg.licenses, m, i);
      }
    }
    assert reg1.licenses[m].key == l.key && OwnedBy(reg1.licenses[m], l.account, l.product);
    assert L.Minted(reg.licenses[m]);
    PrintParse(l.key);
  }
}
