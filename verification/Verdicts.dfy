/** What the subscription check and the account records decide, in terms of the
    registry's contents and of its history. */
module Verdicts {
  import opened Wrappers
  import opened Records
  import opened KeyedLists
  import opened Keys
  import R = Registries
  import opened Provenance
  import opened Services
  import L = Lifecycle

  // ----- the verdict -----

  /** The statuses under which a subscription is denied. */
  predicate Denied(status: Status) {
    status == Revoked || status == Blocked || status == Rejected || status == Failed
  }

  /** The key is on record and denied. */
  ghost predicate KnownInactive(reg: Registry, key: string) {
    exists i :: 0 <= i < |reg.licenses| && reg.licenses[i].key == key && Denied(reg.licenses[i].status)
  }

  /** The key is on record, not denied, and owned by an account. */
  ghost predicate OwnedActive(reg: Registry, key: string) {
    exists i :: 0 <= i < |reg.licenses| && reg.licenses[i].key == key && reg.licenses[i].account != "" && !Denied(reg.licenses[i].status)
  }

  lemma LookUpMeans(reg: Registry, key: string)
    requires Unique(reg.licenses, R.LicenseKey)
    ensures var found := Find(reg.licenses, R.LicenseKey, key);
      && (KnownInactive(reg, key) <==> found.Some? && !found.value.Active())
      && (OwnedActive(reg, key) <==> found.Some? && found.value.account != "" && found.value.Active())
  {
    FindMeans(reg.licenses, R.LicenseKey, key);
    forall i | 0 <= i < |reg.licenses| && reg.licenses[i].key == key
      ensures Find(reg.licenses, R.LicenseKey, key) == Some(reg.licenses[i])
    {
      L.UniqueIsFound(reg.licenses, reg.licenses[i]);
    }
  }

  lemma ContactStatus(reg: Registry, serverId: string, presented: string, product: string, auto: bool, now: string)
    ensures StatusOf(R.Apply(reg, R.UpsertServer(serverId, presented, product, auto, now)), serverId) ==
            Some(R.AfterContact(reg.servers, serverId, presented, product, auto, now).status)
  {
    MutationDecides(reg, R.UpsertServer(serverId, presented, product, auto, now), serverId);
    FindMeans(reg.servers, R.ServerKey, serverId);
  }

  /** A check is answered "active" exactly for a named host, a key that is not known to be
      denied, and one of two reasons: the key is owned by an account, or the host is
      approved once its contact is recorded. */
  lemma VerdictMeans(reg: Registry, serverId: string, key: string, token: string, auto: bool, now: Moment,
                     contactWrite: bool, licenseRead: bool)
    requires Unique(reg.licenses, R.LicenseKey)
    ensures var (reg', r) := Verifying(reg, serverId, key, token, auto, now, contactWrite, licenseRead);
      r.active <==>
        && serverId != ""
        && !(licenseRead && KnownInactive(reg, key))
        && ((licenseRead && OwnedActive(reg, key)) || (contactWrite && StatusOf(reg', serverId) == Some(Approved)))
  {
    LookUpMeans(reg, key);
    ContactStatus(reg, serverId, key, Describe(key).product, auto, now.stamp);
  }

  /** The status reported for the host is the one the contact left, and a contact that was
      not recorded is reported exactly when the host is denied for another reason than its
      key. */
  lemma ContactIsReported(reg: Registry, serverId: string, key: string, token: string, auto: bool, now: Moment,
                          contactWrite: bool, licenseRead: bool)
    requires Unique(reg.licenses, R.LicenseKey)
    ensures var (reg', r) := Verifying(reg, serverId, key, token, auto, now, contactWrite, licenseRead);
      && r.hostStatus == (if serverId != "" && contactWrite then StatusOf(reg', serverId) else None)
      && (r.registerFailed <==>
            serverId != "" && !contactWrite && !r.active && !(licenseRead && KnownInactive(reg, key)))
  {
    LookUpMeans(reg, key);
    ContactStatus(reg, serverId, key, Describe(key).product, auto, now.stamp);
  }

  /** A check changes at most the entry of the host that makes it. */
  lemma ContactLeavesOthers(reg: Registry, contact: R.Mutation, other: string)
    requires contact.UpsertServer? && contact.serverId != other
    ensures Find(R.Apply(reg, contact).servers, R.ServerKey, other) == Find(reg.servers, R.ServerKey, other)
  {
    R.MutationRefinesMaps(reg, contact);
    FindIsLookup(reg.servers, R.ServerKey, other);
    FindIsLookup(R.Apply(reg, contact).servers, R.ServerKey, other);
  }

  lemma CheckTouchesOwnHostOnly(reg: Registry, serverId: string, key: string, token: string, auto: bool, now: Moment,
                                contactWrite: bool, licenseRead: bool, other: string, reg': Registry)
    requires other != serverId
    requires reg' == Verifying(reg, serverId, key, token, auto, now, contactWrite, licenseRead).0
    ensures reg'.licenses == reg.licenses && reg'.accounts == reg.accounts
    ensures Find(reg'.servers, R.ServerKey, other) == Find(reg.servers, R.ServerKey, other)
    ensures serverId == "" || !contactWrite ==> reg' == reg
  {
    var contact := R.UpsertServer(serverId, key, Describe(key).product, auto, now.stamp);
    assert reg' == if serverId != "" && contactWrite then R.Apply(reg, contact) else reg;
    ContactLeavesOthers(reg, contact, other);
  }

  /** A recorded check leaves the entry of its host as that contact makes it: the presented
      key, the product it names, and the time are noted. */
  lemma CheckRecordsHost(reg: Registry, serverId: string, key: string, token: string, auto: bool, now: Moment, licenseRead: bool)
    requires serverId != ""
    ensures var reg' := Verifying(reg, serverId, key, token, auto, now, true, licenseRead).0;
      Find(reg'.servers, R.ServerKey, serverId) ==
        Some(R.Contacted(Find(reg.servers, R.ServerKey, serverId), serverId, key, Describe(key).product, auto, now.stamp))
  {
    HostAfterContact(reg, serverId, key, Describe(key).product, auto, now.stamp);
  }

  lemma HostAfterContact(reg: Registry, id: string, presented: string, product: string, auto: bool, now: string)
    ensures Find(R.Apply(reg, R.UpsertServer(id, presented, product, auto, now)).servers, R.ServerKey, id) ==
            Some(R.Contacted(Find(reg.servers, R.ServerKey, id), id, presented, product, auto, now))
  {
    R.ContactRefinesMap(reg, id, presented, product, auto, now);
    FindIsLookup(reg.servers, R.ServerKey, id);
    FindIsLookup(R.Apply(reg, R.UpsertServer(id, presented, product, auto, now)).servers, R.ServerKey, id);
  }

  lemma AppliedLast(reg: Registry, ms: seq<R.Mutation>, m: R.Mutation)
    ensures R.ApplyAll(reg, ms + [m]) == R.Apply(R.ApplyAll(reg, ms), m)
  {
  }

  /** After any interleaving of transactions, an "active" answer has a reason in the
      history: the key belongs to an account, or some transaction approved the host and
      no operator acted on it since. */
  lemma VerdictHasReason(ms: seq<R.Mutation>, reg: Registry, history: seq<R.Mutation>,
                         serverId: string, key: string, token: string, auto: bool, now: Moment,
                         contactWrite: bool, licenseRead: bool)
    requires reg == R.ApplyAll(EMPTY_REGISTRY, ms)
    requires history == ms + [R.UpsertServer(serverId, key, Describe(key).product, auto, now.stamp)]
    ensures Verifying(reg, serverId, key, token, auto, now, contactWrite, licenseRead).1.active <==>
        && serverId != ""
        && !(licenseRead && KnownInactive(reg, key))
        && ((licenseRead && OwnedActive(reg, key)) ||
            (contactWrite && exists i: nat | i < |history| :: ApprovedBy(EMPTY_REGISTRY, history, serverId, i)))
  {
    R.UniqueKeysAlways(EMPTY_REGISTRY, ms);
    VerdictMeans(reg, serverId, key, token, auto, now, contactWrite, licenseRead);
    ContactHasProvenance(ms, history, serverId, history[|ms|]);
  }

  lemma ContactHasProvenance(ms: seq<R.Mutation>, history: seq<R.Mutation>, serverId: string, contact: R.Mutation)
    requires history == ms + [contact]
    ensures StatusOf(R.Apply(R.ApplyAll(EMPTY_REGISTRY, ms), contact), serverId) == Some(Approved) <==>
            exists i: nat | i < |history| :: ApprovedBy(EMPTY_REGISTRY, history, serverId, i)
  {
    AppliedLast(EMPTY_REGISTRY, ms, contact);
    ApprovalHasProvenance(EMPTY_REGISTRY, history, serverId);
  }

  // ----- when a revocation ends -----

  /** Removing a revoked key makes the check forget the revocation: the key is unknown
      again and the host's own status decides. */
  lemma RemovalEndsRevocation(reg: Registry, k: string, serverId: string, token: string, auto: bool, now: Moment,
                              contactWrite: bool, licenseRead: bool)
    requires Unique(reg.licenses, R.LicenseKey)
    ensures var (reg', r) := Verifying(R.Apply(reg, R.RemoveLicense(k)), serverId, k, token, auto, now, contactWrite, licenseRead);
      r.active <==> serverId != "" && contactWrite && StatusOf(reg', serverId) == Some(Approved)
  {
    var reg1 := R.Apply(reg, R.RemoveLicense(k));
    WithoutKeepsUnique(reg.licenses, R.LicenseKey, k);
    assert forall i | 0 <= i < |reg1.licenses| :: R.LicenseKey(reg1.licenses[i]) != k;
    VerdictMeans(reg1, serverId, k, token, auto, now, contactWrite, licenseRead);
  }

  function Else(text: string, fallback: string): string {
    if text == "" then fallback else text
  }

  function Or<T>(given: Argument<T>, fallback: T): T {
    if given.Given? then given.value else fallback
  }

  /** Adding a key by hand stores what was asked for, without host or owner, whether or not
      the key was there before: dated from today for a year, approved, and named after the
      key where the request says nothing. Nothing is stored unless every part of the request
      is sound. */
  lemma AddingStores(reg: Registry, request: AddInput, now: Moment, write: bool)
    ensures var out := Adding(reg, request, now, write);
      && (out.result.Ok? <==>
            && request.key != "" && (request.force || ValidKey(request.key)) && IsLabKey(request.key)
            && !request.status.Malformed? && !request.regDate.Malformed? && !request.nextDueDate.Malformed?
            && write)
      && (out.result.Err? ==> out.reg == reg)
      && (out.result.Ok? ==>
            && Find(out.reg.licenses, R.LicenseKey, request.key) == Some(out.result.value)
            && out.result.value == License(
                 request.key,
                 Else(request.product, Describe(request.key).product),
                 Else(request.productName, Describe(request.key).name),
                 Or(request.regDate, now.today),
                 Or(request.nextDueDate, now.nextYear),
                 Or(request.status, Approved),
                 "",
                 ""))
  {
    var out := Adding(reg, request, now, write);
    if out.result.Ok? {
      AddedIsFound(reg, out.result.value);
    }
  }

  /** Why an adding is refused: the first part of the request that is not sound. */
  lemma AddingIsRefused(reg: Registry, request: AddInput, now: Moment, write: bool)
    ensures var result := Adding(reg, request, now, write).result;
      var wellFormed := request.key != "" && (request.force || ValidKey(request.key));
      && (result == Err(KeyRequired) <==> request.key == "")
      && (result == Err(InvalidKey) <==> request.key != "" && !wellFormed)
      && (result == Err(NotLabKey) <==> wellFormed && !IsLabKey(request.key))
      && (result == Err(BadStatus) <==> wellFormed && IsLabKey(request.key) && request.status.Malformed?)
      && (result == Err(BadDate) <==>
            && wellFormed && IsLabKey(request.key) && !request.status.Malformed?
            && (request.regDate.Malformed? || request.nextDueDate.Malformed?))
  {
  }

  /** Generating gives an approved lab license without an owner, at the level and socket
      count asked for, under the marked name of its key and dated from today for a year, and
      stores it exactly when asked to. */
  lemma GeneratingStores(reg: Registry, product: string, level: string, sockets: string, keep: bool,
                         entropy: Option<Entropy>, now: Moment, write: bool)
    ensures var out := Generating(reg, product, level, sockets, keep, entropy, now, write);
      && (out.result.Ok? <==> GenerateKey(product, level, sockets, entropy).Ok? && (keep ==> write))
      && (out.result.Err? || !keep ==> out.reg == reg)
      && (out.result.Ok? ==>
            var l := out.result.value;
            && IsLabKey(l.key) && ValidKey(l.key) && ParseKey(l.key).product == product
            && L.MadeFor(l, "", "", level, sockets)
            && l.product == product && l.regDate == now.today && l.nextDueDate == now.nextYear
            && (keep ==> Find(out.reg.licenses, R.LicenseKey, l.key) == Some(l)))
  {
    GenerateKeyPrints(product, level, sockets, entropy);
    var out := Generating(reg, product, level, sockets, keep, entropy, now, write);
    if out.result.Ok? {
      AddedIsFound(reg, out.result.value);
    }
  }

  lemma AddedIsFound(reg: Registry, l: License)
    ensures Find(R.Apply(reg, R.AddLicense(l)).licenses, R.LicenseKey, l.key) == Some(l)
  {
    R.MutationRefinesMaps(reg, R.AddLicense(l));
    FindIsLookup(R.Apply(reg, R.AddLicense(l)).licenses, R.LicenseKey, l.key);
  }

  /** Adding a revoked key again without naming a status ends its revocation, too. */
  lemma ReAddingEndsRevocation(reg: Registry, request: AddInput, now: Moment, serverId: string, token: string, auto: bool,
                               contactWrite: bool, licenseRead: bool)
    requires Adding(reg, request, now, true).result.Ok? && request.status.Absent?
    requires Unique(reg.licenses, R.LicenseKey)
    ensures var reg1 := Adding(reg, request, now, true).reg;
      var (reg', r) := Verifying(reg1, serverId, request.key, token, auto, now, contactWrite, licenseRead);
      r.active <==> serverId != "" && contactWrite && StatusOf(reg', serverId) == Some(Approved)
  {
    var out := Adding(reg, request, now, true);
    AddingStores(reg, request, now, true);
    UpsertKeepsUnique(reg.licenses, R.LicenseKey, out.result.value);
    LookUpMeans(out.reg, request.key);
    VerdictMeans(out.reg, serverId, request.key, token, auto, now, contactWrite, licenseRead);
  }

  // ----- accounts -----

  /** Registering stores the account as described, approves a new one exactly when its
      network is trusted, and leaves every other account alone. */
  lemma RegisteringStores(reg: Registry, t: string, publicKey: string, serverId: string, contact: string,
                          auto: bool, now: Moment, read: bool, write: bool, other: string)
    requires other != t
    ensures var out := Registering(reg, t, publicKey, serverId, contact, auto, now, read, write);
      && (out.result.Ok? <==> t != "" && publicKey != "" && write)
      && (out.result.Err? ==> out.reg == reg)
      && Find(out.reg.accounts, R.AccountKey, other) == Find(reg.accounts, R.AccountKey, other)
      && (out.result.Ok? ==>
            var acc := out.result.value;
            && Find(out.reg.accounts, R.AccountKey, t) == Some(acc)
            && acc.publicKey == publicKey && acc.serverId == serverId && acc.contact == contact
            && (Find(reg.accounts, R.AccountKey, t).None? ==>
                  acc.status == (if auto then Approved else Pending) && acc.createdAt == now.stamp))
  {
    var out := Registering(reg, t, publicKey, serverId, contact, auto, now, read, write);
    if out.result.Ok? {
      AccountAfter(reg, R.UpsertAccount(out.result.value), other);
      AccountAfter(reg, R.UpsertAccount(out.result.value), t);
    }
  }

  lemma {:induction false} AccountIsLeftAlone(reg: Registry, ms: seq<R.Mutation>, t: string)
    requires forall i | 0 <= i < |ms| :: !ActsOnAccount(ms[i], t)
    ensures Find(R.ApplyAll(reg, ms).accounts, R.AccountKey, t) == Find(reg.accounts, R.AccountKey, t)
    decreases |ms|
  {
    if ms != [] {
      AccountIsLeftAlone(reg, ms[..|ms| - 1], t);
      AccountAfter(R.ApplyAll(reg, ms[..|ms| - 1]), ms[|ms| - 1], t);
    }
  }

  /** The decision about the account that stands in the registry. */
  predicate Stands(reg: Registry, t: string, status: Status, createdAt: string) {
    var acc := Find(reg.accounts, R.AccountKey, t);
    acc.Some? && acc.value.status == status && acc.value.createdAt == createdAt
  }

  /** What a registration without a look-up stores is what stands already. */
  predicate SameAsFresh(existing: Account, auto: bool, now: Moment) {
    existing.status == (if auto then Approved else Pending) && existing.createdAt == now.stamp
  }

  /** Registering a known account again looks it up and stores it in two transactions, with
      any others between them. The status and creation time that stand when it stores
      survive exactly when its look-up saw the same ones, or saw nothing and the fresh
      values happen to be the same. */
  lemma ReRegistrationKeepsDecision(before: Registry, after: Registry, existing: Account, acc: Account,
                                    t: string, publicKey: string, serverId: string, contact: string,
                                    auto: bool, now: Moment, read: bool)
    requires Find(after.accounts, R.AccountKey, t) == Some(existing)
    requires acc == AccountToStore(AccountSeen(before, t, read), t, publicKey, serverId, contact, auto, now)
    ensures Stands(R.Apply(after, R.UpsertAccount(acc)), t, existing.status, existing.createdAt) <==>
      || (read && Stands(before, t, existing.status, existing.createdAt))
      || (AccountSeen(before, t, read).None? && SameAsFresh(existing, auto, now))
  {
    AccountAfter(after, R.UpsertAccount(acc), t);
  }

  /** So when no transaction between the two acts on the account, they survive exactly when
      the look-up worked or the fresh values are the same. */
  lemma UndisturbedReRegistration(before: Registry, ms: seq<R.Mutation>, after: Registry, existing: Account, acc: Account,
                                  t: string, publicKey: string, serverId: string, contact: string,
                                  auto: bool, now: Moment, read: bool)
    requires forall i | 0 <= i < |ms| :: !ActsOnAccount(ms[i], t)
    requires after == R.ApplyAll(before, ms) && Find(after.accounts, R.AccountKey, t) == Some(existing)
    requires acc == AccountToStore(AccountSeen(before, t, read), t, publicKey, serverId, contact, auto, now)
    ensures Stands(R.Apply(after, R.UpsertAccount(acc)), t, existing.status, existing.createdAt) <==>
      read || SameAsFresh(existing, auto, now)
  {
    AccountIsLeftAlone(before, ms, t);
    ReRegistrationKeepsDecision(before, after, existing, acc, t, publicKey, serverId, contact, auto, now, read);
  }
}
