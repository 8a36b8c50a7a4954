/** The application service over the store: adding, generating, registering, issuing,
    revoking and verifying. Each operation is a function from the registry it meets to
    the registry it leaves and its answer, and a method that performs it on a store.
    Clock texts, random bytes and the success of every disk access are inputs. */
module Services {
  import opened Wrappers
  import opened Text
  import opened Records
  import opened Responses
  import opened KeyedLists
  import opened Keys
  import R = Registries
  import opened Stores

  datatype ServiceError =
    | KeyRequired | InvalidKey | NotLabKey | BadStatus | BadDate
    | AccountFieldsRequired
    | UnknownProduct | AccountNotApproved | SubscriptionRevoked
    | KeyGeneration(error: KeyError)
    | StoreFailed

  datatype Outcome<T> = Outcome(reg: Registry, result: Result<T, ServiceError>)

  /** The texts the clock contributes: today, a year from today, and the time stamp. */
  datatype Moment = Moment(today: string, nextYear: string, stamp: string)

  // ----- adding a license by hand -----

  /** An optional text argument: empty, well formed with its meaning, or malformed. */
  datatype Argument<T> = Absent | Given(value: T) | Malformed

  datatype AddInput = AddInput(
    key: string,
    product: string,
    productName: string,
    status: Argument<Status>,
    regDate: Argument<string>,
    nextDueDate: Argument<string>,
    force: bool)

  function DefaultDate(raw: Argument<string>, fallback: string): Result<string, ServiceError> {
    match raw
    case Absent => Ok(fallback)
    case Given(d) => Ok(d)
    case Malformed => Err(BadDate)
  }

  function BuildLicense(request: AddInput, now: Moment): Result<License, ServiceError> {
    if request.key == "" then Err(KeyRequired)
    else if !request.force && !ValidKey(request.key) then Err(InvalidKey)
    else if !IsLabKey(request.key) then Err(NotLabKey)
    else if request.status.Malformed? then Err(BadStatus)
    else
      var d := Describe(request.key);
      var regDate := DefaultDate(request.regDate, now.today);
      var dueDate := DefaultDate(request.nextDueDate, now.nextYear);
      if regDate.Err? then Err(regDate.error)
      else if dueDate.Err? then Err(dueDate.error)
      else Ok(License(
        request.key,
        if request.product != "" then request.product else d.product,
        if request.productName != "" then request.productName else d.name,
        regDate.value,
        dueDate.value,
        if request.status.Given? then request.status.value else Approved,
        "",
        ""))
  }

  function Adding(reg: Registry, request: AddInput, now: Moment, write: bool): Outcome<License> {
    match BuildLicense(request, now)
    case Err(e) => Outcome(reg, Err(e))
    case Ok(l) => if write then Outcome(R.Apply(reg, R.AddLicense(l)), Ok(l)) else Outcome(reg, Err(StoreFailed))
  }

  // ----- generating a license -----

  /** The name under which every generated key is shown, so that its origin is visible. */
  function DisplayName(key: string): string {
    Describe(key).name + " " + LAB_MARKER
  }

  function GeneratedLicense(key: string, product: string, now: Moment, serverId: string, account: string): License {
    License(key, product, DisplayName(key), now.today, now.nextYear, Approved, serverId, account)
  }

  function Generating(reg: Registry, product: string, level: string, sockets: string, keep: bool,
                      entropy: Option<Entropy>, now: Moment, write: bool): Outcome<License>
  {
    match GenerateKey(product, level, sockets, entropy)
    case Err(e) => Outcome(reg, Err(KeyGeneration(e)))
    case Ok(key) =>
      var l := GeneratedLicense(key, product, now, "", "");
      if !keep then Outcome(reg, Ok(l))
      else if write then Outcome(R.Apply(reg, R.AddLicense(l)), Ok(l))
      else Outcome(reg, Err(StoreFailed))
  }

  // ----- registering an account -----

  /** The account that a registration stores when its look-up found this. */
  function AccountToStore(found: Option<Account>, thumbprint: string, publicKey: string, serverId: string, contact: string,
                          autoApprove: bool, now: Moment): (acc: Account)
    ensures acc.thumbprint == thumbprint && acc.publicKey == publicKey
  {
    var initial := Account(thumbprint, publicKey, serverId, contact, if autoApprove then Approved else Pending, now.stamp);
    match found
    case Some(existing) => initial.(createdAt := existing.createdAt, status := existing.status)
    case None => initial
  }

  /** What a registration sees: read is the success of the look-up, whose failure the
      operation ignores. */
  function AccountSeen(reg: Registry, thumbprint: string, read: bool): Option<Account> {
    if read then Find(reg.accounts, R.AccountKey, thumbprint) else None
  }

  function Registering(reg: Registry, thumbprint: string, publicKey: string, serverId: string, contact: string,
                       autoApprove: bool, now: Moment, read: bool, write: bool): Outcome<Account>
  {
    if thumbprint == "" || publicKey == "" then Outcome(reg, Err(AccountFieldsRequired))
    else
      var acc := AccountToStore(AccountSeen(reg, thumbprint, read), thumbprint, publicKey, serverId, contact, autoApprove, now);
      if write then Outcome(R.Apply(reg, R.UpsertAccount(acc)), Ok(acc)) else Outcome(reg, Err(StoreFailed))
  }

  // ----- issuing a subscription -----

  datatype IssueInput = IssueInput(thumbprint: string, serverId: string, product: string, level: string, sockets: string)

  /** What one issuance meets: random bytes, the clock, and the success of its four
      disk accesses in the order it makes them. */
  datatype IssueEnv = IssueEnv(
    entropy: Option<Entropy>, now: Moment, accountRead: bool, listRead: bool, revokeWrite: bool, addWrite: bool)

  predicate OwnedBy(l: License, account: string, product: string) {
    l.account == account && l.product == product
  }

  /** The licenses an account holds for a product, in registry order. */
  function Held(licenses: seq<License>, account: string, product: string): seq<License> {
    if licenses == [] then []
    else (if OwnedBy(licenses[0], account, product) then [licenses[0]] else []) + Held(licenses[1..], account, product)
  }

  /** The first active license of a list, else its last, else none. */
  function Pick(held: seq<License>): Option<License> {
    if held == [] then None
    else if held[0].Active() then Some(held[0])
    else
      match Pick(held[1..])
      case None => Some(held[0])
      case found => found
  }

  function Assigned(licenses: seq<License>, account: string, product: string): Option<License> {
    Pick(Held(licenses, account, product))
  }

  predicate NeedsSocketUpgrade(order: IssueInput, l: License) {
    && order.product == "pve"
    && order.sockets != ""
    && Atoi(order.sockets).Some?
    && Atoi(order.sockets).value > KeySockets(l.key)
  }

  function Mint(reg: Registry, order: IssueInput, env: IssueEnv): Outcome<License> {
    match GenerateKey(order.product, order.level, order.sockets, env.entropy)
    case Err(e) => Outcome(reg, Err(KeyGeneration(e)))
    case Ok(key) =>
      var l := GeneratedLicense(key, order.product, env.now, order.serverId, order.thumbprint);
      if env.addWrite then Outcome(R.Apply(reg, R.AddLicense(l)), Ok(l)) else Outcome(reg, Err(StoreFailed))
  }

  function Issuing(reg: Registry, order: IssueInput, env: IssueEnv): Outcome<License> {
    if !ProductCode(order.product) then Outcome(reg, Err(ServiceError.UnknownProduct))
    else if !env.accountRead then Outcome(reg, Err(StoreFailed))
    else
      var acc := Find(reg.accounts, R.AccountKey, order.thumbprint);
      if acc.None? || acc.value.status != Approved then Outcome(reg, Err(AccountNotApproved))
      else if !env.listRead then Outcome(reg, Err(StoreFailed))
      else
        match Assigned(reg.licenses, order.thumbprint, order.product)
        case None => Mint(reg, order, env)
        case Some(l) =>
          if !l.Active() then Outcome(reg, Err(SubscriptionRevoked))
          else if !NeedsSocketUpgrade(order, l) then Outcome(reg, Ok(l))
          else if !env.revokeWrite then Outcome(reg, Err(StoreFailed))
          else Mint(R.Apply(reg, R.SetLicenseStatus(l.key, Revoked)), order, env)
  }

  // ----- the subscription check -----

  datatype VerifyResult = VerifyResult(response: Response, active: bool, hostStatus: Option<Status>, registerFailed: bool)

  /** What the message of a denied subscription calls the status. */
  function StatusText(s: Status): string {
    match s
    case Approved => "APPROVED"
    case Pending => "PENDING"
    case Blocked => "BLOCKED"
    case Failed => "FAILED"
    case Rejected => "REJECTED"
    case Registered => "REGISTERED"
    case Revoked => "REVOKED"
    case Unknown(t) => t
  }

  /** contactWrite and licenseRead are the successes of the two disk accesses; a
      failed license look-up is treated like an unknown key. */
  function Verifying(reg: Registry, serverId: string, key: string, token: string, autoApprove: bool,
                     now: Moment, contactWrite: bool, licenseRead: bool): (Registry, VerifyResult)
  {
    var product := Describe(key).product;
    var contacted := serverId != "" && contactWrite;
    var reg' := if contacted then R.Apply(reg, R.UpsertServer(serverId, key, product, autoApprove, now.stamp)) else reg;
    var hostStatus :=
      if contacted then Some(R.AfterContact(reg.servers, serverId, key, product, autoApprove, now.stamp).status) else None;
    var found := if licenseRead then Find(reg'.licenses, R.LicenseKey, key) else None;
    if found.Some? && !found.value.Active() then
      (reg', VerifyResult(
        Response("invalid", serverId, "", "", "", "subscription " + StatusText(found.value.status), token),
        false, hostStatus, false))
    else if serverId == "" || (hostStatus != Some(Approved) && !(found.Some? && found.value.account != "")) then
      (reg', VerifyResult(
        Response("invalid", serverId, "", "", "", "no valid subscription", token),
        false, hostStatus, serverId != "" && !contactWrite))
    else
      (reg', VerifyResult(
        Response(
          "active", serverId,
          if found.Some? then found.value.productName else Describe(key).name,
          if found.Some? && found.value.regDate != "" then found.value.regDate else now.today,
          if found.Some? && found.value.nextDueDate != "" then found.value.nextDueDate else now.nextYear,
          "", token),
        true, hostStatus, false))
  }

  // ----- the service object -----

  class Service {
    const store: Store

    constructor (store: Store)
      ensures this.store == store
    {
      this.store := store;
    }

    method AddLicense(request: AddInput, now: Moment, write: bool) returns (r: Result<License, ServiceError>)
      modifies store
      ensures Outcome(store.reg, r) == Adding(old(store.reg), request, now, write)
    {
      if request.key == "" { return Err(KeyRequired); }
      if !request.force && !ValidKey(request.key) { return Err(InvalidKey); }
      if !IsLabKey(request.key) { return Err(NotLabKey); }
      var description := Describe(request.key);
      var product, name := description.product, description.name;
      if request.product != "" { product := request.product; }
      if request.productName != "" { name := request.productName; }
      var status := Approved;
      match request.status {
        case Absent =>
        case Given(parsed) => status := parsed;
        case Malformed => return Err(BadStatus);
      }
      var regDate := DefaultDate(request.regDate, now.today);
      if regDate.Err? { return Err(regDate.error); }
      var dueDate := DefaultDate(request.nextDueDate, now.nextYear);
      if dueDate.Err? { return Err(dueDate.error); }
      var l := License(request.key, product, name, regDate.value, dueDate.value, status, "", "");
      var ok := store.AddLicense(l, Saving(write));
      return if ok then Ok(l) else Err(StoreFailed);
    }

    method GenerateLicense(product: string, level: string, sockets: string, keep: bool,
                           entropy: Option<Entropy>, now: Moment, write: bool) returns (r: Result<License, ServiceError>)
      modifies store
      ensures Outcome(store.reg, r) == Generating(old(store.reg), product, level, sockets, keep, entropy, now, write)
    {
      var key := GenerateKey(product, level, sockets, entropy);
      if key.Err? { return Err(KeyGeneration(key.error)); }
      var l := License(key.value, product, Describe(key.value).name + " " + LAB_MARKER, now.today, now.nextYear, Approved, "", "");
      if keep {
        var ok := store.AddLicense(l, Saving(write));
        if !ok { return Err(StoreFailed); }
      }
      return Ok(l);
    }

    method RegisterAccount(thumbprint: string, publicKey: string, serverId: string, contact: string,
                           autoApprove: bool, now: Moment, read: bool, write: bool) returns (r: Result<Account, ServiceError>)
      modifies store
      ensures Outcome(store.reg, r) ==
              Registering(old(store.reg), thumbprint, publicKey, serverId, contact, autoApprove, now, read, write)
    {
      if thumbprint == "" || publicKey == "" { return Err(AccountFieldsRequired); }
      var status := Pending;
      if autoApprove { status := Approved; }
      var acc := Account(thumbprint, publicKey, serverId, contact, status, now.stamp);
      var existing := store.GetAccount(thumbprint, read);
      if existing.Ok? && existing.value.Some? {
        acc := acc.(createdAt := existing.value.value.createdAt);
        acc := acc.(status := existing.value.value.status);
      }
      var ok := store.UpsertAccount(acc, Saving(write));
      return if ok then Ok(acc) else Err(StoreFailed);
    }

    method LicenseForAccountProduct(account: string, product: string, read: bool)
      returns (r: Result<Option<License>, ServiceError>)
      ensures r == if read then Ok(Assigned(store.reg.licenses, account, product)) else Err(StoreFailed)
    {
      var listed := store.ListLicenses(read);
      if listed.Err? { return Err(StoreFailed); }
      var all := listed.value;
      var revoked: Option<License> := None;
      for i := 0 to |all|
        invariant revoked == Pick(Held(all[..i], account, product))
        invariant revoked.Some? ==> !revoked.value.Active()
      {
        assert all[..i + 1] == all[..i] + [all[i]];
        HeldConcat(all[..i], [all[i]], account, product);
        if !OwnedBy(all[i], account, product) {
          assert Held([all[i]], account, product) == [];
          assert Held(all[..i + 1], account, product) == Held(all[..i], account, product);
          continue;
        }
        assert Held([all[i]], account, product) == [all[i]];
        PickConcat(Held(all[..i], account, product), [all[i]]);
        if all[i].Active() {
          assert all == all[..i + 1] + all[i + 1..];
          HeldConcat(all[..i + 1], all[i + 1..], account, product);
          PickConcat(Held(all[..i + 1], account, product), Held(all[i + 1..], account, product));
          return Ok(Some(all[i]));
        }
        revoked := Some(all[i]);
      }
      assert all[..|all|] == all;
      return Ok(revoked);
    }

    method IssueSubscription(order: IssueInput, env: IssueEnv) returns (r: Result<License, ServiceError>)
      modifies store
      ensures Outcome(store.reg, r) == Issuing(old(store.reg), order, env)
    {
      if !ProductCode(order.product) { return Err(ServiceError.UnknownProduct); }
      var acc := store.GetAccount(order.thumbprint, env.accountRead);
      if acc.Err? { return Err(StoreFailed); }
      if acc.value.None? || acc.value.value.status != Approved { return Err(AccountNotApproved); }
      var current := LicenseForAccountProduct(order.thumbprint, order.product, env.listRead);
      if current.Err? { return Err(current.error); }
      if current.value.Some? {
        var l := current.value.value;
        if !l.Active() { return Err(SubscriptionRevoked); }
        if !NeedsSocketUpgrade(order, l) { return Ok(l); }
        var revoked, found := store.SetLicenseStatus(l.key, Revoked, Saving(env.revokeWrite));
        if !revoked { return Err(StoreFailed); }
      }
      var key := GenerateKey(order.product, order.level, order.sockets, env.entropy);
      if key.Err? { return Err(KeyGeneration(key.error)); }
      var l := License(key.value, order.product, Describe(key.value).name + " " + LAB_MARKER,
                       env.now.today, env.now.nextYear, Approved, order.serverId, order.thumbprint);
      var ok := store.AddLicense(l, Saving(env.addWrite));
      return if ok then Ok(l) else Err(StoreFailed);
    }

    method RevokeSubscription(key: string, io: Access) returns (ok: bool, found: bool)
      modifies store
      ensures ok == io.Done?
      ensures store.reg == if io.Done? then R.Apply(old(store.reg), R.SetLicenseStatus(key, Revoked)) else old(store.reg)
      ensures found <==> !io.NotLoaded? && Has(old(store.reg.licenses), R.LicenseKey, key)
    {
      ok, found := store.SetLicenseStatus(key, Revoked, io);
    }

    method Verify(serverId: string, key: string, token: string, autoApprove: bool,
                  now: Moment, contactWrite: bool, licenseRead: bool) returns (r: VerifyResult)
      modifies store
      ensures (store.reg, r) == Verifying(old(store.reg), serverId, key, token, autoApprove, now, contactWrite, licenseRead)
    {
      var hostStatus: Option<Status> := None;
      var registerFailed := false;
      if serverId != "" {
        var ok, current := store.UpsertServer(serverId, key, Describe(key).product, autoApprove, now.stamp, Saving(contactWrite));
        if !ok {
          registerFailed := true;
        } else {
          hostStatus := Some(current.value.status);
        }
      }
      var looked := store.GetLicense(key, licenseRead);
      var found := if looked.Ok? then looked.value else None;
      if found.Some? && !found.value.Active() {
        return VerifyResult(
            Response("invalid", serverId, "", "", "", "subscription " + StatusText(found.value.status), token),
            false, hostStatus, false);
      }
      var acmeIssued := found.Some? && found.value.account != "";
      if serverId == "" || (hostStatus != Some(Approved) && !acmeIssued) {
        return VerifyResult(
            Response("invalid", serverId, "", "", "", "no valid subscription", token),
            false, hostStatus, registerFailed);
      }
      var regDate, dueDate, productName := now.today, now.nextYear, Describe(key).name;
      if found.Some? {
        productName := found.value.productName;
        if found.value.regDate != "" { regDate := found.value.regDate; }
        if found.value.nextDueDate != "" { dueDate := found.value.nextDueDate; }
      }
      return VerifyResult(Response("active", serverId, productName, regDate, dueDate, "", token), true, hostStatus, false);
    }
  }

  // ----- lists of held licenses -----

  lemma {:induction false} HeldConcat(a: seq<License>, b: seq<License>, account: string, product: string)
    ensures Held(a + b, account, product) == Held(a, account, product) + Held(b, account, product)
  {
    if a == [] {
      assert a + b == b;
    } else {
      assert (a + b)[1..] == a[1..] + b;
      HeldConcat(a[1..], b, account, product);
    }
  }

  lemma {:induction false} PickConcat(a: seq<License>, b: seq<License>)
    ensures Pick(a + b) ==
            if Pick(a).Some? && Pick(a).value.Active() then Pick(a)
            else if Pick(b).Some? then Pick(b)
            else Pick(a)
  {
    if a == [] {
      assert a + b == b;
    } else {
      assert (a + b)[1..] == a[1..] + b;
      PickConcat(a[1..], b);
    }
  }
}
