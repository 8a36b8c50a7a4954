/** The registry mutations as functions of the whole registry, the three keyed maps
    they refine, and what every one of them keeps. */
module Registries {
  import opened Wrappers
  import opened Records
  import opened KeyedLists

  function LicenseKey(l: License): string { l.key }
  function ServerKey(s: Server): string { s.serverId }
  function AccountKey(a: Account): string { a.thumbprint }

  function WithDue(due: string): License -> License { (l: License) => l.(nextDueDate := due) }
  function WithLicenseStatus(status: Status): License -> License { (l: License) => l.(status := status) }
  function WithAccountStatus(status: Status): Account -> Account { (a: Account) => a.(status := status) }
  function WithServerStatus(status: Status): Server -> Server { (s: Server) => s.(status := status) }
  function WithNote(note: string): Server -> Server { (s: Server) => s.(note := note) }

  /** One transaction of the store. */
  datatype Mutation =
    | AddLicense(license: License)
    | RemoveLicense(key: string)
    | SetDue(key: string, due: string)
    | SetLicenseStatus(key: string, status: Status)
    | UpsertAccount(account: Account)
    | SetAccountStatus(thumbprint: string, status: Status)
    | UpsertServer(serverId: string, presented: string, product: string, autoApprove: bool, now: string)
    | SetServerStatus(serverId: string, status: Status)
    | SetServerNote(serverId: string, note: string)
    | RemoveServer(serverId: string)

  /** A known host that makes contact again. */
  function Refreshed(s: Server, presented: string, product: string, autoApprove: bool, now: string): Server {
    s.(lastSeen := now,
       key := if presented != "" then presented else s.key,
       product := if product != "" then product else s.product,
       status := if autoApprove && s.status == Pending then Approved else s.status)
  }

  /** A host seen for the first time. */
  function FirstContact(serverId: string, presented: string, product: string, autoApprove: bool, now: string): Server {
    Server(serverId, presented, product, if autoApprove then Approved else Pending, now, now, "")
  }

  /** The entry of a host right after its contact. */
  function AfterContact(servers: seq<Server>, serverId: string, presented: string, product: string, autoApprove: bool, now: string)
    : (s: Server)
    ensures s.serverId == serverId
  {
    match Find(servers, ServerKey, serverId)
    case None => FirstContact(serverId, presented, product, autoApprove, now)
    case Some(s) =>
      FindMeans(servers, ServerKey, serverId);
      Refreshed(s, presented, product, autoApprove, now)
  }

  function Apply(reg: Registry, m: Mutation): Registry {
    match m
    case AddLicense(l) => reg.(licenses := Upsert(reg.licenses, LicenseKey, l))
    case RemoveLicense(k) => reg.(licenses := Without(reg.licenses, LicenseKey, k))
    case SetDue(k, due) => reg.(licenses := Update(reg.licenses, LicenseKey, k, WithDue(due)))
    case SetLicenseStatus(k, st) => reg.(licenses := Update(reg.licenses, LicenseKey, k, WithLicenseStatus(st)))
    case UpsertAccount(a) => reg.(accounts := Upsert(reg.accounts, AccountKey, a))
    case SetAccountStatus(t, st) => reg.(accounts := Update(reg.accounts, AccountKey, t, WithAccountStatus(st)))
    case UpsertServer(id, k, p, auto, now) =>
      reg.(servers := Upsert(reg.servers, ServerKey, AfterContact(reg.servers, id, k, p, auto, now)))
    case SetServerStatus(id, st) => reg.(servers := Update(reg.servers, ServerKey, id, WithServerStatus(st)))
    case SetServerNote(id, n) => reg.(servers := Update(reg.servers, ServerKey, id, WithNote(n)))
    case RemoveServer(id) => reg.(servers := Without(reg.servers, ServerKey, id))
  }

  /** The state after a sequence of transactions, whoever issued them. */
  function ApplyAll(reg: Registry, ms: seq<Mutation>): Registry
    decreases |ms|
  {
    if ms == [] then reg else Apply(ApplyAll(reg, ms[..|ms| - 1]), ms[|ms| - 1])
  }

  // ----- refinement of three keyed maps -----

  datatype Keyed = Keyed(
    licenses: map<string, License>,
    servers: map<string, Server>,
    accounts: map<string, Account>)

  function Abstract(reg: Registry): Keyed {
    Keyed(AsMap(reg.licenses, LicenseKey), AsMap(reg.servers, ServerKey), AsMap(reg.accounts, AccountKey))
  }

  /** A host entry after a contact: what the contact says wins over what was known, but a
      status other than PENDING and the operator's note stay. */
  function Contacted(known: Option<Server>, id: string, presented: string, product: string, auto: bool, now: string): Server {
    var was := if known.Some? then known.value else Server(id, "", "", Pending, now, now, "");
    Server(
      was.serverId,
      if presented == "" then was.key else presented,
      if product == "" then was.product else product,
      if auto && was.status == Pending then Approved else was.status,
      was.firstSeen,
      now,
      was.note)
  }

  /** The mutations on maps, where no order and no loop is left: what each of them does to
      the one entry it is about, field by field. */
  function ApplyKeyed(a: Keyed, m: Mutation): Keyed {
    match m
    case AddLicense(l) => a.(licenses := a.licenses[l.key := l])
    case RemoveLicense(k) => a.(licenses := a.licenses - {k})
    case SetDue(k, due) => if k !in a.licenses then a else a.(licenses := a.licenses[k := a.licenses[k].(nextDueDate := due)])
    case SetLicenseStatus(k, st) => if k !in a.licenses then a else a.(licenses := a.licenses[k := a.licenses[k].(status := st)])
    case UpsertAccount(acc) => a.(accounts := a.accounts[acc.thumbprint := acc])
    case SetAccountStatus(t, st) => if t !in a.accounts then a else a.(accounts := a.accounts[t := a.accounts[t].(status := st)])
    case UpsertServer(id, k, p, auto, now) =>
      var known := if id in a.servers then Some(a.servers[id]) else None;
      a.(servers := a.servers[id := Contacted(known, id, k, p, auto, now)])
    case SetServerStatus(id, st) => if id !in a.servers then a else a.(servers := a.servers[id := a.servers[id].(status := st)])
    case SetServerNote(id, n) => if id !in a.servers then a else a.(servers := a.servers[id := a.servers[id].(note := n)])
    case RemoveServer(id) => a.(servers := a.servers - {id})
  }

  lemma ContactRefinesMap(reg: Registry, id: string, presented: string, product: string, auto: bool, now: string)
    ensures var m := UpsertServer(id, presented, product, auto, now);
      Abstract(Apply(reg, m)) == ApplyKeyed(Abstract(reg), m)
  {
    FindIsLookup(reg.servers, ServerKey, id);
    UpsertIsMapUpdate(reg.servers, ServerKey, AfterContact(reg.servers, id, presented, product, auto, now));
  }

  /** Every list mutation is its map operation, even on lists with repeated keys. */
  lemma MutationRefinesMaps(reg: Registry, m: Mutation)
    ensures Abstract(Apply(reg, m)) == ApplyKeyed(Abstract(reg), m)
  {
    match m
    case AddLicense(l) => UpsertIsMapUpdate(reg.licenses, LicenseKey, l);
    case RemoveLicense(k) => WithoutIsMapRemoval(reg.licenses, LicenseKey, k);
    case SetDue(k, due) => UpdateIsMapUpdate(reg.licenses, LicenseKey, k, WithDue(due));
    case SetLicenseStatus(k, st) => UpdateIsMapUpdate(reg.licenses, LicenseKey, k, WithLicenseStatus(st));
    case UpsertAccount(a) => UpsertIsMapUpdate(reg.accounts, AccountKey, a);
    case SetAccountStatus(t, st) => UpdateIsMapUpdate(reg.accounts, AccountKey, t, WithAccountStatus(st));
    case UpsertServer(id, k, p, auto, now) => ContactRefinesMap(reg, id, k, p, auto, now);
    case SetServerStatus(id, st) => UpdateIsMapUpdate(reg.servers, ServerKey, id, WithServerStatus(st));
    case SetServerNote(id, n) => UpdateIsMapUpdate(reg.servers, ServerKey, id, WithNote(n));
    case RemoveServer(id) => WithoutIsMapRemoval(reg.servers, ServerKey, id);
  }

  // ----- what every transaction keeps -----

  ghost predicate UniqueKeys(reg: Registry) {
    && Unique(reg.licenses, LicenseKey)
    && Unique(reg.servers, ServerKey)
    && Unique(reg.accounts, AccountKey)
  }

  lemma MutationKeepsUniqueKeys(reg: Registry, m: Mutation)
    requires UniqueKeys(reg)
    ensures UniqueKeys(Apply(reg, m))
  {
    match m
    case AddLicense(l) => UpsertKeepsUnique(reg.licenses, LicenseKey, l);
    case RemoveLicense(k) => WithoutKeepsUnique(reg.licenses, LicenseKey, k);
    case UpsertAccount(a) => UpsertKeepsUnique(reg.accounts, AccountKey, a);
    case UpsertServer(id, k, p, auto, now) =>
      UpsertKeepsUnique(reg.servers, ServerKey, AfterContact(reg.servers, id, k, p, auto, now));
    case RemoveServer(id) => WithoutKeepsUnique(reg.servers, ServerKey, id);
    case _ =>
  }

  /** Keys stay unique whatever transactions are interleaved. */
  lemma {:induction false} UniqueKeysAlways(reg: Registry, ms: seq<Mutation>)
    requires UniqueKeys(reg)
    ensures UniqueKeys(ApplyAll(reg, ms))
    decreases |ms|
  {
    if ms != [] {
      UniqueKeysAlways(reg, ms[..|ms| - 1]);
      MutationKeepsUniqueKeys(ApplyAll(reg, ms[..|ms| - 1]), ms[|ms| - 1]);
    }
  }

  /** The order of the keys in each list. */
  datatype Orders = Orders(licenses: seq<string>, servers: seq<string>, accounts: seq<string>)

  function OrdersOf(reg: Registry): Orders {
    Orders(KeyOrder(reg.licenses, LicenseKey), KeyOrder(reg.servers, ServerKey), KeyOrder(reg.accounts, AccountKey))
  }

  /** The mutations on the order of the keys, where no record is left. */
  function ApplyOrders(o: Orders, m: Mutation): Orders {
    match m
    case AddLicense(l) => o.(licenses := Appended(o.licenses, l.key))
    case RemoveLicense(k) => o.(licenses := Dropped(o.licenses, k))
    case UpsertAccount(acc) => o.(accounts := Appended(o.accounts, acc.thumbprint))
    case UpsertServer(id, _, _, _, _) => o.(servers := Appended(o.servers, id))
    case RemoveServer(id) => o.(servers := Dropped(o.servers, id))
    case _ => o
  }

  lemma ServerMutationKeepsOrder(reg: Registry, m: Mutation)
    requires m.UpsertServer? || m.SetServerStatus? || m.SetServerNote? || m.RemoveServer?
    ensures OrdersOf(Apply(reg, m)) == ApplyOrders(OrdersOf(reg), m)
  {
    match m
    case UpsertServer(id, k, p, auto, now) =>
      UpsertOrder(reg.servers, ServerKey, AfterContact(reg.servers, id, k, p, auto, now));
    case SetServerStatus(id, st) => UpdateOrder(reg.servers, ServerKey, id, WithServerStatus(st));
    case SetServerNote(id, n) => UpdateOrder(reg.servers, ServerKey, id, WithNote(n));
    case RemoveServer(id) => WithoutKeyOrder(reg.servers, ServerKey, id);
  }

  /** Every mutation keeps the order of the records that stay, and adds new ones at the
      end: with unique keys, this and the keyed maps say all there is to say. */
  lemma MutationKeepsOrder(reg: Registry, m: Mutation)
    ensures OrdersOf(Apply(reg, m)) == ApplyOrders(OrdersOf(reg), m)
  {
    match m
    case AddLicense(l) => UpsertOrder(reg.licenses, LicenseKey, l);
    case RemoveLicense(k) => WithoutKeyOrder(reg.licenses, LicenseKey, k);
    case SetDue(k, due) => UpdateOrder(reg.licenses, LicenseKey, k, WithDue(due));
    case SetLicenseStatus(k, st) => UpdateOrder(reg.licenses, LicenseKey, k, WithLicenseStatus(st));
    case UpsertAccount(a) => UpsertOrder(reg.accounts, AccountKey, a);
    case SetAccountStatus(t, st) => UpdateOrder(reg.accounts, AccountKey, t, WithAccountStatus(st));
    case _ => ServerMutationKeepsOrder(reg, m);
  }
}
