/** The store of one process: each method is one locked transaction on the registry,
    or one load. The parameter io says how the disk access of that transaction ends;
    unless it is done, nothing changes. */
module Stores {
  import opened Wrappers
  import opened Records
  import opened KeyedLists
  import Registries

  /** A transaction is done, or fails before its closure runs, or after it. */
  datatype Access = Done | NotLoaded | NotSaved

  /** A transaction whose caller only learns whether it succeeded. */
  function Saving(success: bool): Access {
    if success then Done else NotSaved
  }

  class Store {
    var reg: Registry

    constructor (initial: Registry)
      ensures reg == initial
    {
      reg := initial;
    }

    method GetLicense(key: string, io: bool) returns (r: Result<Option<License>, ()>)
      ensures r == if io then Ok(Find(reg.licenses, Registries.LicenseKey, key)) else Err(())
    {
      if !io { return Err(()); }
      var found := FindEntry(reg.licenses, Registries.LicenseKey, key);
      return Ok(found);
    }

    method GetAccount(thumbprint: string, io: bool) returns (r: Result<Option<Account>, ()>)
      ensures r == if io then Ok(Find(reg.accounts, Registries.AccountKey, thumbprint)) else Err(())
    {
      if !io { return Err(()); }
      var found := FindEntry(reg.accounts, Registries.AccountKey, thumbprint);
      return Ok(found);
    }

    method ListLicenses(io: bool) returns (r: Result<seq<License>, ()>)
      ensures r == if io then Ok(reg.licenses) else Err(())
    {
      return if io then Ok(reg.licenses) else Err(());
    }

    method AddLicense(l: License, io: Access) returns (ok: bool)
      modifies this
      ensures ok == io.Done?
      ensures reg == if io.Done? then Registries.Apply(old(reg), Registries.AddLicense(l)) else old(reg)
    {
      if !io.Done? { return false; }
      var licenses := UpsertEntry(reg.licenses, Registries.LicenseKey, l);
      reg := reg.(licenses := licenses);
      return true;
    }

    method RemoveLicense(key: string, io: Access) returns (ok: bool, removed: bool)
      modifies this
      ensures ok == io.Done?
      ensures reg == if io.Done? then Registries.Apply(old(reg), Registries.RemoveLicense(key)) else old(reg)
      ensures removed <==> !io.NotLoaded? && Has(old(reg.licenses), Registries.LicenseKey, key)
    {
      if io.NotLoaded? { return false, false; }
      var licenses := reg.licenses;
      var a := new License[|licenses|](i requires 0 <= i < |licenses| => licenses[i]);
      assert a[..] == licenses;
      var n;
      n, removed := CompactInPlace(a, Registries.LicenseKey, key);
      if io.NotSaved? { return false, removed; }
      reg := reg.(licenses := a[..n]);
      return true, removed;
    }

    method SetDue(key: string, due: string, io: Access) returns (ok: bool, found: bool)
      modifies this
      ensures ok == io.Done?
      ensures reg == if io.Done? then Registries.Apply(old(reg), Registries.SetDue(key, due)) else old(reg)
      ensures found <==> !io.NotLoaded? && Has(old(reg.licenses), Registries.LicenseKey, key)
    {
      if io.NotLoaded? { return false, false; }
      var licenses;
      licenses, found := UpdateEntries(reg.licenses, Registries.LicenseKey, key, Registries.WithDue(due));
      if io.NotSaved? { return false, found; }
      reg := reg.(licenses := licenses);
      return true, found;
    }

    method SetLicenseStatus(key: string, status: Status, io: Access) returns (ok: bool, found: bool)
      modifies this
      ensures ok == io.Done?
      ensures reg == if io.Done? then Registries.Apply(old(reg), Registries.SetLicenseStatus(key, status)) else old(reg)
      ensures found <==> !io.NotLoaded? && Has(old(reg.licenses), Registries.LicenseKey, key)
    {
      if io.NotLoaded? { return false, false; }
      var licenses;
      licenses, found := UpdateEntries(reg.licenses, Registries.LicenseKey, key, Registries.WithLicenseStatus(status));
      if io.NotSaved? { return false, found; }
      reg := reg.(licenses := licenses);
      return true, found;
    }

    method UpsertAccount(acc: Account, io: Access) returns (ok: bool)
      modifies this
      ensures ok == io.Done?
      ensures reg == if io.Done? then Registries.Apply(old(reg), Registries.UpsertAccount(acc)) else old(reg)
    {
      if !io.Done? { return false; }
      var accounts := UpsertEntry(reg.accounts, Registries.AccountKey, acc);
      reg := reg.(accounts := accounts);
      return true;
    }

    method SetAccountStatus(thumbprint: string, status: Status, io: Access) returns (ok: bool, found: bool)
      modifies this
      ensures ok == io.Done?
      ensures reg == if io.Done? then Registries.Apply(old(reg), Registries.SetAccountStatus(thumbprint, status)) else old(reg)
      ensures found <==> !io.NotLoaded? && Has(old(reg.accounts), Registries.AccountKey, thumbprint)
    {
      if io.NotLoaded? { return false, false; }
      var accounts;
      accounts, found := UpdateEntries(reg.accounts, Registries.AccountKey, thumbprint, Registries.WithAccountStatus(status));
      if io.NotSaved? { return false, found; }
      reg := reg.(accounts := accounts);
      return true, found;
    }

    /** The closure of UpsertServer: the host's entry is refreshed in its place, or a
        first entry appended. */
    static method Contact(servers: seq<Server>, serverId: string, key: string, product: string, autoApprove: bool, now: string)
      returns (r: seq<Server>, current: Server)
      ensures current == Registries.AfterContact(servers, serverId, key, product, autoApprove, now)
      ensures r == Upsert(servers, Registries.ServerKey, current)
      ensures Find(r, Registries.ServerKey, serverId) == Some(current)
    {
      for i := 0 to |servers|
        invariant forall j | 0 <= j < i :: servers[j].serverId != serverId
      {
        if servers[i].serverId == serverId {
          FindAt(servers, serverId, i);
          current := servers[i].(lastSeen := now);
          if key != "" {
            current := current.(key := key);
          }
          if product != "" {
            current := current.(product := product);
          }
          if autoApprove && current.status == Pending {
            current := current.(status := Approved);
          }
          UpsertAt(servers, Registries.ServerKey, current, i);
          FindAt(servers[i := current], serverId, i);
          return servers[i := current], current;
        }
      }
      FindMeans(servers, Registries.ServerKey, serverId);
      var initial := if autoApprove then Approved else Pending;
      current := Server(serverId, key, product, initial, now, now, "");
      UpsertAppends(servers, Registries.ServerKey, current);
      FindAt(servers + [current], serverId, |servers|);
      return servers + [current], current;
    }

    /** Records a host contact and returns the host's entry as the closure left it. */
    method UpsertServer(serverId: string, key: string, product: string, autoApprove: bool, now: string, io: Access)
      returns (ok: bool, current: Option<Server>)
      modifies this
      ensures ok == io.Done?
      ensures reg == if io.Done?
                     then Registries.Apply(old(reg), Registries.UpsertServer(serverId, key, product, autoApprove, now))
                     else old(reg)
      ensures current == if io.NotLoaded?
                         then None
                         else Some(Registries.AfterContact(old(reg).servers, serverId, key, product, autoApprove, now))
      ensures io.Done? ==> Find(reg.servers, Registries.ServerKey, serverId) == current
    {
      if io.NotLoaded? { return false, None; }
      var servers, entry := Contact(reg.servers, serverId, key, product, autoApprove, now);
      if io.NotSaved? { return false, Some(entry); }
      reg := reg.(servers := servers);
      return true, Some(entry);
    }

    method SetServerStatus(serverId: string, status: Status, io: Access) returns (ok: bool, found: bool)
      modifies this
      ensures ok == io.Done?
      ensures reg == if io.Done? then Registries.Apply(old(reg), Registries.SetServerStatus(serverId, status)) else old(reg)
      ensures found <==> !io.NotLoaded? && Has(old(reg.servers), Registries.ServerKey, serverId)
    {
      if io.NotLoaded? { return false, false; }
      var servers;
      servers, found := UpdateEntries(reg.servers, Registries.ServerKey, serverId, Registries.WithServerStatus(status));
      if io.NotSaved? { return false, found; }
      reg := reg.(servers := servers);
      return true, found;
    }

    method SetServerNote(serverId: string, note: string, io: Access) returns (ok: bool, found: bool)
      modifies this
      ensures ok == io.Done?
      ensures reg == if io.Done? then Registries.Apply(old(reg), Registries.SetServerNote(serverId, note)) else old(reg)
      ensures found <==> !io.NotLoaded? && Has(old(reg.servers), Registries.ServerKey, serverId)
    {
      if io.NotLoaded? { return false, false; }
      var servers;
      servers, found := UpdateEntries(reg.servers, Registries.ServerKey, serverId, Registries.WithNote(note));
      if io.NotSaved? { return false, found; }
      reg := reg.(servers := servers);
      return true, found;
    }

    method RemoveServer(serverId: string, io: Access) returns (ok: bool, removed: bool)
      modifies this
      ensures ok == io.Done?
      ensures reg == if io.Done? then Registries.Apply(old(reg), Registries.RemoveServer(serverId)) else old(reg)
      ensures removed <==> !io.NotLoaded? && Has(old(reg.servers), Registries.ServerKey, serverId)
    {
      if io.NotLoaded? { return false, false; }
      var servers := reg.servers;
      var a := new Server[|servers|](i requires 0 <= i < |servers| => servers[i]);
      assert a[..] == servers;
      var n;
      n, removed := CompactInPlace(a, Registries.ServerKey, serverId);
      if io.NotSaved? { return false, removed; }
      reg := reg.(servers := a[..n]);
      return true, removed;
    }
  }

  lemma {:induction false} FindAt(servers: seq<Server>, serverId: string, i: nat)
    requires i < |servers| && servers[i].serverId == serverId
    requires forall j | 0 <= j < i :: servers[j].serverId != serverId
    ensures Find(servers, Registries.ServerKey, serverId) == Some(servers[i])
  {
    if i > 0 {
      FindAt(servers[1..], serverId, i - 1);
    }
  }
}
