/** Where a host's status comes from, under any interleaving of store transactions. */
module Provenance {
  import opened Wrappers
  import opened Records
  import opened KeyedLists
  import opened Registries

  /** The status of a host; None when it is not registered. */
  function StatusOf(reg: Registry, id: string): Option<Status> {
    match Find(reg.servers, ServerKey, id)
    case None => None
    case Some(s) => Some(s.status)
  }

  /** The life of one host as a machine of its own, without lists and other hosts. */
  function Decide(status: Option<Status>, m: Mutation, id: string): Option<Status> {
    match m
    case UpsertServer(id', _, _, auto, _) =>
      if id' != id then status
      else if status == None then Some(if auto then Approved else Pending)
      else if status == Some(Pending) && auto then Some(Approved)
      else status
    case SetServerStatus(id', st) => if id' == id && status.Some? then Some(st) else status
    case RemoveServer(id') => if id' == id then None else status
    case _ => status
  }

  function DecideAll(status: Option<Status>, ms: seq<Mutation>, id: string): Option<Status>
    decreases |ms|
  {
    if ms == [] then status else Decide(DecideAll(status, ms[..|ms| - 1], id), ms[|ms| - 1], id)
  }

  lemma StatusFollowsMap(reg: Registry, id: string)
    ensures StatusOf(reg, id) ==
            var servers := Abstract(reg).servers; if id in servers then Some(servers[id].status) else None
  {
    FindIsLookup(reg.servers, ServerKey, id);
  }

  lemma MutationDecides(reg: Registry, m: Mutation, id: string)
    ensures StatusOf(Apply(reg, m), id) == Decide(StatusOf(reg, id), m, id)
  {
    MutationRefinesMaps(reg, m);
    StatusFollowsMap(reg, id);
    StatusFollowsMap(Apply(reg, m), id);
  }

  /** The status of a host in the registry is always that of its own machine. */
  lemma {:induction false} StatusIsDecided(reg: Registry, ms: seq<Mutation>, id: string)
    ensures StatusOf(ApplyAll(reg, ms), id) == DecideAll(StatusOf(reg, id), ms, id)
    decreases |ms|
  {
    if ms != [] {
      StatusIsDecided(reg, ms[..|ms| - 1], id);
      MutationDecides(ApplyAll(reg, ms[..|ms| - 1]), ms[|ms| - 1], id);
    }
  }

  /** An operator decision about the host: a status set by hand, or its removal. */
  predicate OperatorActs(m: Mutation, id: string) {
    (m.SetServerStatus? && m.serverId == id) || (m.RemoveServer? && m.serverId == id)
  }

  /** Any status but PENDING survives every sequence of contacts and of transactions
      about other things, until an operator acts on that host. */
  lemma {:induction false} DecisionSurvivesContacts(reg: Registry, ms: seq<Mutation>, id: string, status: Status)
    requires StatusOf(reg, id) == Some(status) && status != Pending
    requires forall i | 0 <= i < |ms| :: !OperatorActs(ms[i], id)
    ensures StatusOf(ApplyAll(reg, ms), id) == Some(status)
    decreases |ms|
  {
    if ms != [] {
      DecisionSurvivesContacts(reg, ms[..|ms| - 1], id, status);
      MutationDecides(ApplyAll(reg, ms[..|ms| - 1]), ms[|ms| - 1], id);
    }
  }

  /** What turns a host of the given status into an approved one: the operator approves
      it, or it makes an auto-approved contact while it is new or pending. */
  predicate Approves(status: Option<Status>, m: Mutation, id: string) {
    || (m == SetServerStatus(id, Approved) && status.Some?)
    || (m.UpsertServer? && m.serverId == id && m.autoApprove && (status == None || status == Some(Pending)))
  }

  /** Transaction i approved the host, and no operator acted on it since. */
  ghost predicate ApprovedBy(reg: Registry, ms: seq<Mutation>, id: string, i: nat)
    requires i < |ms|
  {
    && Approves(StatusOf(ApplyAll(reg, ms[..i]), id), ms[i], id)
    && forall j | i < j < |ms| :: !OperatorActs(ms[j], id)
  }

  /** The same on the host's own machine. */
  ghost predicate DecidedBy(status: Option<Status>, ms: seq<Mutation>, id: string, i: nat)
    requires i < |ms|
  {
    && Approves(DecideAll(status, ms[..i], id), ms[i], id)
    && forall j | i < j < |ms| :: !OperatorActs(ms[j], id)
  }

  lemma DecisionAt(status: Option<Status>, ms: seq<Mutation>, id: string, i: nat)
    requires i < |ms| && DecidedBy(status, ms, id, i)
    ensures DecideAll(status, ms, id) == Some(Approved)
    decreases |ms|
  {
    var last := |ms| - 1;
    if i < last {
      assert ms[..last][..i] == ms[..i];
      DecisionAt(status, ms[..last], id, i);
    }
  }

  lemma FindDecision(status: Option<Status>, ms: seq<Mutation>, id: string) returns (i: nat)
    requires status != Some(Approved) && DecideAll(status, ms, id) == Some(Approved)
    ensures i < |ms| && DecidedBy(status, ms, id, i)
    decreases |ms|
  {
    var last := |ms| - 1;
    if DecideAll(status, ms[..last], id) == Some(Approved) && !OperatorActs(ms[last], id) {
      i := FindDecision(status, ms[..last], id);
      assert ms[..last][..i] == ms[..i];
    } else {
      i := last;
    }
  }

  /** A host that was not approved at the start is approved after any interleaving of
      transactions exactly when one of them approved it and no operator acted on it
      since; in particular not since its last creation. */
  lemma ApprovalHasProvenance(reg: Registry, ms: seq<Mutation>, id: string)
    requires StatusOf(reg, id) != Some(Approved)
    ensures StatusOf(ApplyAll(reg, ms), id) == Some(Approved) <==> exists i: nat | i < |ms| :: ApprovedBy(reg, ms, id, i)
  {
    StatusIsDecided(reg, ms, id);
    forall i: nat | i < |ms| ensures ApprovedBy(reg, ms, id, i) <==> DecidedBy(StatusOf(reg, id), ms, id, i) {
      StatusIsDecided(reg, ms[..i], id);
    }
    if StatusOf(ApplyAll(reg, ms), id) == Some(Approved) {
      var i := FindDecision(StatusOf(reg, id), ms, id);
    }
    if i: nat :| i < |ms| && ApprovedBy(reg, ms, id, i) {
      DecisionAt(StatusOf(reg, id), ms, id, i);
    }
  }

  // ----- accounts -----

  /** The status of an account; None when it is not registered. */
  function AccountStatusOf(reg: Registry, t: string): Option<Status> {
    match Find(reg.accounts, AccountKey, t)
    case None => None
    case Some(a) => Some(a.status)
  }

  /** The life of one account as a machine of its own: an operator decides about a known
      account, and a registration stores the status it comes with. */
  function DecideAccount(status: Option<Status>, m: Mutation, t: string): Option<Status> {
    if m.SetAccountStatus? && m.thumbprint == t && status.Some? then Some(m.status)
    else if m.UpsertAccount? && m.account.thumbprint == t then Some(m.account.status)
    else status
  }

  function DecideAccountAll(status: Option<Status>, ms: seq<Mutation>, t: string): Option<Status>
    decreases |ms|
  {
    if ms == [] then status else DecideAccount(DecideAccountAll(status, ms[..|ms| - 1], t), ms[|ms| - 1], t)
  }

  /** What one transaction leaves of an account: an operator's decision changes its status
      and nothing else. */
  lemma AccountAfter(reg: Registry, m: Mutation, t: string)
    ensures var before, after := Find(reg.accounts, AccountKey, t), Find(Apply(reg, m).accounts, AccountKey, t);
      if m.SetAccountStatus? && m.thumbprint == t && before.Some? then after == Some(before.value.(status := m.status))
      else if m.UpsertAccount? && m.account.thumbprint == t then after == Some(m.account)
      else after == before
  {
    MutationRefinesMaps(reg, m);
    FindIsLookup(reg.accounts, AccountKey, t);
    FindIsLookup(Apply(reg, m).accounts, AccountKey, t);
  }

  /** The status of an account in the registry is always that of its own machine. */
  lemma {:induction false} AccountStatusIsDecided(reg: Registry, ms: seq<Mutation>, t: string)
    ensures AccountStatusOf(ApplyAll(reg, ms), t) == DecideAccountAll(AccountStatusOf(reg, t), ms, t)
    decreases |ms|
  {
    if ms != [] {
      AccountStatusIsDecided(reg, ms[..|ms| - 1], t);
      AccountAfter(ApplyAll(reg, ms[..|ms| - 1]), ms[|ms| - 1], t);
    }
  }

  /** The transaction stores or decides about this account. */
  predicate ActsOnAccount(m: Mutation, t: string) {
    (m.SetAccountStatus? && m.thumbprint == t) || (m.UpsertAccount? && m.account.thumbprint == t)
  }

  /** The decision of an operator about a known account stands until something acts on it. */
  lemma {:induction false} DecisionStands(was: Option<Status>, status: Status, ms: seq<Mutation>, t: string)
    requires was.Some? && forall i | 0 <= i < |ms| :: !ActsOnAccount(ms[i], t)
    ensures DecideAccountAll(was, [SetAccountStatus(t, status)] + ms, t) == Some(status)
    decreases |ms|
  {
    var decided := [SetAccountStatus(t, status)];
    if ms == [] {
      assert decided + ms == decided && decided[..0] == [];
      assert DecideAccountAll(was, [], t) == was;
    } else {
      DecisionStands(was, status, ms[..|ms| - 1], t);
      assert (decided + ms)[..|ms|] == decided + ms[..|ms| - 1];
    }
  }
}
