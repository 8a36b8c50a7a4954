/** The store's transactions run through the commit protocol: what holds of every
    registry any process ever loads. */
module SharedRegistry {
  import opened Wrappers
  import opened Records
  import opened Registries
  import opened CommitProtocol

  /** Each writer runs one of the store's closures. */
  ghost predicate RunsTransactions(c: Setup, ms: map<nat, Mutation>) {
    && c.ops.Keys == ms.Keys
    && forall w, reg: Registry | w in ms :: c.ops[w](reg) == Apply(reg, ms[w])
  }

  function Transactions(ms: map<nat, Mutation>, committed: seq<nat>, n: nat): (r: seq<Mutation>)
    requires n <= |committed|
    requires forall i | 0 <= i < |committed| :: committed[i] in ms
    ensures |r| == n
  {
    if n == 0 then [] else Transactions(ms, committed, n - 1) + [ms[committed[n - 1]]]
  }

  /** The committed closures amount to the transactions one after the other. */
  lemma {:induction false} CommitsAreTransactions(c: Setup, ms: map<nat, Mutation>, committed: seq<nat>, n: nat)
    requires RunsTransactions(c, ms) && n <= |committed|
    requires forall i | 0 <= i < |committed| :: committed[i] in ms
    ensures RegistryAt(c, committed, n) == ApplyAll(Start(c), Transactions(ms, committed, n))
  {
    if n > 0 {
      CommitsAreTransactions(c, ms, committed, n - 1);
      var ts := Transactions(ms, committed, n);
      assert ts[..n - 1] == Transactions(ms, committed, n - 1);
    }
  }

  /** Whatever the interleaving, the crashes and the failed writes, a load gives a
      registry with unique keys: the result of the transactions committed when the file
      was opened, in commit order. */
  lemma EveryLoadIsWellFormed(c: Setup, ms: map<nat, Mutation>, s: State, acts: seq<Action>, r: nat)
    requires RunsTransactions(c, ms)
    requires c.initial.Some? ==> UniqueKeys(c.initial.value)
    requires Initial(c, s) && EnabledRun(c, s, acts) && r in Run(c, s, acts).readers
    requires Run(c, s, acts).readers[r].Read?
    ensures var reader := Run(c, s, acts).readers[r];
      var loaded := c.codec.unmarshal(reader.content);
      && (forall i | 0 <= i < |Run(c, s, acts).committed| :: Run(c, s, acts).committed[i] in ms)
      && reader.at <= |Run(c, s, acts).committed|
      && loaded == Some(ApplyAll(Start(c), Transactions(ms, Run(c, s, acts).committed, reader.at)))
      && UniqueKeys(loaded.value)
  {
    LoadsReturnCommittedStates(c, s, acts, r);
    var s' := Run(c, s, acts);
    CommitsAreTransactions(c, ms, s'.committed, s'.readers[r].at);
    UniqueKeysAlways(Start(c), Transactions(ms, s'.committed, s'.readers[r].at));
  }
}
