/** Single-use replay nonces with a time to live: the store, its garbage collection,
    and why the collection cannot be observed. Time is an integer. */
module Nonces {

  /** Outstanding nonces with the time each one expires. */
  type Table = map<string, int>

  // ----- the store's operations -----

  function Collected(t: Table, now: int): Table {
    map n | n in t && !(now > t[n]) :: t[n]
  }

  /** The clock is read twice: once to collect, then once to date the new nonce. */
  function Issued(t: Table, nonce: string, collectAt: int, at: int, ttl: int): Table {
    Collected(t, collectAt)[nonce := at + ttl]
  }

  predicate Valid(t: Table, nonce: string, at: int) {
    nonce in t && at < t[nonce]
  }

  function Used(t: Table, nonce: string): Table {
    t - {nonce}
  }

  class NonceStore {
    var issued: Table
    const ttl: int

    constructor (ttl: int)
      ensures issued == map[] && this.ttl == ttl
    {
      this.issued := map[];
      this.ttl := ttl;
    }

    method Issue(nonce: string, collectAt: int, at: int)
      requires collectAt <= at
      modifies this
      ensures issued == Issued(old(issued), nonce, collectAt, at, ttl)
    {
      Collect(collectAt);
      issued := issued[nonce := at + ttl];
    }

    method Use(nonce: string, at: int) returns (ok: bool)
      modifies this
      ensures ok == Valid(old(issued), nonce, at)
      ensures issued == Used(old(issued), nonce)
    {
      if nonce !in issued {
        return false;
      }
      var expires := issued[nonce];
      issued := issued - {nonce};
      return at < expires;
    }

    /** Sweeps the table in whatever order its keys come. */
    method Collect(now: int)
      modifies this
      ensures issued == Collected(old(issued), now)
    {
      var left := issued.Keys;
      while left != {}
        invariant left <= issued.Keys <= old(issued).Keys
        invariant forall n | n in issued :: issued[n] == old(issued)[n]
        invariant forall n | n in left :: n in issued
        invariant forall n | n in old(issued) && n !in left :: n in issued <==> !(now > old(issued)[n])
        decreases left
      {
        var n :| n in left;
        if now > issued[n] {
          issued := issued - {n};
        }
        left := left - {n};
      }
    }
  }

  // ----- runs -----

  datatype Event =
    | Issue(nonce: string, collectAt: int, at: int)
    | Use(nonce: string, at: int)

  /** The clock never goes back. */
  predicate Monotone(es: seq<Event>, clock: int) {
    es == [] ||
    match es[0]
    case Issue(_, collectAt, at) => clock <= collectAt <= at && Monotone(es[1..], at)
    case Use(_, at) => clock <= at && Monotone(es[1..], at)
  }

  function Step(t: Table, e: Event, ttl: int): Table {
    match e
    case Issue(n, collectAt, at) => Issued(t, n, collectAt, at, ttl)
    case Use(n, at) => Used(t, n)
  }

  /** The answers to the uses of a run, in order. */
  function Answers(t: Table, es: seq<Event>, ttl: int): seq<bool>
    decreases |es|
  {
    if es == [] then []
    else (if es[0].Use? then [Valid(t, es[0].nonce, es[0].at)] else []) + Answers(Step(t, es[0], ttl), es[1..], ttl)
  }

  /** A store that never collects. */
  function KeepingStep(t: Table, e: Event, ttl: int): Table {
    match e
    case Issue(n, _, at) => t[n := at + ttl]
    case Use(n, at) => t - {n}
  }

  function KeepingAnswers(t: Table, es: seq<Event>, ttl: int): seq<bool>
    decreases |es|
  {
    if es == [] then []
    else (if es[0].Use? then [Valid(t, es[0].nonce, es[0].at)] else []) + KeepingAnswers(KeepingStep(t, es[0], ttl), es[1..], ttl)
  }

  /** The collecting table is the other one without some entries that had expired. */
  ghost predicate Trimmed(t: Table, full: Table, clock: int) {
    && t.Keys <= full.Keys
    && (forall n | n in t :: t[n] == full[n])
    && (forall n | n in full && n !in t :: full[n] < clock)
  }

  /** Collection is unobservable: from any table, at any time to live, and for every
      run of a clock that never goes back, each use gets the same answer as from a
      store that never collects. */
  lemma {:induction false} CollectionIsUnobservable(t: Table, full: Table, es: seq<Event>, clock: int, ttl: int)
    requires Trimmed(t, full, clock) && Monotone(es, clock)
    ensures Answers(t, es, ttl) == KeepingAnswers(full, es, ttl)
    decreases |es|
  {
    if es != [] {
      var e := es[0];
      var t', full' := Step(t, e, ttl), KeepingStep(full, e, ttl);
      assert Trimmed(t', full', e.at);
      CollectionIsUnobservable(t', full', es[1..], e.at, ttl);
    }
  }

  /** The answer to the last use of a run that does not touch its nonce before: when the nonce
      expires later, and at no other time, it is accepted. */
  lemma {:induction false} AnsweredUntilExpiry(t: Table, es: seq<Event>, clock: int, ttl: int, nonce: string, expires: int, useAt: int)
    requires if nonce in t then t[nonce] == expires else expires < clock
    requires Monotone(es + [Use(nonce, useAt)], clock)
    requires forall i | 0 <= i < |es| :: es[i].nonce != nonce
    ensures var answers := Answers(t, es + [Use(nonce, useAt)], ttl);
      answers != [] && answers[|answers| - 1] == (useAt < expires)
    decreases |es|
  {
    var all := es + [Use(nonce, useAt)];
    if es == [] {
      assert all == [Use(nonce, useAt)] && all[1..] == [];
    } else {
      assert all[1..] == es[1..] + [Use(nonce, useAt)];
      AnsweredUntilExpiry(Step(t, es[0], ttl), es[1..], es[0].at, ttl, nonce, expires, useAt);
    }
  }

  /** A nonce is accepted from its issuance until its time to live is over, and not at that
      moment any more, whatever is issued, used and collected in between. */
  lemma NonceLifetime(t: Table, nonce: string, collectAt: int, at: int, ttl: int, es: seq<Event>, useAt: int)
    requires Monotone(es + [Use(nonce, useAt)], at) && forall i | 0 <= i < |es| :: es[i].nonce != nonce
    ensures var answers := Answers(t, [Issue(nonce, collectAt, at)] + (es + [Use(nonce, useAt)]), ttl);
      answers != [] && answers[|answers| - 1] == (useAt < at + ttl)
  {
    var rest := es + [Use(nonce, useAt)];
    assert ([Issue(nonce, collectAt, at)] + rest)[1..] == rest;
    AnsweredUntilExpiry(Issued(t, nonce, collectAt, at, ttl), es, at, ttl, nonce, at + ttl, useAt);
  }

  // ----- the size of the table -----

  function Run(t: Table, es: seq<Event>, ttl: int): Table
    decreases |es|
  {
    if es == [] then t else Step(Run(t, es[..|es| - 1], ttl), es[|es| - 1], ttl)
  }

  /** How many nonces a run issues at time since or later. */
  function IssuedSince(es: seq<Event>, since: int): nat {
    if es == [] then 0
    else IssuedSince(es[..|es| - 1], since) + (if es[|es| - 1].Issue? && es[|es| - 1].at >= since then 1 else 0)
  }

  lemma UnexpiredAfterIssue(t: Table, n: string, collectAt: int, at: int, ttl: int, now: int)
    ensures |Collected(Issued(t, n, collectAt, at, ttl), now)| <= |Collected(t, now)| + (if at >= now - ttl then 1 else 0)
  {
    var next := Collected(Issued(t, n, collectAt, at, ttl), now);
    Smaller(next - {n}, Collected(t, now));
    if n in next {
      assert next.Keys == (next - {n}).Keys + {n};
    } else {
      assert next == next - {n};
    }
  }

  lemma UnexpiredAfterUse(t: Table, n: string, now: int)
    ensures |Collected(Used(t, n), now)| <= |Collected(t, now)|
  {
    Smaller(Collected(Used(t, n), now), Collected(t, now));
  }

  lemma {:induction false} UnexpiredEntries(es: seq<Event>, ttl: int, now: int)
    ensures |Collected(Run(map[], es, ttl), now)| <= IssuedSince(es, now - ttl)
    decreases |es|
  {
    if es != [] {
      UnexpiredEntries(es[..|es| - 1], ttl, now);
      var t := Run(map[], es[..|es| - 1], ttl);
      match es[|es| - 1]
      case Issue(n, collectAt, at) => UnexpiredAfterIssue(t, n, collectAt, at, ttl, now);
      case Use(n, at) => UnexpiredAfterUse(t, n, now);
    }
  }

  lemma Smaller(a: Table, b: Table)
    requires a.Keys <= b.Keys
    ensures |a| <= |b|
  {
    var rest := b.Keys - a.Keys;
    assert b.Keys == a.Keys + rest;
    assert |b.Keys| == |a.Keys| + |rest|;
  }

  /** Right after a nonce is issued, the table holds at most as many nonces as were
      issued within the last time to live. */
  lemma TableIsBounded(es: seq<Event>, nonce: string, collectAt: int, at: int, ttl: int)
    requires ttl >= 0 && collectAt <= at
    ensures var es' := es + [Issue(nonce, collectAt, at)];
      |Run(map[], es', ttl)| <= IssuedSince(es', collectAt - ttl)
  {
    var es' := es + [Issue(nonce, collectAt, at)];
    assert es'[..|es' | - 1] == es;
    var t := Run(map[], es, ttl);
    UnexpiredEntries(es, ttl, collectAt);
    var kept := Collected(t, collectAt);
    var next := Run(map[], es', ttl);
    assert next == kept[nonce := at + ttl];
    assert next.Keys == kept.Keys + {nonce};
    Smaller(next - {nonce}, kept);
    assert next.Keys == (next - {nonce}).Keys + {nonce};
  }
}
