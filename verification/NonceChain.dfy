/** Clients that chain replay nonces from answer to answer, against one server, over a
    network that loses messages or delivers them late. */
module NonceChain {
  import opened Wrappers
  import Nonces

  // ----- one client -----

  /** What one call of post does to the nonce slot, and the nonce it presents, if it gets
      that far. fetched and replied are the Replay-Nonce headers of the two answers:
      None for a transport error, "" for a missing header. */
  function AfterPost(slot: string, fetched: Option<string>, replied: Option<string>): (string, Option<string>) {
    var slot1 := if slot != "" || fetched.None? then slot else fetched.value;
    if slot1 == "" then ("", None)
    else (if replied.Some? then replied.value else slot1, Some(slot1))
  }

  class AcmeClient {
    var nonce: string

    constructor ()
      ensures nonce == ""
    {
      nonce := "";
    }

    method RefreshNonce(fetched: Option<string>) returns (ok: bool)
      modifies this
      ensures nonce == if fetched.Some? then fetched.value else old(nonce)
      ensures ok <==> fetched.Some? && fetched.value != ""
    {
      if fetched.None? { return false; }
      nonce := fetched.value;
      return nonce != "";
    }

    method Post(fetched: Option<string>, replied: Option<string>) returns (presented: Option<string>)
      modifies this
      ensures (nonce, presented) == AfterPost(old(nonce), fetched, replied)
    {
      if nonce == "" {
        var ok := RefreshNonce(fetched);
        if !ok { return None; }
      }
      presented := Some(nonce);
      if replied.None? { return; }
      if replied.value != "" {
        nonce := replied.value;
      } else {
        nonce := "";
      }
    }
  }

  // ----- many clients and the server -----

  datatype Phase =
    | Idle
    | Fetching                                   // a request for a nonce is on its way
    | Fetched(nonce: string)                     // its answer is on its way; "" is no header
    | Posting                                    // a signed request with the slot's nonce is on its way
    | Served(rejected: bool)                     // its nonce was looked up and it is being handled
    | Replied(rejected: bool, nonce: string)     // its answer is on its way

  datatype Client = Client(slot: string, phase: Phase)

  /** owner is a history of who was issued which nonce. strays are the nonces of requests
      whose client gave up but that may still reach the server. */
  datatype System = System(
    table: Nonces.Table, clock: int, clients: map<nat, Client>, owner: map<string, nat>, strays: set<string>)

  /** The nonce drawn for an answer, None when the random source fails, and the clock
      reading of the collection; the nonce is recorded at the time of the step. */
  datatype Draw = Draw(nonce: Option<string>, collectAt: int)

  /** ServePost and ServeStray use the nonce of a request; AnswerPost and AnswerNobody issue
      one in an answer, the latter to a request whose client gave up. */
  datatype Action =
    | Call(c: nat)
    | ServeFetch(c: nat, draw: Draw)
    | TakeFetch(c: nat)
    | ServePost(c: nat, wellSigned: bool)
    | AnswerPost(c: nat, draw: Draw)
    | TakeReply(c: nat)
    | Lose(c: nat, late: bool)
    | ServeStray(nonce: string)
    | AnswerNobody(c: nat, draw: Draw)
    | Restart
    | Tick(now: int)

  ghost predicate Enabled(s: System, a: Action) {
    match a
    case Call(c) => c in s.clients && s.clients[c].phase.Idle?
    case ServeFetch(c, d) => c in s.clients && s.clients[c].phase.Fetching? && New(s, d)
    case TakeFetch(c) => c in s.clients && s.clients[c].phase.Fetched?
    case ServePost(c, _) => c in s.clients && s.clients[c].phase.Posting?
    case AnswerPost(c, d) => c in s.clients && s.clients[c].phase.Served? && New(s, d)
    case TakeReply(c) => c in s.clients && s.clients[c].phase.Replied?
    case Lose(c, _) => c in s.clients && !s.clients[c].phase.Idle?
    case ServeStray(n) => n in s.strays
    case AnswerNobody(_, d) => New(s, d)
    case Restart => true
    case Tick(now) => s.clock <= now
  }

  /** The random nonce repeats none that was issued before. */
  ghost predicate New(s: System, d: Draw) {
    && d.collectAt <= s.clock
    && (d.nonce.Some? ==> d.nonce.value != "" && d.nonce.value !in s.owner)
  }

  function Header(f: Option<string>): string {
    if f.Some? then f.value else ""
  }

  /** The system once a nonce is issued for an answer to a request of client c. */
  function Issuing(s: System, c: nat, d: Draw, ttl: int): System {
    if d.nonce.None? then s
    else s.(table := Nonces.Issued(s.table, d.nonce.value, d.collectAt, s.clock, ttl), owner := s.owner[d.nonce.value := c])
  }

  function Next(s: System, a: Action, ttl: int): System
    requires Enabled(s, a)
  {
    match a
    case Call(c) =>
      s.(clients := s.clients[c := s.clients[c].(phase := if s.clients[c].slot == "" then Fetching else Posting)])
    case ServeFetch(c, d) =>
      Issuing(s, c, d, ttl).(clients := s.clients[c := s.clients[c].(phase := Fetched(Header(d.nonce)))])
    case TakeFetch(c) =>
      var n := s.clients[c].phase.nonce;
      s.(clients := s.clients[c := Client(n, if n == "" then Idle else Posting)])
    case ServePost(c, wellSigned) =>
      var n := s.clients[c].slot;
      var rejected := wellSigned && !Nonces.Valid(s.table, n, s.clock);
      s.(table := if wellSigned then Nonces.Used(s.table, n) else s.table,
         clients := s.clients[c := Client(n, Served(rejected))])
    case AnswerPost(c, d) =>
      var cl := s.clients[c];
      Issuing(s, c, d, ttl).(clients := s.clients[c := Client(cl.slot, Replied(cl.phase.rejected, Header(d.nonce)))])
    case TakeReply(c) =>
      s.(clients := s.clients[c := Client(s.clients[c].phase.nonce, Idle)])
    case Lose(c, late) =>
      s.(clients := s.clients[c := s.clients[c].(phase := Idle)],
         strays := s.strays + (if late && s.clients[c].phase.Posting? then {s.clients[c].slot} else {}))
    case ServeStray(n) => s.(table := Nonces.Used(s.table, n), strays := s.strays - {n})
    case AnswerNobody(c, d) => Issuing(s, c, d, ttl)
    case Restart => s.(table := map[])
    case Tick(now) => s.(clock := now)
  }

  // ----- what every step keeps -----

  ghost predicate Owns(s: System, c: nat, n: string) {
    n != "" ==> n in s.owner && s.owner[n] == c
  }

  ghost predicate ClientInv(s: System, c: nat)
    requires c in s.clients
  {
    var cl := s.clients[c];
    && Owns(s, c, cl.slot)
    && (cl.phase.Fetching? || cl.phase.Fetched? ==> cl.slot == "")
    && (cl.phase.Posting? || cl.phase.Served? || cl.phase.Replied? ==> cl.slot != "")
    && (cl.phase.Fetched? || cl.phase.Replied? ==> Owns(s, c, cl.phase.nonce) && cl.phase.nonce !in s.strays)
  }

  ghost predicate Inv(s: System) {
    && (forall c | c in s.clients :: ClientInv(s, c))
    && s.strays <= s.owner.Keys
    && "" !in s.strays
  }

  lemma NextKeepsInv(s: System, a: Action, ttl: int)
    requires Inv(s) && Enabled(s, a)
    ensures Inv(Next(s, a, ttl))
  {
    var s' := Next(s, a, ttl);
    forall c | c in s'.clients ensures ClientInv(s', c) {
      assert ClientInv(s, c);
    }
  }

  /** The nonce a client will present next: the one in an answer on its way, else the
      one in its slot, if that is not being used. */
  function Held(cl: Client): string {
    match cl.phase
    case Fetched(n) => n
    case Replied(_, n) => n
    case Served(_) => ""
    case _ => cl.slot
  }

  /** Nonces held by different clients are different. */
  lemma HeldNoncesAreDistinct(s: System, c: nat, d: nat)
    requires Inv(s) && c in s.clients && d in s.clients && c != d
    ensures Held(s.clients[c]) == Held(s.clients[d]) ==> Held(s.clients[c]) == ""
    ensures Held(s.clients[c]) == s.clients[d].slot ==> Held(s.clients[c]) == ""
  {
    assert ClientInv(s, c) && ClientInv(s, d);
  }

  // ----- rejections are paid by faults -----

  /** The held nonce, if any, will be accepted, and no late request can consume it. */
  predicate Live(s: System, c: nat)
    requires c in s.clients
  {
    var n := Held(s.clients[c]);
    n != "" ==> Nonces.Valid(s.table, n, s.clock) && n !in s.strays
  }

  function Dead(s: System, c: nat): nat
    requires c in s.clients
  {
    if Live(s, c) then 0 else 1
  }

  /** A fault that concerns the client: one of its messages is lost, the server restarts,
      or its nonce expires. */
  ghost function Fault(s: System, a: Action, c: nat, ttl: int): nat
    requires c in s.clients && Enabled(s, a)
  {
    match a
    case Lose(d, _) => if d == c then 1 else 0
    case Restart => 1
    case Tick(_) => if Live(s, c) && !Live(Next(s, a, ttl), c) then 1 else 0
    case _ => 0
  }

  /** The server refuses the client's request for its nonce. */
  function Rejection(s: System, a: Action, c: nat): nat
    requires c in s.clients
  {
    if a.ServePost? && a.c == c && a.wellSigned && !Nonces.Valid(s.table, s.clients[c].slot, s.clock) then 1 else 0
  }

  lemma StepPays(s: System, a: Action, c: nat, ttl: int)
    requires Inv(s) && Enabled(s, a) && c in s.clients && ttl > 0
    ensures Rejection(s, a, c) + Dead(Next(s, a, ttl), c) <= Dead(s, c) + Fault(s, a, c, ttl)
  {
    assert ClientInv(s, c);
    match a
    case ServeFetch(d, _) =>
      assert ClientInv(s, d);
    case AnswerPost(d, _) =>
      assert ClientInv(s, d);
    case ServePost(d, wellSigned) =>
      assert ClientInv(s, d);
      if c != d {
        HeldNoncesAreDistinct(s, c, d);
      }
    case Lose(d, late) =>
      assert ClientInv(s, d);
    case _ =>
  }

  // ----- runs -----

  ghost predicate EnabledRun(s: System, acts: seq<Action>, ttl: int)
    decreases |acts|
  {
    acts != [] ==> Enabled(s, acts[0]) && EnabledRun(Next(s, acts[0], ttl), acts[1..], ttl)
  }

  ghost function Run(s: System, acts: seq<Action>, ttl: int): System
    requires EnabledRun(s, acts, ttl)
    decreases |acts|
  {
    if acts == [] then s else Run(Next(s, acts[0], ttl), acts[1..], ttl)
  }

  lemma {:induction false} RunKeepsInv(s: System, acts: seq<Action>, ttl: int)
    requires Inv(s) && EnabledRun(s, acts, ttl)
    ensures Inv(Run(s, acts, ttl)) && Run(s, acts, ttl).clients.Keys == s.clients.Keys
    decreases |acts|
  {
    if acts != [] {
      NextKeepsInv(s, acts[0], ttl);
      RunKeepsInv(Next(s, acts[0], ttl), acts[1..], ttl);
    }
  }

  ghost function Rejections(s: System, acts: seq<Action>, c: nat, ttl: int): nat
    requires c in s.clients && EnabledRun(s, acts, ttl)
    decreases |acts|
  {
    if acts == [] then 0
    else Rejection(s, acts[0], c) + Rejections(Next(s, acts[0], ttl), acts[1..], c, ttl)
  }

  ghost function Faults(s: System, acts: seq<Action>, c: nat, ttl: int): nat
    requires c in s.clients && EnabledRun(s, acts, ttl)
    decreases |acts|
  {
    if acts == [] then 0
    else Fault(s, acts[0], c, ttl) + Faults(Next(s, acts[0], ttl), acts[1..], c, ttl)
  }

  /** Over every stretch of every run, a client is refused for its nonce at most as often
      as it meets faults, plus once if its nonce was dead at the start. Whatever other
      clients do costs it nothing. */
  lemma {:induction false} RejectionsArePaid(s: System, acts: seq<Action>, c: nat, ttl: int)
    requires Inv(s) && EnabledRun(s, acts, ttl) && c in s.clients && ttl > 0
    ensures c in Run(s, acts, ttl).clients
    ensures Rejections(s, acts, c, ttl) + Dead(Run(s, acts, ttl), c) <= Dead(s, c) + Faults(s, acts, c, ttl)
    decreases |acts|
  {
    if acts != [] {
      StepPays(s, acts[0], c, ttl);
      NextKeepsInv(s, acts[0], ttl);
      RejectionsArePaid(Next(s, acts[0], ttl), acts[1..], c, ttl);
    }
  }

  /** The state in which no client has called yet. */
  predicate Start(s: System) {
    s.table == map[] && s.strays == {} && forall c | c in s.clients :: s.clients[c] == Client("", Idle)
  }

  /** Without a fault, every nonce the client holds is live and none is refused. */
  lemma NoFaultNoRejection(s: System, acts: seq<Action>, c: nat, ttl: int)
    requires Start(s) && EnabledRun(s, acts, ttl) && c in s.clients && ttl > 0
    requires Faults(s, acts, c, ttl) == 0
    ensures c in Run(s, acts, ttl).clients && Live(Run(s, acts, ttl), c)
    ensures Rejections(s, acts, c, ttl) == 0
  {
    RejectionsArePaid(s, acts, c, ttl);
  }

  /** Right after the server answers a request, whatever it decided, the client's next
      nonce is live: so after a refusal the next one needs another fault first. */
  lemma AnswerRepairs(s: System, c: nat, d: Draw, acts: seq<Action>, ttl: int)
    requires Inv(s) && ttl > 0 && Enabled(s, AnswerPost(c, d))
    requires EnabledRun(Next(s, AnswerPost(c, d), ttl), acts, ttl)
    ensures var s' := Next(s, AnswerPost(c, d), ttl);
      Live(s', c) && Rejections(s', acts, c, ttl) <= Faults(s', acts, c, ttl)
  {
    var s' := Next(s, AnswerPost(c, d), ttl);
    assert ClientInv(s, c);
    NextKeepsInv(s, AnswerPost(c, d), ttl);
    RejectionsArePaid(s', acts, c, ttl);
  }

  /** The bound is met: when the answer to a well-signed request is lost, the client
      presents the consumed nonce again and is refused. */
  lemma LostAnswerIsRefused(s: System, c: nat, d: Draw, ttl: int)
    requires Inv(s) && Enabled(s, ServePost(c, true)) && New(s, d)
    ensures var acts := [ServePost(c, true), AnswerPost(c, d), Lose(c, false), Call(c)];
      && EnabledRun(s, acts, ttl)
      && var s4 := Run(s, acts, ttl);
         Enabled(s4, ServePost(c, true)) && Rejection(s4, ServePost(c, true), c) == 1
  {
    assert ClientInv(s, c);
    var s1 := Next(s, ServePost(c, true), ttl);
    var s2 := Next(s1, AnswerPost(c, d), ttl);
    var s3 := Next(s2, Lose(c, false), ttl);
    Prepend(s3, Call(c), [], ttl);
    Prepend(s2, Lose(c, false), [Call(c)], ttl);
    Prepend(s1, AnswerPost(c, d), [Lose(c, false), Call(c)], ttl);
    Prepend(s, ServePost(c, true), [AnswerPost(c, d), Lose(c, false), Call(c)], ttl);
  }

  /** The other faults can cost a refusal each, too: a restart of the server, the expiry of the
      nonce, and a request that its client gave up and that arrives after all. */
  lemma EveryFaultCosts(s: System, c: nat, now: int, ttl: int)
    requires Inv(s) && c in s.clients && s.clients[c].slot != ""
    ensures s.clients[c].phase.Idle? ==> RefusedAfter(s, [Restart, Call(c)], c, ttl)
    ensures s.clients[c].phase.Idle? && s.clients[c].slot in s.table && s.clock <= now && s.table[s.clients[c].slot] <= now ==>
      RefusedAfter(s, [Tick(now), Call(c)], c, ttl)
    ensures s.clients[c].phase.Posting? ==> RefusedAfter(s, [Lose(c, true), Call(c), ServeStray(s.clients[c].slot)], c, ttl)
  {
    assert ClientInv(s, c);
    if s.clients[c].phase.Idle? {
      TwoStepsRefuse(s, Restart, c, ttl);
      if s.clients[c].slot in s.table && s.clock <= now && s.table[s.clients[c].slot] <= now {
        TwoStepsRefuse(s, Tick(now), c, ttl);
      }
    }
    if s.clients[c].phase.Posting? {
      var n := s.clients[c].slot;
      var s1 := Next(s, Lose(c, true), ttl);
      var s2 := Next(s1, Call(c), ttl);
      Prepend(s2, ServeStray(n), [], ttl);
      Prepend(s1, Call(c), [ServeStray(n)], ttl);
      Prepend(s, Lose(c, true), [Call(c), ServeStray(n)], ttl);
    }
  }

  /** After these steps the server refuses the client's request for its nonce. */
  ghost predicate RefusedAfter(s: System, acts: seq<Action>, c: nat, ttl: int) {
    && EnabledRun(s, acts, ttl)
    && Enabled(Run(s, acts, ttl), ServePost(c, true))
    && Rejection(Run(s, acts, ttl), ServePost(c, true), c) == 1
  }

  lemma TwoStepsRefuse(s: System, a: Action, c: nat, ttl: int)
    requires Enabled(s, a) && c in s.clients && s.clients[c].phase.Idle? && s.clients[c].slot != ""
    requires Next(s, a, ttl).clients == s.clients
    requires !Nonces.Valid(Next(s, a, ttl).table, s.clients[c].slot, Next(s, a, ttl).clock)
    ensures RefusedAfter(s, [a, Call(c)], c, ttl)
  {
    Prepend(Next(s, a, ttl), Call(c), [], ttl);
    Prepend(s, a, [Call(c)], ttl);
  }

  // ----- an undisturbed call -----

  lemma Prepend(s: System, a: Action, rest: seq<Action>, ttl: int)
    requires Enabled(s, a) && EnabledRun(Next(s, a, ttl), rest, ttl)
    ensures EnabledRun(s, [a] + rest, ttl) && Run(s, [a] + rest, ttl) == Run(Next(s, a, ttl), rest, ttl)
  {
    assert ([a] + rest)[1..] == rest;
  }

  function Exchange(c: nat, wellSigned: bool, d: Draw): seq<Action> {
    [ServePost(c, wellSigned)] + ([AnswerPost(c, d)] + ([TakeReply(c)] + []))
  }

  lemma ExchangeFillsSlot(s: System, c: nat, wellSigned: bool, d: Draw, ttl: int)
    requires c in s.clients && s.clients[c].phase.Posting? && New(s, d)
    ensures EnabledRun(s, Exchange(c, wellSigned, d), ttl)
    ensures var s' := Run(s, Exchange(c, wellSigned, d), ttl);
      c in s'.clients && s'.clients[c] == Client(Header(d.nonce), Idle)
  {
    var s1 := Next(s, ServePost(c, wellSigned), ttl);
    var s2 := Next(s1, AnswerPost(c, d), ttl);
    Prepend(s2, TakeReply(c), [], ttl);
    Prepend(s1, AnswerPost(c, d), [TakeReply(c)] + [], ttl);
    Prepend(s, ServePost(c, wellSigned), [AnswerPost(c, d)] + ([TakeReply(c)] + []), ttl);
  }

  /** The steps of a call whose exchanges are answered: the fetch is made with an empty
      slot only, and the request only with a nonce in the slot. */
  function CallSteps(slot: string, c: nat, fetch: Draw, wellSigned: bool, reply: Draw): seq<Action> {
    [Call(c)] +
    if slot != "" then Exchange(c, wellSigned, reply)
    else [ServeFetch(c, fetch)] + ([TakeFetch(c)] + if fetch.nonce.None? then [] else Exchange(c, wellSigned, reply))
  }

  /** The slot of a client that runs one call without interference is the slot that
      post computes. */
  lemma CallFollowsPost(s: System, c: nat, fetch: Draw, wellSigned: bool, reply: Draw, ttl: int)
    requires Inv(s) && c in s.clients && s.clients[c].phase.Idle?
    requires New(s, fetch) && New(s, reply) && (fetch.nonce.Some? && reply.nonce.Some? ==> fetch.nonce != reply.nonce)
    ensures var calls := CallSteps(s.clients[c].slot, c, fetch, wellSigned, reply);
      && EnabledRun(s, calls, ttl)
      && c in Run(s, calls, ttl).clients
      && Run(s, calls, ttl).clients[c] == Client(AfterPost(s.clients[c].slot, Some(Header(fetch.nonce)), Some(Header(reply.nonce))).0, Idle)
  {
    var s1 := Next(s, Call(c), ttl);
    if s.clients[c].slot != "" {
      ExchangeFillsSlot(s1, c, wellSigned, reply, ttl);
      Prepend(s, Call(c), Exchange(c, wellSigned, reply), ttl);
    } else {
      var s2 := Next(s1, ServeFetch(c, fetch), ttl);
      var s3 := Next(s2, TakeFetch(c), ttl);
      var rest := if fetch.nonce.None? then [] else Exchange(c, wellSigned, reply);
      if fetch.nonce.Some? {
        ExchangeFillsSlot(s3, c, wellSigned, reply, ttl);
      }
      Prepend(s2, TakeFetch(c), rest, ttl);
      Prepend(s1, ServeFetch(c, fetch), [TakeFetch(c)] + rest, ttl);
      Prepend(s, Call(c), [ServeFetch(c, fetch)] + ([TakeFetch(c)] + rest), ttl);
    }
  }
}
