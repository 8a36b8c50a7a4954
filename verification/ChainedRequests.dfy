/** The server of the nonce chain is the server of the API: what a fetch or a post does to
    the nonces there is what the handlers do to them. */
module ChainedRequests {
  import opened Wrappers
  import opened Records
  import opened Jws
  import Nonces
  import N = NonceChain
  import opened Api
  import A = ApiRuns

  /** The nonce check of a post that carries the slot's nonce leaves the table that admission
      leaves, and is a rejection exactly when admission refuses the nonce. */
  lemma ServePostIsAdmission(s: N.System, client: nat, p: Primitives, reg: Registry, body: Octets, url: string,
                             read: bool, ttl: int, post: N.Action)
    requires post == N.ServePost(client, CheckedRequest(p, reg, Some(body), url, read).Ok?)
    requires N.Enabled(s, post)
    requires A.NonceOf(p, body) == s.clients[client].slot
    ensures var (t', verdict) := Admitted(p, reg, s.table, Some(body), url, read, s.clock);
      && N.Next(s, post, ttl).table == t'
      && (N.Rejection(s, post, client) == 1 <==> verdict == Err(BadNonce))
  {
    A.OnlyTheNonceCheckConsumes(p, reg, s.table, Some(body), url, read, s.clock);
  }

  /** So does a request that reaches the server after its client gave up, if its signature
      and url are right. */
  lemma ServeStrayIsAdmission(s: N.System, p: Primitives, reg: Registry, body: Octets, url: string,
                              read: bool, ttl: int, stray: N.Action)
    requires CheckedRequest(p, reg, Some(body), url, read).Ok?
    requires stray == N.ServeStray(A.NonceOf(p, body)) && N.Enabled(s, stray)
    ensures N.Next(s, stray, ttl).table == Admitted(p, reg, s.table, Some(body), url, read, s.clock).0
  {
    A.OnlyTheNonceCheckConsumes(p, reg, s.table, Some(body), url, read, s.clock);
  }

  /** Every answer leaves the table that a fresh nonce leaves, at any two readings of the
      clock of which the second is the time of the chain. */
  lemma AnswersAreFreshNonces(s: N.System, client: nat, env: RequestEnv, ttl: int, answer: N.Action)
    requires var draw := N.Draw(env.nonce, env.collectAt);
      answer in {N.ServeFetch(client, draw), N.AnswerPost(client, draw), N.AnswerNobody(client, draw)}
    requires N.Enabled(s, answer) && env.issueAt == s.clock
    ensures N.Next(s, answer, ttl).table == WithFreshNonce(s.table, env, ttl)
  {
  }

  /** The nonce check, the answer and the restart of the chain are those steps of the
      concurrent server: from equal tables they lead to equal tables. */
  lemma ChainStepsAreServerSteps(s: N.System, client: nat, c: A.Setup, server: A.State, r: nat, check: A.Action, answer: A.Action)
    requires server.books.table == s.table
    requires check == A.UseNonce(r, s.clock) && answer.Answer? && answer.draw.issueAt == s.clock
    ensures A.Enabled(server, check) && N.Enabled(s, N.ServePost(client, true))
            && server.requests[r].v.header.nonce == s.clients[client].slot
            ==> A.Next(c, server, check).books.table == N.Next(s, N.ServePost(client, true), c.ttl).table
    ensures var post := N.AnswerPost(client, N.Draw(answer.draw.nonce, answer.draw.collectAt));
      A.Enabled(server, answer) && N.Enabled(s, post)
      ==> A.Next(c, server, answer).books.table == N.Next(s, post, c.ttl).table
    ensures A.Next(c, server, A.Restart).books.table == N.Next(s, N.Restart, c.ttl).table
  {
  }
}
