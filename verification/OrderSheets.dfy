/** The states of an order between its products, when each product is worked off access by
    access without interference: the same as those of the handler's loop. A sheet lists
    these states and the outcomes of the products, so that a request that works off its
    products one by one can be compared with the loop product by product, without
    unfolding the loop. */
module OrderSheets {
  import opened Records
  import opened Services
  import opened Api
  import C = ConcurrentOrders

  /** ds are the states between the products, outs the outcomes of the products. */
  ghost predicate Sheet(thumbprint: string, req: OrderRequest, issue: nat -> IssueEnv, ds: seq<Progress>, outs: seq<Outcome<License>>) {
    && |ds| == |outs| + 1 && |outs| <= |req.products|
    && (forall i: nat | i < |outs| ::
          outs[i] == C.Finished(ds[i].reg, OrderFor(thumbprint, req, req.products[i]), C.Called, issue(i)))
    && (forall i: nat | i < |outs| :: ds[i + 1] == Advanced(ds[i], req.products[i], outs[i]))
  }

  lemma OutcomeAlone(reg: Registry, order: IssueInput, env: IssueEnv) returns (out: Outcome<License>)
    ensures out == C.Finished(reg, order, C.Called, env) && out == Issuing(reg, order, env)
  {
    C.AloneIsIssuing(reg, order, env);
    out := Issuing(reg, order, env);
  }

  lemma SheetExtends(thumbprint: string, req: OrderRequest, issue: nat -> IssueEnv, ds: seq<Progress>, outs: seq<Outcome<License>>,
                     d: Progress, out: Outcome<License>)
    requires Sheet(thumbprint, req, issue, ds, outs) && |outs| < |req.products|
    requires out == C.Finished(ds[|outs|].reg, OrderFor(thumbprint, req, req.products[|outs|]), C.Called, issue(|outs|))
    requires d == Advanced(ds[|outs|], req.products[|outs|], out)
    ensures Sheet(thumbprint, req, issue, ds + [d], outs + [out])
  {
  }

  lemma LastOutcome(reg: Registry, thumbprint: string, req: OrderRequest, issue: nat -> IssueEnv, n: nat, before: Progress)
    returns (d: Progress, out: Outcome<License>)
    requires 0 < n <= |req.products| && before == Ordered(reg, thumbprint, req, issue, n - 1)
    ensures out == C.Finished(before.reg, OrderFor(thumbprint, req, req.products[n - 1]), C.Called, issue(n - 1))
    ensures d == Advanced(before, req.products[n - 1], out) && d == Ordered(reg, thumbprint, req, issue, n)
  {
    out := OutcomeAlone(before.reg, OrderFor(thumbprint, req, req.products[n - 1]), issue(n - 1));
    d := Advanced(before, req.products[n - 1], out);
  }

  /** The handler's loop over the first n products has such a sheet. */
  lemma {:induction false} SheetOf(reg: Registry, thumbprint: string, req: OrderRequest, issue: nat -> IssueEnv, n: nat)
    returns (ds: seq<Progress>, outs: seq<Outcome<License>>)
    requires n <= |req.products|
    ensures Sheet(thumbprint, req, issue, ds, outs) && |outs| == n
    ensures ds[0] == Progress(reg, [], [], map[]) && ds[n] == Ordered(reg, thumbprint, req, issue, n)
  {
    if n == 0 {
      ds, outs := [Progress(reg, [], [], map[])], [];
    } else {
      var ds1, outs1 := SheetOf(reg, thumbprint, req, issue, n - 1);
      var d, out := LastOutcome(reg, thumbprint, req, issue, n, ds1[n - 1]);
      SheetExtends(thumbprint, req, issue, ds1, outs1, d, out);
      ds, outs := ds1 + [d], outs1 + [out];
    }
  }
}
