/** A dispute is resolved once, and not before its money has moved. */
module Resolution {
  import opened Wrappers
  import opened Ledger
  import opened Orders
  import opened Settlement
  import opened Market
  import opened MarketInvariant
  import opened Theorems
  import opened ReleaseConditions
  import opened DisputeGuard

  function Outcome(how: Resolution): DisputeStatus { if how.ReleaseSeller? then Rejected else Resolved }

  ghost predicate ClosedAs(db: Db, id: OrderId, d: DisputeStatus) {
    id in db.orders && db.orders[id].dispute == Some(d) && IsResolved(d)
  }

  lemma ClosedIsRefused(db: Db, id: OrderId, d: DisputeStatus, admin: UserId, how: Resolution,
                        refundOk: bool, cashOutOk: bool)
    requires ClosedAs(db, id, d)
    ensures ResolveDispute(db, id, admin, how, refundOk, cashOutOk) == Response(db, Err(BadRequest))
  {
    hide ReleaseOrder, RefundWhole, RefundPart, CompleteDisputed, Finalize;
  }

  lemma ClosedStep(db: Db, s: Step, id: OrderId, d: DisputeStatus)
    requires ClosedAs(db, id, d)
    ensures ClosedAs(Next(db, s).db, id, d)
  {
    if s.DoResolveDispute? && s.id == id {
      ClosedIsRefused(db, id, d, s.user, s.how, s.refundOk, s.cashOutOk);
      hide ResolveDispute;
    } else {
      hide Next;
      NextKeepsDispute(db, s, id);
    }
  }

  lemma {:induction false} ClosedRun(db: Db, steps: seq<Step>, id: OrderId, d: DisputeStatus)
    requires ClosedAs(db, id, d)
    ensures ClosedAs(Run(db, steps), id, d)
  {
    hide Next, ClosedAs;
    if steps != [] {
      ClosedRun(db, steps[..|steps| - 1], id, d);
      ClosedStep(Run(db, steps[..|steps| - 1]), steps[|steps| - 1], id, d);
    }
  }

  lemma RefundSettles(db: Db, id: OrderId, admin: UserId, refundOk: bool, cashOutOk: bool)
    requires Inv(db) && ResolveDispute(db, id, admin, RefundBuyer, refundOk, cashOutOk).reply.Ok?
    ensures var r := ResolveDispute(db, id, admin, RefundBuyer, refundOk, cashOutOk).db;
            ClosedAs(r, id, Resolved) && r.orders[id].status == Orders.Refunded
  {
    hide RefundWhole, Inv;
    RefundEnds(db, id, Some(admin), refundOk);
    RefundWholeKeeps(db, id, Some(admin), refundOk);
    assert id in RefundWhole(db, id, Some(admin), refundOk).db.orders;
  }

  lemma ReleaseSettles(db: Db, id: OrderId, cashOutOk: bool, d: DisputeStatus)
    requires Inv(db) && id in db.orders && ReleaseOrder(db, id, true, cashOutOk).reply.Ok? && IsResolved(d)
    ensures var r := ReleaseOrder(db, id, true, cashOutOk).db;
            && id in r.orders
            && var closed := Finalize(r, id, d);
            closed.reply.Ok? && ClosedAs(closed.db, id, d) && Released(BookOf(closed.db.ledger, id))
  {
    hide ReleaseOrder, Inv, Released;
    ReleasesIff(db, id, true, cashOutOk);
    ReleaseOrderKeeps(db, id, true, cashOutOk);
    var r := ReleaseOrder(db, id, true, cashOutOk).db;
    assert id in r.orders by { GrowsHas(db, r, id); }
    assert r.ledger + [] == r.ledger;
  }

  lemma SplitSettles(db: Db, id: OrderId, admin: UserId, how: Resolution, refundOk: bool, cashOutOk: bool)
    requires Inv(db) && !how.RefundBuyer?
    ensures var r := ResolveDispute(db, id, admin, how, refundOk, cashOutOk);
            r.reply.Ok? ==> ClosedAs(r.db, id, Outcome(how)) && Released(BookOf(r.db.ledger, id))
  {
    hide ReleaseOrder, RefundPart, CompleteDisputed, Finalize, Released, ClosedAs, Inv;
    if ResolveDispute(db, id, admin, how, refundOk, cashOutOk).reply.Err? {
      return;
    }
    CompleteDisputedKeeps(db, id);
    var a := CompleteDisputed(db, id);
    assert id in a.orders by { GrowsHas(db, a, id); }
    if how.SplitBetween? {
      RefundPartKeeps(a, id, how.amount, refundOk);
      var b := RefundPart(a, id, how.amount, refundOk).db;
      assert id in b.orders by { GrowsHas(a, b, id); }
      ReleaseSettles(b, id, cashOutOk, Resolved);
    } else {
      ReleaseSettles(a, id, cashOutOk, Rejected);
    }
  }

  /** A successful resolution has refunded or released the order and closes the dispute with its outcome: over any run the
      outcome stays, and no second resolution is admitted. */
  lemma ResolutionIsFinal(db: Db, id: OrderId, admin: UserId, how: Resolution, refundOk: bool, cashOutOk: bool,
      steps: seq<Step>)
    requires IsReachable(db) && ResolveDispute(db, id, admin, how, refundOk, cashOutOk).reply.Ok?
    ensures var r := ResolveDispute(db, id, admin, how, refundOk, cashOutOk).db;
            && id in r.orders
            && (if how.RefundBuyer? then r.orders[id].status == Orders.Refunded else Released(BookOf(r.ledger, id)))
            && ClosedAs(Run(r, steps), id, Outcome(how))
            && forall admin2, how2, ok, ok2 :: ResolveDispute(Run(r, steps), id, admin2, how2, ok, ok2) ==
                 Response(Run(r, steps), Err(BadRequest))
  {
    hide Inv, IsReachable, ResolveDispute, Released, Run;
    ReachableInv(db);
    if how.RefundBuyer? {
      RefundSettles(db, id, admin, refundOk, cashOutOk);
    } else {
      SplitSettles(db, id, admin, how, refundOk, cashOutOk);
    }
    var r := ResolveDispute(db, id, admin, how, refundOk, cashOutOk).db;
    ClosedRun(r, steps, id, Outcome(how));
    forall admin2, how2, ok, ok2
      ensures ResolveDispute(Run(r, steps), id, admin2, how2, ok, ok2) == Response(Run(r, steps), Err(BadRequest))
    {
      ClosedIsRefused(Run(r, steps), id, Outcome(how), admin2, how2, ok, ok2);
    }
  }
}
