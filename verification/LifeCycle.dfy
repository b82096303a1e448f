/** Which call may move an order from which status to which, and on whose behalf. */
module LifeCycle {
  import opened Wrappers
  import opened Ledger
  import opened Orders
  import opened Settlement
  import opened Market
  import opened MarketInvariant
  import opened Theorems

  /** The table of legal moves of an order that is still as `o`. */
  predicate MayMove(s: Step, o: Order, to: Status) {
    match s
    case DoCancelOrder(_, user) => user == o.buyer && IsPayable(o.status) && to == Cancelled
    case DoExpireOrder(_, now) => IsPayable(o.status) && o.expiresAt.Some? && o.expiresAt.value <= now && to == Cancelled
    case DoProcessWebhook(_, stocked) => MayBePaid(o, stocked, to)
    case DoPayWithBalance(_, user, stocked) => user == o.buyer && o.seller.Some? && MayBePaid(o, stocked, to)
    case DoMarkOrderDelivered(_, user, admin) =>
      o.status == InDelivery && o.delivery == Some(Manual) && (admin || o.seller == Some(user)) && to == Delivered
    case DoConfirmOrderReceipt(_, user) => user == o.buyer && o.status == Delivered && to == Completed
    case DoAutoCompleteOrder(_) => o.status == Delivered && o.dispute.None? && to == Completed
    case DoOpenOrderDispute(_, user) =>
      user == o.buyer && o.status in {Delivered, Completed} && o.dispute.None? && to == Disputed
    case DoRefundOrder(_, actor, _) => actor != Some(o.buyer) && o.payments != [] && to == Orders.Refunded
    case DoResolveDispute(_, _, how, _, _) =>
      o.dispute in {Some(Open), Some(Review)} && o.status != Orders.Refunded
      && (if how.RefundBuyer? then to == Orders.Refunded else o.status != Cancelled && to == Completed)
    case _ => false
  }

  /** A paid order goes into delivery, an automatic one in stock through it; a top-up is done. */
  predicate MayBePaid(o: Order, stocked: bool, to: Status) {
    if o.seller.None? then (IsPayable(o.status) || o.status in {Paid, InDelivery}) && to in {InDelivery, Delivered, Completed}
    else IsPayable(o.status) && to == if o.delivery == Some(Manual) || (o.delivery == Some(Auto) && !stocked)
                                      then InDelivery else Delivered
  }

  /** The one order a step may touch. */
  function OrderOf(db: Db, s: Step): Option<OrderId> {
    match s
    case DoProcessWebhook(event, _) =>
      if event in db.webhooks && db.webhooks[event].txid.Some? then Some(db.webhooks[event].txid.value.order) else None
    case DoRegisterWebhook(_, _, _) => None
    case DoUserPayout(_, _, _, _, _) => None
    case DoPlatformPayout(_, _) => None
    case DoAdjustBalance(_, _) => None
    case DoSetUser(_, _) => None
    case DoSetPartner(_, _) => None
    case DoSetSettings(_) => None
    case _ => Some(s.id)
  }

  ghost predicate OnlyTouches(db: Db, later: Db, on: Option<OrderId>) {
    forall id :: id in db.orders && on != Some(id) ==> id in later.orders && later.orders[id] == db.orders[id]
  }

  /** The order is still there, and its status is unchanged or moved as the step may move it. */
  ghost predicate Moves(db: Db, later: Db, id: OrderId, s: Step) {
    id in db.orders ==>
      && id in later.orders
      && (later.orders[id].status == db.orders[id].status || MayMove(s, db.orders[id], later.orders[id].status))
  }

  // ----- the parts -----

  lemma FollowUpMoves(db: Db, id: OrderId, applied: bool, stocked: bool)
    requires id in db.orders
    ensures var later := FollowUp(db, id, applied, stocked).db;
            && OnlyTouches(db, later, Some(id)) && id in later.orders
            && later.orders[id].status ==
                 if applied && db.orders[id].status == InDelivery && db.orders[id].delivery != Some(Manual)
                   && !(db.orders[id].delivery == Some(Auto) && !stocked)
                 then Delivered else db.orders[id].status
  {
  }

  lemma ConfirmMoves(o: Order, book: seq<Entry>, t: Txid)
    requires t.n < |o.payments| && ConfirmByWebhook(o, book, t).Posting?
    ensures var p := ConfirmByWebhook(o, book, t).order;
            && p.delivery == o.delivery && p.seller == o.seller && ApplyPayment(o).Confirmation?
            && (o.seller.Some? ==> p.status == ApplyPayment(o).order.status)
            && (o.seller.None? ==> p.status in {ApplyPayment(o).order.status, Completed})
  {
    hide HasTopup, HasHeldCredit;
  }

  lemma WebhookMoves(db: Db, event: EventId, stocked: bool)
    requires forall o :: o in db.orders.Values ==> o.status != Paid
    ensures var s := DoProcessWebhook(event, stocked);
            var later := ProcessWebhook(db, event, stocked).db;
            OnlyTouches(db, later, OrderOf(db, s)) && (OrderOf(db, s).Some? ==> Moves(db, later, OrderOf(db, s).value, s))
  {
    hide ConfirmByWebhook, FollowUp;
    if event in db.webhooks && db.webhooks[event].txid.Some? && Issued(db, db.webhooks[event].txid.value) {
      var t := db.webhooks[event].txid.value;
      var o, book := db.orders[t.order], BookOf(db.ledger, t.order);
      assert o in db.orders.Values;
      var p := ConfirmByWebhook(o, book, t);
      if p.Posting? {
        ConfirmMoves(o, book, t);
        var seen := db.(webhooks := db.webhooks[event := db.webhooks[event].(processed := true)]);
        FollowUpMoves(WithOrder(seen, t.order, p.order, p.entries), t.order, ApplyPayment(o).applied, stocked);
      }
    }
  }

  lemma WalletMoves(db: Db, id: OrderId, user: UserId, stocked: bool)
    ensures var later := PayWithBalance(db, id, user, stocked).db;
            OnlyTouches(db, later, Some(id)) && Moves(db, later, id, DoPayWithBalance(id, user, stocked))
  {
    hide FollowUp, HoldPayment;
    if id in db.orders && db.orders[id].seller.Some? {
      var o := db.orders[id];
      var p := WalletPosting(id, o, o.seller.value, BookOf(db.ledger, id));
      if p.Posting? {
        FollowUpMoves(WithOrder(db, id, p.order, p.entries), id, true, stocked);
      }
    }
  }

  lemma ReleaseMoves(db: Db, id: OrderId, ignoreDispute: bool, providerOk: bool)
    ensures var later := ReleaseOrder(db, id, ignoreDispute, providerOk).db;
            && OnlyTouches(db, later, Some(id))
            && (id in db.orders ==> id in later.orders && later.orders[id].status == db.orders[id].status)
  {
    hide ReleaseEntries, FeeAmount, PayoutAmount, ReadRelease, HasCommission;
  }

  lemma RefundMoves(db: Db, id: OrderId, actor: Option<UserId>, providerOk: bool)
    ensures var later := RefundWhole(db, id, actor, providerOk).db;
            && OnlyTouches(db, later, Some(id)) && Moves(db, later, id, DoRefundOrder(id, actor, providerOk))
  {
    hide RefundOrder;
    if id in db.orders {
      RefundOrderMoves(id, db.orders[id], BookOf(db.ledger, id), actor, providerOk);
    }
  }

  lemma RefundOrderMoves(id: OrderId, o: Order, book: seq<Entry>, actor: Option<UserId>, providerOk: bool)
    ensures var p := RefundOrder(id, o, book, actor, providerOk).0;
            p.Posting? ==> p.order.status == Orders.Refunded && actor != Some(o.buyer) && o.payments != []
  {
    hide HasCommission, Released;
  }

  lemma RefundPartMoves(db: Db, id: OrderId, amount: int, providerOk: bool)
    ensures var later := RefundPart(db, id, amount, providerOk).db;
            && OnlyTouches(db, later, Some(id))
            && (id in db.orders ==> id in later.orders && later.orders[id].status == db.orders[id].status)
  {
    hide HasCommission, Released;
  }

  lemma ResolveMoves(db: Db, id: OrderId, user: UserId, how: Resolution, refundOk: bool, cashOutOk: bool)
    ensures var later := ResolveDispute(db, id, user, how, refundOk, cashOutOk).db;
            && OnlyTouches(db, later, Some(id))
            && Moves(db, later, id, DoResolveDispute(id, user, how, refundOk, cashOutOk))
  {
    match how
    case RefundBuyer => ResolveByRefundMoves(db, id, user, refundOk, cashOutOk);
    case ReleaseSeller => ResolveByReleaseMoves(db, id, user, refundOk, cashOutOk);
    case SplitBetween(amount) => ResolveBySplitMoves(db, id, user, amount, refundOk, cashOutOk);
  }

  lemma ResolveByRefundMoves(db: Db, id: OrderId, user: UserId, refundOk: bool, cashOutOk: bool)
    ensures var later := ResolveDispute(db, id, user, RefundBuyer, refundOk, cashOutOk).db;
            && OnlyTouches(db, later, Some(id))
            && Moves(db, later, id, DoResolveDispute(id, user, RefundBuyer, refundOk, cashOutOk))
  {
    hide RefundWhole;
    RefundMoves(db, id, Some(user), refundOk);
  }

  /** Nothing but one order is touched, and it ends up in a status. */
  ghost predicate EndsIn(db: Db, later: Db, id: OrderId, status: Status) {
    OnlyTouches(db, later, Some(id)) && id in later.orders && later.orders[id].status == status
  }

  lemma EndsInLater(a: Db, b: Db, c: Db, id: OrderId, status: Status)
    requires EndsIn(a, b, id, status) && EndsIn(b, c, id, status)
    ensures EndsIn(a, c, id, status)
  {
  }

  lemma CompleteMoves(db: Db, id: OrderId)
    requires id in db.orders
    ensures EndsIn(db, CompleteDisputed(db, id), id, Completed)
  {
  }

  lemma ReleaseFinalizeMoves(db: Db, id: OrderId, cashOutOk: bool, d: DisputeStatus)
    requires id in db.orders
    ensures var r := ReleaseOrder(db, id, true, cashOutOk);
            && id in r.db.orders && EndsIn(db, r.db, id, db.orders[id].status)
            && EndsIn(db, Finalize(r.db, id, d).db, id, db.orders[id].status)
  {
    hide ReleaseOrder;
    ReleaseMoves(db, id, true, cashOutOk);
  }

  lemma ResolveByReleaseMoves(db: Db, id: OrderId, user: UserId, refundOk: bool, cashOutOk: bool)
    ensures var later := ResolveDispute(db, id, user, ReleaseSeller, refundOk, cashOutOk).db;
            && OnlyTouches(db, later, Some(id))
            && Moves(db, later, id, DoResolveDispute(id, user, ReleaseSeller, refundOk, cashOutOk))
  {
    hide ReleaseOrder, CompleteDisputed, Finalize;
    if id in db.orders {
      CompleteMoves(db, id);
      var a := CompleteDisputed(db, id);
      ReleaseFinalizeMoves(a, id, cashOutOk, Rejected);
      var r := ReleaseOrder(a, id, true, cashOutOk);
      EndsInLater(db, a, r.db, id, Completed);
      EndsInLater(db, a, Finalize(r.db, id, Rejected).db, id, Completed);
    }
  }

  lemma ResolveBySplitMoves(db: Db, id: OrderId, user: UserId, amount: int, refundOk: bool, cashOutOk: bool)
    ensures var later := ResolveDispute(db, id, user, SplitBetween(amount), refundOk, cashOutOk).db;
            && OnlyTouches(db, later, Some(id))
            && Moves(db, later, id, DoResolveDispute(id, user, SplitBetween(amount), refundOk, cashOutOk))
  {
    hide ReleaseOrder, RefundPart, CompleteDisputed, Finalize;
    if id in db.orders {
      CompleteMoves(db, id);
      var a := CompleteDisputed(db, id);
      RefundPartMoves(a, id, amount, refundOk);
      var b := RefundPart(a, id, amount, refundOk).db;
      EndsInLater(db, a, b, id, Completed);
      ReleaseFinalizeMoves(b, id, cashOutOk, Resolved);
      var r := ReleaseOrder(b, id, true, cashOutOk);
      EndsInLater(db, b, r.db, id, Completed);
      EndsInLater(db, b, Finalize(r.db, id, Resolved).db, id, Completed);
    }
  }

  lemma OrderCallMoves(db: Db, s: Step)
    requires IsOrderCall(s)
    ensures OnlyTouches(db, Next(db, s).db, Some(s.id)) && Moves(db, Next(db, s).db, s.id, s)
  {
    hide Next, MayMove, OrderAttempt;
    OrderCallSaves(db, s);
    if s.id in db.orders {
      if OrderAttempt(db.orders[s.id], s).Done? {
        AttemptMoves(db.orders[s.id], s);
      }
    }
  }

  lemma AttemptMoves(o: Order, s: Step)
    requires IsOrderCall(s) && OrderAttempt(o, s).Done?
    ensures var to := OrderAttempt(o, s).order.status; to == o.status || MayMove(s, o, to)
  {
  }

  lemma NewRowsMove(db: Db, s: Step)
    requires s.DoCreateOrder? || s.DoTopUp? || s.DoCreatePixCharge?
    ensures OnlyTouches(db, Next(db, s).db, Some(s.id))
    ensures s.id in db.orders ==>
              s.id in Next(db, s).db.orders && Next(db, s).db.orders[s.id].status == db.orders[s.id].status
  {
    hide NewOrder;
  }

  /** Whatever call is made, no order but its own changes, and its own moves only as the table allows. */
  lemma OnlyLegalMoves(db: Db, s: Step, id: OrderId)
    requires id in db.orders && forall o :: o in db.orders.Values ==> o.status != Paid
    ensures id in Next(db, s).db.orders
    ensures var o, p := db.orders[id], Next(db, s).db.orders[id];
            if OrderOf(db, s) == Some(id) then p.status == o.status || MayMove(s, o, p.status) else p == o
  {
    if IsOrderCall(s) {
      OrderCallMoves(db, s);
      return;
    }
    hide MayMove, ReleaseOrder, RefundWhole, ResolveDispute, ProcessWebhook, PayWithBalance, CreateOrder, TopUp,
      CreatePixCharge, UserPayout, PlatformPayout, AdjustBalance;
    match s
    case DoCreateOrder(_, _, _, _) => NewRowsMove(db, s);
    case DoTopUp(_, _, _, _, _) => NewRowsMove(db, s);
    case DoCreatePixCharge(_, _, _) => NewRowsMove(db, s);
    case DoProcessWebhook(event, stocked) => WebhookMoves(db, event, stocked);
    case DoPayWithBalance(on, user, stocked) => WalletMoves(db, on, user, stocked);
    case DoReleaseOrder(on, providerOk) => ReleaseMoves(db, on, false, providerOk);
    case DoRefundOrder(on, actor, providerOk) => RefundMoves(db, on, actor, providerOk);
    case DoResolveDispute(on, user, how, refundOk, cashOutOk) => ResolveMoves(db, on, user, how, refundOk, cashOutOk);
    case _ => MoneyMoves(db, s);
  }

  /** So in every reachable state, since there no order is ever seen as paid only. */
  lemma ReachableMovesAreLegal(db: Db, s: Step, id: OrderId)
    requires IsReachable(db) && id in db.orders
    ensures id in Next(db, s).db.orders
    ensures var o, p := db.orders[id], Next(db, s).db.orders[id];
            if OrderOf(db, s) == Some(id) then p.status == o.status || MayMove(s, o, p.status) else p == o
  {
    hide Next, MayMove;
    forall o | o in db.orders.Values ensures o.status != Paid {
      var k :| k in db.orders && db.orders[k] == o;
      LifeCycleIsBounded(db, k);
    }
    OnlyLegalMoves(db, s, id);
  }

  /** A paid automatic order that found no stock is never delivered, cancelled or disputed: over any run it stays in
      delivery until it is refunded. */
  lemma {:induction false} StuckWithoutStock(db: Db, steps: seq<Step>, id: OrderId)
    requires IsReachable(db) && IsSellerOrder(db, id)
    requires db.orders[id].status == InDelivery && db.orders[id].delivery == Some(Auto)
    ensures id in Run(db, steps).orders && Run(db, steps).orders[id].status in {InDelivery, Orders.Refunded}
    ensures Run(db, steps).orders[id].delivery == Some(Auto) && IsSellerOrder(Run(db, steps), id)
  {
    hide Next, IsReachable, MayMove, Inv;
    if steps != [] {
      var init, last := steps[..|steps| - 1], steps[|steps| - 1];
      StuckWithoutStock(db, init, id);
      ReachableLater(db, init);
      StuckStep(Run(db, init), last, id);
    }
  }

  lemma StuckStep(db: Db, s: Step, id: OrderId)
    requires IsReachable(db) && IsSellerOrder(db, id)
    requires db.orders[id].status in {InDelivery, Orders.Refunded} && db.orders[id].delivery == Some(Auto)
    ensures var next := Next(db, s).db;
            && IsSellerOrder(next, id) && next.orders[id].status in {InDelivery, Orders.Refunded}
            && next.orders[id].delivery == Some(Auto)
  {
    hide Next, IsReachable, Inv;
    ReachableInv(db);
    DeliveryKept(db, s, id);
    if db.orders[id].status == InDelivery {
      NotDisputable(db, id);
    }
    ReachableMovesAreLegal(db, s, id);
  }

  lemma DeliveryKept(db: Db, s: Step, id: OrderId)
    requires Inv(db) && id in db.orders
    ensures var next := Next(db, s).db;
            && id in next.orders && next.orders[id].delivery == db.orders[id].delivery
            && next.orders[id].seller == db.orders[id].seller
  {
    hide Next, Inv;
    NextKeeps(db, s);
  }

  lemma NotDisputable(db: Db, id: OrderId)
    requires Inv(db) && id in db.orders && db.orders[id].status == InDelivery
    ensures db.orders[id].dispute.None?
  {
    hide Inv;
    OrderHolds(db, id);
    if db.orders[id].dispute.Some? {
      DisputedStatus(id, db.orders[id], BookOf(db.ledger, id));
    }
  }

  lemma MoneyMoves(db: Db, s: Step)
    requires s.DoRegisterWebhook? || s.DoUserPayout? || s.DoPlatformPayout? || s.DoAdjustBalance?
      || s.DoSetUser? || s.DoSetPartner? || s.DoSetSettings?
    ensures Next(db, s).db.orders == db.orders
  {
  }

  /** The status a user's own call asks for. */
  function Target(s: Step): Option<Status> {
    match s
    case DoCancelOrder(_, _) => Some(Cancelled)
    case DoMarkOrderDelivered(_, _, _) => Some(Delivered)
    case DoConfirmOrderReceipt(_, _) => Some(Completed)
    case DoOpenOrderDispute(_, _) => Some(Disputed)
    case _ => None
  }

  /** These calls succeed exactly when the table allows the move, and then make it. */
  lemma UserCallSucceedsIff(db: Db, s: Step)
    requires Target(s).Some?
    ensures Next(db, s).reply.Ok? <==> s.id in db.orders && MayMove(s, db.orders[s.id], Target(s).value)
    ensures Next(db, s).reply.Ok? ==> Next(db, s).db.orders[s.id].status == Target(s).value
    ensures Next(db, s).reply.Err? ==> Next(db, s).db == db
  {
  }
}
