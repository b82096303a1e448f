/** Pix charges of an order over every run: one at a time, and none once the order is paid. */
module Charges {
  import opened Wrappers
  import opened Ledger
  import opened Orders
  import opened Settlement
  import opened Market
  import opened OrderInvariant
  import opened MarketInvariant
  import opened Theorems
  import opened LifeCycle
  import opened ReleaseConditions
  import opened Balances
  import opened Deeds
  import opened DeedsProofs
  import opened Tables

  predicate NonePending(o: Order) { forall i :: 0 <= i < |o.payments| ==> o.payments[i].status != Pending }

  predicate AtMostOnePending(o: Order) {
    forall i, j :: 0 <= i < j < |o.payments| ==> o.payments[i].status != Pending || o.payments[j].status != Pending
  }

  /** An unpaid order has at most a pending charge; an order that was paid and not refunded has none pending. */
  predicate ChargesInOrder(o: Order) {
    && AtMostOnePending(o)
    && (Unpaid(o) ==> o.payments == [] || (|o.payments| == 1 && o.payments[0].status == Pending))
    && (o.status in {InDelivery, Delivered, Completed, Disputed} ==> NonePending(o))
  }

  /** What the table asks of an order before each deed. */
  predicate Fits(o: Order, d: Deed) {
    match d
    case Charging => Unpaid(o) && !HasPendingCharge(o)
    case Cancelling => Unpaid(o)
    case Confirming(n) => n < |o.payments| && (Unpaid(o) || o.status == InDelivery)
    case ToppingUp(n) => n < |o.payments| && (Unpaid(o) || o.status == InDelivery)
    case PayingByWallet => Unpaid(o)
    case Delivering => o.status == InDelivery
    case Completing => o.status == Delivered
    case Disputing => o.status in {Delivered, Completed}
    case Settling => o.status in {Disputed, Completed}
    case _ => true
  }

  predicate AllFit(o: Order, ds: seq<Deed>)
    decreases |ds|
  {
    ds == [] || (Fits(o, ds[0]) && AllFit(Written(o, ds[0]), ds[1..]))
  }

  lemma WrittenInOrder(o: Order, d: Deed)
    requires ChargesInOrder(o) && Fits(o, d)
    ensures ChargesInOrder(Written(o, d))
  {
  }

  lemma {:induction false} AfterInOrder(o: Order, ds: seq<Deed>)
    requires ChargesInOrder(o) && AllFit(o, ds)
    ensures ChargesInOrder(After(o, ds))
    decreases |ds|
  {
    hide ChargesInOrder, Fits, Written;
    if ds != [] {
      WrittenInOrder(o, ds[0]);
      AfterInOrder(Written(o, ds[0]), ds[1..]);
    }
  }

  predicate FitsAlways(d: Deed) {
    d.GivingEvidence? || d.Releasing? || d.Refunding? || d.RefundingPart? || d.Closing?
  }

  lemma {:induction false} TailFits(o: Order, ds: seq<Deed>)
    requires forall d :: d in ds ==> FitsAlways(d)
    ensures AllFit(o, ds)
    decreases |ds|
  {
    hide Written;
    if ds != [] {
      assert ds[0] in ds;
      TailFits(Written(o, ds[0]), ds[1..]);
    }
  }

  lemma HeadFits(o: Order, d: Deed, ds: seq<Deed>)
    requires Fits(o, d) && forall e :: e in ds ==> FitsAlways(e)
    ensures AllFit(o, [d] + ds)
  {
    hide Fits, Written, FitsAlways;
    TailFits(Written(o, d), ds);
    var all := [d] + ds;
    assert all != [] && all[0] == d && all[1..] == ds;
  }

  lemma PaidThenDelivered(o: Order, d: Deed, b: bool)
    requires Fits(o, d) && (b ==> Written(o, d).status == InDelivery)
    ensures AllFit(o, [d] + Only(b, Delivering))
  {
    hide Written;
    TailFits(Written(o, d), []);
    if b {
      var p := Written(o, d);
      TailFits(Written(p, Delivering), []);
      var rest: seq<Deed> := [Delivering];
      assert |rest[1..]| == 0 && AllFit(p, rest);
      assert ([d] + rest)[1..] == rest;
    } else {
      var none: seq<Deed> := [];
      assert ([d] + none)[1..] == none;
    }
  }

  lemma ResolveFits(db: Db, id: OrderId, admin: UserId, how: Resolution, refundOk: bool, cashOutOk: bool)
    requires Inv(db) && id in db.orders
    ensures AllFit(db.orders[id], ResolveDeeds(db, id, admin, how, refundOk, cashOutOk))
  {
    hide Inv, OrderInv, Fits, AllFit, CanRelease, CanRefund, CanRefundPart, HeldBalance, IsActive;
    var o, ds := db.orders[id], ResolveDeeds(db, id, admin, how, refundOk, cashOutOk);
    if how.RefundBuyer? || ds == [] {
      TailFits(o, ds);
    } else {
      OrderHolds(db, id);
      DisputedStatus(id, o, BookOf(db.ledger, id));
      SettlingFits(o);
      HeadFits(o, Settling, ds[1..]);
      assert ds == [Settling] + ds[1..];
    }
  }

  lemma SettlingFits(o: Order)
    requires o.status in {Disputed, Completed}
    ensures Fits(o, Settling)
  {
  }

  lemma ConfirmFits(o: Order, n: nat, stocked: bool)
    requires n < |o.payments| && (Unpaid(o) || o.status == InDelivery)
    ensures AllFit(o, ConfirmDeeds(o, n, stocked))
  {
    hide AllFit;
    ConfirmedStatus(o, Confirming(n), n);
    if o.seller.None? && !o.payments[n].paid {
      HeadFits(o, ToppingUp(n), []);
      var none: seq<Deed> := [];
      assert [ToppingUp(n)] + none == [ToppingUp(n)];
    } else {
      PaidThenDelivered(o, Confirming(n), Unpaid(o) && DeliversAtOnce(o, stocked));
    }
  }

  lemma DeedsFit(db: Db, s: Step, id: OrderId)
    requires Inv(db) && id in db.orders
    ensures AllFit(db.orders[id], DeedsOf(db, s, id))
  {
    hide Inv, AllFit, Written, CanRelease, CanRefund, HeldBalance, ResolveDeeds, ConfirmDeeds, PaysFromWallet, IsActive;
    var o, ds := db.orders[id], DeedsOf(db, s, id);
    match s
    case DoProcessWebhook(event, stocked) =>
      if Confirms(db, event, id) { ConfirmFits(o, db.webhooks[event].txid.value.n, stocked); } else { TailFits(o, []); }
    case DoPayWithBalance(_, user, stocked) =>
      if ds == [] {
        TailFits(o, []);
      } else {
        PaysUnpaid(db, id, user);
        PaidStatus(o);
        PaidThenDelivered(o, PayingByWallet, DeliversAtOnce(o, stocked));
      }
    case DoResolveDispute(on, admin, how, refundOk, cashOutOk) =>
      if on == id { ResolveFits(db, id, admin, how, refundOk, cashOutOk); } else { TailFits(o, []); }
    case _ =>
      SingleFits(db, s, id);
      FewFit(o, ds);
  }

  lemma FewFit(o: Order, ds: seq<Deed>)
    requires |ds| <= 1 && forall d :: d in ds ==> Fits(o, d)
    ensures AllFit(o, ds)
  {
    hide Fits, Written;
    if ds != [] {
      assert ds[0] in ds;
      TailFits(Written(o, ds[0]), ds[1..]);
    }
  }

  lemma SingleFits(db: Db, s: Step, id: OrderId)
    requires id in db.orders && !s.DoProcessWebhook? && !s.DoPayWithBalance? && !s.DoResolveDispute?
    ensures var ds := DeedsOf(db, s, id); |ds| <= 1 && forall d :: d in ds ==> Fits(db.orders[id], d)
  {
    hide CanRelease, CanRefund, HeldBalance, IsActive;
  }

  lemma PaysUnpaid(db: Db, id: OrderId, user: UserId)
    requires PaysFromWallet(db, id, user)
    ensures Unpaid(db.orders[id])
  {
  }

  lemma CreatedInOrder(db: Db, s: Step, id: OrderId)
    requires IsReachable(db) && id !in db.orders && id in Next(db, s).db.orders
    ensures ChargesInOrder(Next(db, s).db.orders[id])
  {
    if s.DoCreateOrder? && s.id == id {
      CreatedByTerms(db, id, s.buyer, s.checkout, s.expiresAt, 0);
    } else if s.DoTopUp? && s.id == id {
      ToppedUpByTerms(db, id, s.user, s.cents, s.expiresAt, s.providerOk);
    } else {
      OnlyTheseCreate(db, s);
    }
  }

  lemma {:induction false} ChargesOverRuns(steps: seq<Step>, id: OrderId)
    requires id in Run(Empty(), steps).orders
    ensures ChargesInOrder(Run(Empty(), steps).orders[id])
  {
    hide Next, ChargesInOrder, After, DeedsOf, Inv;
    if steps != [] {
      var init, last := steps[..|steps| - 1], steps[|steps| - 1];
      var db := Run(Empty(), init);
      assert IsReachable(db);
      if id in db.orders {
        ChargesOverRuns(init, id);
        ReachableInv(db);
        DeedsFit(db, last, id);
        AfterInOrder(db.orders[id], DeedsOf(db, last, id));
        CallsDoTheirDeeds(db, last);
      } else {
        CreatedInOrder(db, last, id);
      }
    }
  }

  /** In every reachable state an order has at most one pending charge, and none once it has been paid. */
  lemma OneChargeAtATime(db: Db, id: OrderId)
    requires IsReachable(db) && id in db.orders
    ensures AtMostOnePending(db.orders[id])
    ensures db.orders[id].status in {InDelivery, Delivered, Completed, Disputed} ==> NonePending(db.orders[id])
    ensures Unpaid(db.orders[id]) ==> |db.orders[id].payments| <= 1
  {
    var steps :| db == Run(Empty(), steps);
    ChargesOverRuns(steps, id);
  }

  /** No charge is pending any more, no other payment has changed, and the wallet's payment has come in addition. */
  predicate ChargesEnded(o: Order, p: Order) {
    var before, after := o.payments, p.payments;
    && |after| == |before| + 1 && NonePending(p)
    && after[|before|] == Payment(Wallet, PaymentStatus.Confirmed, o.total, true)
    && forall i :: 0 <= i < |before| ==>
         && after[i].amount == before[i].amount && after[i].paid == before[i].paid
         && after[i].provider == before[i].provider
         && (before[i].status == Pending ==> after[i].status == Expired)
         && (before[i].status != Pending ==> after[i] == before[i])
  }

  /** A wallet payment ends the pending charges, whether or not the stock that is then asked for is there. */
  lemma WalletPaymentEndsCharges(db: Db, id: OrderId, user: UserId, stocked: bool)
    requires IsReachable(db) && PaysFromWallet(db, id, user)
    ensures var later := PayWithBalance(db, id, user, stocked).db;
            id in later.orders && ChargesEnded(db.orders[id], later.orders[id])
  {
    var s, o := DoPayWithBalance(id, user, stocked), db.orders[id];
    WalletDeeds(db, id, user, stocked);
    hide PaysFromWallet, PayWithBalance, IsReachable, NewRows, DeedsOf, After, ChargesEnded;
    assert PayWithBalance(db, id, user, stocked) == Next(db, s);
    hide Next;
    CallsDoTheirDeeds(db, s);
    PaidPayments(o, DeliversAtOnce(o, stocked));
    EndedByPayments(o, PayWithBalance(db, id, user, stocked).db.orders[id]);
  }

  lemma EndedByPayments(o: Order, p: Order)
    requires p.payments == WalletPayments(o.payments, o.total)
    ensures ChargesEnded(o, p)
  {
  }

  lemma WalletDeeds(db: Db, id: OrderId, user: UserId, stocked: bool)
    requires PaysFromWallet(db, id, user)
    ensures DeedsOf(db, DoPayWithBalance(id, user, stocked), id) ==
              [PayingByWallet] + Only(DeliversAtOnce(db.orders[id], stocked), Delivering)
  {
  }

  lemma PaidPayments(o: Order, delivers: bool)
    ensures After(o, [PayingByWallet] + Only(delivers, Delivering)).payments == WalletPayments(o.payments, o.total)
  {
    MoreDeeds(0, o, [PayingByWallet], Only(delivers, Delivering));
    OneDeed(0, o, PayingByWallet);
    OneDeed(0, After(o, [PayingByWallet]), Delivering);
    NothingWritten(After(o, [PayingByWallet]));
    hide After, WalletPayments;
  }
}
