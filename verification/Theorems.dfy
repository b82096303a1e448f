/** What holds of the marketplace over every run. */
module Theorems {
  import opened Wrappers
  import opened Ledger
  import opened Orders
  import opened Settlement
  import opened Market
  import opened OrderInvariant
  import opened OrderPostings
  import opened Evolution
  import opened MarketInvariant
  import A = Attribution

  /** A database that some run of service calls reaches. */
  ghost predicate IsReachable(db: Db) { exists steps :: db == Run(Empty(), steps) }

  lemma ReachableInv(db: Db)
    requires IsReachable(db)
    ensures Inv(db)
  {
    var steps :| db == Run(Empty(), steps);
    Reachable(steps);
  }

  lemma {:induction false} RunConcat(db: Db, a: seq<Step>, b: seq<Step>)
    ensures Run(db, a + b) == Run(Run(db, a), b)
  {
    if b == [] {
      assert a + b == a;
    } else {
      assert (a + b)[..|a + b| - 1] == a + b[..|b| - 1];
      RunConcat(db, a, b[..|b| - 1]);
    }
  }

  lemma ReachableLater(db: Db, more: seq<Step>)
    requires IsReachable(db)
    ensures IsReachable(Run(db, more))
  {
    var steps :| db == Run(Empty(), steps);
    RunConcat(Empty(), steps, more);
  }

  ghost predicate IsSellerOrder(db: Db, id: OrderId) { id in db.orders && db.orders[id].seller.Some? }

  // ----- the order book -----

  lemma {:induction false} OwnedSum(id: OrderId, o: Order, seller: UserId, book: seq<Entry>)
    requires RowsInv(id, o, seller, book)
    ensures Sum(book, OwnedWeight(seller)) == Sum(book, SellerSideWeight)
              + (if o.buyer == seller then Sum(book, BuyerSideWeight) else 0)
  {
    if book != [] {
      assert RowInv(id, o, seller, book[|book| - 1]);
      OwnedSum(id, o, seller, book[..|book| - 1]);
    }
  }

  /** The seller's rows of an order add up to what was ever confirmed, less fees and payouts. A buyer who buys from
      himself owns the wallet rows of the order as well. */
  lemma OrderBookIdentity(db: Db, id: OrderId)
    requires IsReachable(db) && IsSellerOrder(db, id)
    ensures var o, book := db.orders[id], BookOf(db.ledger, id);
            Sum(book, OwnedWeight(o.seller.value)) ==
              PaidTotal(o.payments) - Sum(book, FeeWeight) - Sum(book, PayoutWeight)
              + (if o.buyer == o.seller.value then Sum(book, BuyerSideWeight) else 0)
  {
    ReachableInv(db);
    OwnedSum(id, db.orders[id], db.orders[id].seller.value, BookOf(db.ledger, id));
  }

  // ----- escrow -----

  function HeldBalance(db: Db, id: OrderId): int { Sum(BookOf(db.ledger, id), HeldWeight) }

  /** Held money is never negative while the order is not refunded. */
  lemma HeldNeverNegative(db: Db, id: OrderId)
    requires IsReachable(db) && IsSellerOrder(db, id) && db.orders[id].status != Orders.Refunded
    ensures 0 <= HeldBalance(db, id)
  {
    ReachableInv(db);
  }

  /** From the release on the held balance is zero, and every later row of the order is a chargeback row. */
  lemma EscrowCloses(db: Db, id: OrderId, more: seq<Step>)
    requires IsReachable(db) && IsSellerOrder(db, id) && Released(BookOf(db.ledger, id))
    ensures var later := Run(db, more);
            && IsSellerOrder(later, id) && HeldBalance(later, id) == 0
            && BookOf(db.ledger, id) <= BookOf(later.ledger, id)
            && (forall e :: e in BookOf(later.ledger, id)[|BookOf(db.ledger, id)|..] ==> IsChargebackRow(e))
            && Sum(BookOf(later.ledger, id), ReleaseCount) == 1
  {
    ReachableInv(db);
    ReachableLater(db, more);
    ReachableInv(Run(db, more));
    RunKeeps(db, more);
    var b, c := BookOf(db.ledger, id), BookOf(Run(db, more).ledger, id);
    var r :| r in b && IsRelease(r);
    assert r in c;
  }

  /** A full refund takes the latest payment out of escrow whatever is left there: it overdraws exactly when less is held. */
  lemma FullRefundOverdrawsIff(db: Db, id: OrderId, actor: Option<UserId>, providerOk: bool)
    requires IsReachable(db) && IsSellerOrder(db, id) && !Released(BookOf(db.ledger, id))
    requires RefundWhole(db, id, actor, providerOk).reply.Ok?
    requires db.orders[id].status != Orders.Refunded
    ensures HeldBalance(RefundWhole(db, id, actor, providerOk).db, id) < 0
       <==> HeldBalance(db, id) < db.orders[id].payments[|db.orders[id].payments| - 1].amount
  {
    hide OrderInv, RefundWhole, FullRefund;
    var o, book := db.orders[id], BookOf(db.ledger, id);
    ReachableInv(db);
    OrderHolds(db, id);
    hide Inv, IsReachable;
    RefundBooks(db, id, actor, providerOk);
    FullRefundTally(id, o, book);
    OtherBooks(db.ledger, FullRefund(id, o).entries, id);
  }

  lemma RefundBooks(db: Db, id: OrderId, actor: Option<UserId>, providerOk: bool)
    requires Inv(db) && id in db.orders && !Released(BookOf(db.ledger, id)) && db.orders[id].status != Orders.Refunded
    requires RefundWhole(db, id, actor, providerOk).reply.Ok?
    ensures db.orders[id].payments != [] && FullRefund(id, db.orders[id]).Posting?
    ensures RefundWhole(db, id, actor, providerOk).db.ledger == db.ledger + FullRefund(id, db.orders[id]).entries
    ensures forall e :: e in FullRefund(id, db.orders[id]).entries ==> e.order == Some(id)
  {
    hide OrderInv, Inv, Released, ReverseCommission, Transition;
    assert !LatestIsRefunded(db.orders[id]) by {
      OrderHolds(db, id);
      LatestNotRefunded(id, db.orders[id], BookOf(db.ledger, id));
    }
  }

  predicate LatestIsRefunded(o: Order) { o.payments != [] && o.payments[|o.payments| - 1].status.PaymentRefunded? }

  /** It can happen: a charge the provider has reported as paid can be refunded before the job that confirms it. */
  lemma RefundOfUnpaidOrderOverdraws() returns (db: Db)
    ensures IsReachable(db) && IsSellerOrder(db, 1) && db.orders[1].status == Orders.Refunded && HeldBalance(db, 1) < 0
  {
    hide OrderInv, RefundWhole, IsReachable, Inv, HeldBalance;
    var charged := ChargedOrder(Manual);
    db := Next(charged, DoRefundOrder(1, None, true)).db;
    ReachableNext(charged, DoRefundOrder(1, None, true));
    FullRefundOverdrawsIff(charged, 1, None, true);
    ReachableInv(charged);
    RefundEnds(charged, 1, None, true);
    RefundWholeKeeps(charged, 1, None, true);
    hide Evolves;
  }

  lemma ReachableNext(db: Db, s: Step)
    requires IsReachable(db)
    ensures IsReachable(Next(db, s).db)
  {
    assert Run(db, [s]) == Next(db, s).db by { assert [s][..0] == []; }
    ReachableLater(db, [s]);
  }

  /** An order with a pending charge whose payment has been reported, and no job run yet. */
  lemma ChargedOrder(delivery: DeliveryType) returns (db: Db)
    ensures IsReachable(db) && IsSellerOrder(db, 1) && db.ledger == [] && db.orders[1].status == AwaitingPayment
    ensures db.orders[1].payments == [Payment(Efi, Pending, 1000, false)] && db.orders[1].seller == Some(7)
    ensures db.orders[1].delivery == Some(delivery) && 5 in db.webhooks
    ensures db.webhooks[5] == WebhookEvent(Some(Txid(1, 0)), true, false)
    ensures HeldBalance(db, 1) == 0 && !Released(BookOf(db.ledger, 1))
    ensures RefundWhole(db, 1, None, true).reply == Ok
  {
    var create := DoCreateOrder(1, 8, Checkout(true, 1, 7, 1000, 1, delivery, 0, None, None, None), 0);
    var charge, register := DoCreatePixCharge(1, 8, true), DoRegisterWebhook(5, Some(Txid(1, 0)), true);
    var created := Next(Empty(), create).db;
    var charged := Next(created, charge).db;
    db := Next(charged, register).db;
    assert created.orders[1].total == 1000;
    assert Empty() == Run(Empty(), []);
    hide Next, IsReachable;
    ReachableNext(Empty(), create);
    ReachableNext(created, charge);
    ReachableNext(charged, register);
  }

  // ----- coupons -----

  function PaidCount(ps: seq<Payment>): nat {
    if ps == [] then 0 else PaidCount(ps[..|ps| - 1]) + (if ps[|ps| - 1].paid then 1 else 0)
  }

  lemma {:induction false} PaidTotalIsCount(ps: seq<Payment>, total: nat)
    requires forall p :: p in ps ==> p.amount == total
    ensures PaidTotal(ps) == PaidCount(ps) * total
  {
    if ps != [] {
      PaidTotalIsCount(ps[..|ps| - 1], total);
      assert ps[|ps| - 1] in ps;
    }
  }

  /** What a release leaves the seller: the released money less the platform fee. */
  ghost function SellerNet(book: seq<Entry>): int { Sum(book, ReleaseWeight) - Sum(book, FeeWeight) }

  /** Released, with one confirmed payment and no partial refund. */
  ghost predicate SoldOnce(db: Db, id: OrderId) {
    && id in db.orders && Released(BookOf(db.ledger, id))
    && PaidCount(db.orders[id].payments) == 1 && Sum(BookOf(db.ledger, id), HeldRefundWeight) == 0
  }

  /** From checkout through payment to release, and for ever after: with one confirmed payment and no partial refund
      the seller nets the list price less the undiscounted fee, whatever coupon or partner was used. */
  lemma CouponsNeverCostTheSeller(db: Db, id: OrderId, buyer: UserId, c: Checkout, expiresAt: int, more: seq<Step>)
    requires IsReachable(db) && Next(db, DoCreateOrder(id, buyer, c, expiresAt)).reply.Ok?
    ensures var later := Run(Next(db, DoCreateOrder(id, buyer, c, expiresAt)).db, more);
            var price := c.unitPrice * c.quantity;
            SoldOnce(later, id) ==>
              && SellerNet(BookOf(later.ledger, id)) == Max(price - A.RoundBps(price * c.feeBps), 0)
              && Sum(BookOf(later.ledger, id), PayoutWeight) in {0, SellerNet(BookOf(later.ledger, id))}
  {
    hide OrderInv, Evolves, Next, Run, NewOrder, Released, A.CalculateTotals;
    var created := Next(db, DoCreateOrder(id, buyer, c, expiresAt)).db;
    var later := Run(created, more);
    CreatedReachable(db, DoCreateOrder(id, buyer, c, expiresAt), more);
    ReachableInv(later);
    AmountsFixed(db, id, buyer, c, expiresAt, more);
    if SoldOnce(later, id) {
      SellerNetOfOne(id, later.orders[id], BookOf(later.ledger, id));
      A.CouponNeverCostsSeller(TermsOf(c));
    }
  }

  /** The amounts of an order are those of its checkout, in every later state. */
  lemma AmountsFixed(db: Db, id: OrderId, buyer: UserId, c: Checkout, expiresAt: int, more: seq<Step>)
    requires IsReachable(db) && Next(db, DoCreateOrder(id, buyer, c, expiresAt)).reply.Ok?
    ensures var later := Run(Next(db, DoCreateOrder(id, buyer, c, expiresAt)).db, more);
            var t := A.CalculateTotals(TermsOf(c));
            && IsSellerOrder(later, id) && later.orders[id].total == t.finalTotal
            && later.orders[id].attribution.Some? && later.orders[id].attribution.value.feeFinal == t.feeFinal
            && t.feeBase == A.RoundBps(c.unitPrice * c.quantity * c.feeBps)
  {
    CreatedReachable(db, DoCreateOrder(id, buyer, c, expiresAt), more);
    hide OrderInv, Run, A.CalculateTotals;
  }

  lemma SellerNetOfOne(id: OrderId, o: Order, book: seq<Entry>)
    requires OrderInv(id, o, book) && o.seller.Some? && Released(book)
    requires PaidCount(o.payments) == 1 && Sum(book, HeldRefundWeight) == 0
    ensures o.attribution.Some?
    ensures SellerNet(book) == A.SellerShare(o.attribution.value.feeFinal, o.total)
    ensures Sum(book, PayoutWeight) == 0 || Sum(book, PayoutWeight) == SellerNet(book)
  {
    forall p | p in o.payments ensures p.amount == o.total {
      assert PaymentInv(o, p);
    }
    PaidTotalIsCount(o.payments, o.total);
  }

  lemma CreatedReachable(db: Db, s: Step, more: seq<Step>)
    requires IsReachable(db)
    ensures IsReachable(Run(Next(db, s).db, more))
    ensures Grows(Next(db, s).db, Run(Next(db, s).db, more))
  {
    ReachableNext(db, s);
    ReachableLater(Next(db, s).db, more);
    ReachableInv(Next(db, s).db);
    RunKeeps(Next(db, s).db, more);
  }

  /** Partial refunds, fee and seller's share use up exactly what was paid; nothing is lost at a release. */
  lemma ReleaseConserves(db: Db, id: OrderId)
    requires IsReachable(db) && IsSellerOrder(db, id) && Released(BookOf(db.ledger, id))
    ensures var o, book := db.orders[id], BookOf(db.ledger, id);
            && Sum(book, HeldRefundWeight) + Sum(book, FeeWeight) + SellerNet(book) == PaidTotal(o.payments)
            && 0 <= SellerNet(book)
            && (Sum(book, PayoutWeight) != 0 ==>
                  Sum(book, HeldRefundWeight) + Sum(book, FeeWeight) + Sum(book, PayoutWeight) == PaidTotal(o.payments))
  {
    ReachableInv(db);
  }

  // ----- webhooks -----

  /** Whatever jobs run, a payment is credited once when it is confirmed, and never more. */
  lemma CreditedAtMostOnce(db: Db, t: Txid)
    requires IsReachable(db)
    ensures Sum(db.ledger, HeldCreditsOf(t)) + Sum(db.ledger, TopupsOf(t))
         == if Issued(db, t) && db.orders[t.order].payments[t.n].paid then 1 else 0
  {
    hide OrderInv;
    ReachableInv(db);
    var id := t.order;
    forall e | e in db.ledger && e.order != Some(id) ensures HeldCreditsOf(t)(e) == 0 && TopupsOf(t)(e) == 0 {
      if e.order.Some? && (IsHeldCredit(e) || e.source.WalletTopup?) {
        InBook(db.ledger, e, e.order.value);
        RowsNameOwnPayment(e.order.value, db.orders[e.order.value], BookOf(db.ledger, e.order.value), e);
      }
    }
    SumOverBook(db.ledger, id, HeldCreditsOf(t));
    SumOverBook(db.ledger, id, TopupsOf(t));
    var book := BookOf(db.ledger, id);
    if id in db.orders {
      var o := db.orders[id];
      CreditsOfOrder(id, o, book, t.n);
    } else {
      BookOfOther(db.ledger, id);
    }
  }

  lemma {:induction false} InBook(l: seq<Entry>, e: Entry, id: OrderId)
    requires e in l && e.order == Some(id)
    ensures e in BookOf(l, id)
  {
    if e != l[|l| - 1] {
      InBook(l[..|l| - 1], e, id);
    }
  }

  lemma RowsNameOwnPayment(id: OrderId, o: Order, book: seq<Entry>, e: Entry)
    requires OrderInv(id, o, book) && e in book
    requires IsHeldCredit(e) || e.source.WalletTopup?
    ensures e.payment.Some? && e.payment.value.order == id
  {
    if o.seller.Some? {
      assert RowInv(id, o, o.seller.value, e);
    } else {
      assert TopupRowInv(id, o, e);
    }
  }

  lemma CreditsOfOrder(id: OrderId, o: Order, book: seq<Entry>, n: nat)
    requires OrderInv(id, o, book)
    ensures Sum(book, HeldCreditsOf(Txid(id, n))) + Sum(book, TopupsOf(Txid(id, n)))
         == if n < |o.payments| && o.payments[n].paid then 1 else 0
  {
    if |o.payments| <= n {
      NoRowsYet(id, o, book, n);
    } else if o.seller.Some? {
      forall e | e in book ensures TopupsOf(Txid(id, n))(e) == 0 {
        assert RowInv(id, o, o.seller.value, e);
      }
      SumZero(book, TopupsOf(Txid(id, n)));
    } else {
      forall e | e in book ensures HeldCreditsOf(Txid(id, n))(e) == 0 {
        assert TopupRowInv(id, o, e);
      }
      SumZero(book, HeldCreditsOf(Txid(id, n)));
    }
  }

  /** The one way a failing job still changes the database: the payment is committed, then no unit is in stock. */
  ghost predicate PaysForMissingStock(db: Db, event: EventId, stocked: bool) {
    && event in db.webhooks && !db.webhooks[event].processed && db.webhooks[event].paid
    && db.webhooks[event].txid.Some? && Issued(db, db.webhooks[event].txid.value)
    && var o := db.orders[db.webhooks[event].txid.value.order];
    IsPayable(o.status) && o.delivery == Some(Auto) && !stocked
  }

  lemma FailedJobChangesIff(db: Db, event: EventId, stocked: bool)
    requires ProcessWebhook(db, event, stocked).reply.Err?
    ensures ProcessWebhook(db, event, stocked).db != db <==> PaysForMissingStock(db, event, stocked)
    ensures PaysForMissingStock(db, event, stocked) && db.orders[db.webhooks[event].txid.value.order].seller.Some? ==>
              var t, next := db.webhooks[event].txid.value, ProcessWebhook(db, event, stocked).db;
              && next.webhooks[event].processed && t.order in next.orders && next.orders[t.order].status == InDelivery
              && t.n < |next.orders[t.order].payments| && next.orders[t.order].payments[t.n].status.Confirmed?
              && HasHeldCredit(BookOf(next.ledger, t.order), t)
  {
    if PaysForMissingStock(db, event, stocked) {
      var next := ProcessWebhook(db, event, stocked).db;
      assert next.webhooks[event].processed;
      if db.orders[db.webhooks[event].txid.value.order].seller.Some? {
        FailedJobCommitsPayment(db, event, stocked);
      }
    }
  }

  /** What such a job leaves behind: a paid order in delivery with its money held, and an event that is done with. */
  lemma FailedJobCommitsPayment(db: Db, event: EventId, stocked: bool)
    requires PaysForMissingStock(db, event, stocked)
    requires db.orders[db.webhooks[event].txid.value.order].seller.Some?
    ensures var t := db.webhooks[event].txid.value;
            var o, next := db.orders[t.order], ProcessWebhook(db, event, stocked);
            && next.reply == Err(Conflict)
            && next.db.webhooks == db.webhooks[event := db.webhooks[event].(processed := true)]
            && next.db.orders == db.orders[t.order := next.db.orders[t.order]]
            && next.db.orders[t.order].status == InDelivery
            && next.db.orders[t.order].payments == o.payments[t.n := ConfirmPayment(o.payments[t.n])]
            && HasHeldCredit(BookOf(next.db.ledger, t.order), t)
            && next.db.ledger == db.ledger + HoldPayment(t.order, t, o.seller.value, o.payments[t.n].amount,
                                                         BookOf(db.ledger, t.order))
  {
    var t := db.webhooks[event].txid.value;
    var o, book := db.orders[t.order], BookOf(db.ledger, t.order);
    var held := HoldPayment(t.order, t, o.seller.value, o.payments[t.n].amount, book);
    ConfirmedRow(o, book, t);
    HeldAfterwards(book, t, o.seller.value, o.payments[t.n].amount);
    hide ConfirmByWebhook, ApplyPayment, HasHeldCredit, HoldPayment;
    OtherBooks(db.ledger, held, t.order);
  }

  lemma HeldAfterwards(book: seq<Entry>, t: Txid, seller: UserId, amount: nat)
    ensures var held := HoldPayment(t.order, t, seller, amount, book);
            HasHeldCredit(book + held, t) && forall e :: e in held ==> e.order == Some(t.order)
  {
    if !HasHeldCredit(book, t) {
      assert HoldPayment(t.order, t, seller, amount, book)[0] in book + HoldPayment(t.order, t, seller, amount, book);
    } else {
      assert book + [] == book;
    }
  }

  /** What confirming a payable order of a seller makes of its row. */
  lemma ConfirmedRow(o: Order, book: seq<Entry>, t: Txid)
    requires IsPayable(o.status) && o.seller.Some? && t.n < |o.payments|
    ensures var p := ConfirmByWebhook(o, book, t);
            && p.Posting? && p.order.status == InDelivery && p.order.delivery == o.delivery
            && p.order.payments == o.payments[t.n := ConfirmPayment(o.payments[t.n])]
            && p.entries == HoldPayment(t.order, t, o.seller.value, o.payments[t.n].amount, book)
            && ApplyPayment(o).Confirmation? && ApplyPayment(o).applied
  {
    hide HoldPayment;
  }

  /** It can happen: the one unit is gone between checkout and payment. */
  lemma FailedJobWitness() returns (db: Db)
    ensures IsReachable(db) && PaysForMissingStock(db, 5, false) && IsSellerOrder(db, 1)
    ensures ProcessWebhook(db, 5, false).reply.Err? && ProcessWebhook(db, 5, false).db != db
  {
    db := ChargedOrder(Auto);
    hide IsReachable;
    FailedJobCommitsPayment(db, 5, false);
    FailedJobChangesIff(db, 5, false);
    hide ProcessWebhook;
  }

  /** Running a job again after it has been processed does nothing. */
  lemma WebhookIdempotent(db: Db, event: EventId, stocked: bool, again: bool)
    requires ProcessWebhook(db, event, stocked).reply.Ok?
    ensures var once := ProcessWebhook(db, event, stocked).db; ProcessWebhook(once, event, again) == Response(once, Ok)
  {
  }

  // ----- balances -----

  /** A user's spendable balance is below zero by no more than the debits an administrator forced on the user. */
  lemma NoUnauthorisedOverdraft(db: Db, u: UserId)
    requires IsReachable(db)
    ensures Sum(db.ledger, ForcedWeight(u)) <= 0
    ensures Sum(db.ledger, ForcedWeight(u)) <= Spendable(db.ledger, u)
  {
    ReachableInv(db);
    SpendableSplits(db.ledger, u);
    assert 0 <= Sum(db.ledger, UnforcedWeight(u));
  }

  /** The platform never sends itself more than the fees it took. */
  lemma PlatformSendsOnlyFees(db: Db)
    requires IsReachable(db)
    ensures PlatformSent(db.payouts) <= Sum(db.ledger, AvailableFeeWeight)
  {
    ReachableInv(db);
  }

  // ----- release against refund -----

  /** An order refunded out of escrow is never released later. */
  lemma RefundedIsNeverReleased(db: Db, id: OrderId, more: seq<Step>)
    requires IsReachable(db) && id in db.orders
    requires db.orders[id].status == Orders.Refunded && !Released(BookOf(db.ledger, id))
    ensures var later := Run(db, more);
            id in later.orders && later.orders[id].status == Orders.Refunded && !Released(BookOf(later.ledger, id))
  {
    ReachableInv(db);
    RunKeeps(db, more);
  }

  // ----- the log and the life cycle -----

  /** The log of a seller order replays to its status, starts with its creation, and only grows. */
  lemma LogIsFaithful(db: Db, id: OrderId, more: seq<Step>)
    requires IsReachable(db) && IsSellerOrder(db, id)
    ensures var o := db.orders[id];
            && o.events != [] && o.events[0] == Event(CreatedEvent, None, Some(Created))
            && Replay(o.events) == At(Some(o.status))
    ensures id in Run(db, more).orders && db.orders[id].events <= Run(db, more).orders[id].events
  {
    ReachableInv(db);
    RunKeeps(db, more);
  }

  /** No order ever logs more than eight changes of status, and none is seen as paid but not in delivery. */
  lemma LifeCycleIsBounded(db: Db, id: OrderId)
    requires IsReachable(db) && id in db.orders
    ensures db.orders[id].status != Paid
    ensures db.orders[id].seller.Some? ==> Changes(db.orders[id].events) <= 8
  {
    ReachableInv(db);
  }

  /** How often a run is seen to change the status of an order. */
  ghost function StatusChanges(db: Db, steps: seq<Step>, id: OrderId): nat
    requires Inv(db) && id in db.orders
  {
    if steps == [] then 0
    else
      var init := steps[..|steps| - 1];
      RunKeeps(db, init);
      RunKeeps(db, steps);
      StatusChanges(db, init, id) + (if Run(db, init).orders[id].status != Run(db, steps).orders[id].status then 1 else 0)
  }

  /** Each change uses up some of the measure, so every run has finitely many: at most eight. */
  lemma {:induction false} StatusChangesBounded(db: Db, steps: seq<Step>, id: OrderId)
    requires Inv(db) && id in db.orders
    ensures id in Run(db, steps).orders
    ensures StatusChanges(db, steps, id) + MeasureOf(Run(db, steps).orders[id]) <= MeasureOf(db.orders[id]) <= 8
  {
    hide Inv, Next, Grows;
    if steps != [] {
      var init := steps[..|steps| - 1];
      StatusChangesBounded(db, init, id);
      RunKeeps(db, init);
      MeasureFalls(Run(db, init), steps[|steps| - 1], id);
    }
  }

  lemma MeasureFalls(db: Db, s: Step, id: OrderId)
    requires Inv(db) && id in db.orders
    ensures var next := Next(db, s).db;
            && id in next.orders && MeasureOf(next.orders[id]) <= MeasureOf(db.orders[id])
            && (next.orders[id].status != db.orders[id].status ==>
                  MeasureOf(next.orders[id]) < MeasureOf(db.orders[id]))
  {
    hide Inv, Next;
    NextKeeps(db, s);
  }

  // ----- partner commission -----

  function CommissionSum(cs: seq<Commission>): int {
    if cs == [] then 0 else CommissionSum(cs[..|cs| - 1]) + cs[|cs| - 1].amount
  }

  /** A partner earns an order's commission once or not at all, after the release, within the platform fee;
      and it is never reversed, not even when the order is charged back. */
  lemma CommissionOnce(db: Db, id: OrderId)
    requires IsReachable(db) && IsSellerOrder(db, id)
    ensures db.orders[id].attribution.Some?
    ensures var o := db.orders[id]; var a := o.attribution.value;
            && 0 <= a.commission <= a.feeFinal
            && |o.commissions| <= 1
            && (forall c :: c in o.commissions ==>
                  c.kind == Earned && a.partner == Some(c.partner) && c.amount == a.commission
                  && Released(BookOf(db.ledger, id)))
            && CommissionSum(o.commissions) in {0, a.commission}
  {
    ReachableInv(db);
  }

  /** The commission is within the fee actually taken exactly when it is within the money released. */
  lemma CommissionCoveredIff(db: Db, id: OrderId)
    requires IsReachable(db) && IsSellerOrder(db, id) && Released(BookOf(db.ledger, id))
    ensures db.orders[id].attribution.Some?
    ensures var a, book := db.orders[id].attribution.value, BookOf(db.ledger, id);
            a.commission <= Sum(book, FeeWeight) <==> a.commission <= Sum(book, ReleaseWeight)
  {
    ReachableInv(db);
  }
}
