/** What follows from the tables: payout blocks that last, fees and payouts told apart, refunds that repeat or do not. */
module Consequences {
  import opened Wrappers
  import opened Ledger
  import opened Orders
  import opened Settlement
  import opened Market
  import opened OrderInvariant
  import opened MarketInvariant
  import opened Theorems
  import opened LifeCycle
  import opened ReleaseConditions
  import opened Balances
  import opened Deeds
  import opened DeedsProofs
  import opened Tables
  import A = Attribution

  // ----- payout blocks -----

  /** Refunding a released order blocks its seller's payouts and changes no other user; a refund out of escrow changes no
      user at all. */
  lemma RefundBlocksTheSeller(db: Db, id: OrderId, actor: Option<UserId>, providerOk: bool)
    requires IsReachable(db) && RefundWhole(db, id, actor, providerOk).reply.Ok?
    ensures var o, later := db.orders[id], RefundWhole(db, id, actor, providerOk).db;
            && id in db.orders && later.users.Keys == db.users.Keys
            && forall u :: u in db.users ==>
                 && later.users[u].hasPixKey == db.users[u].hasPixKey
                 && later.users[u].payoutBlocked ==
                      (db.users[u].payoutBlocked || (Released(BookOf(db.ledger, id)) && o.seller == Some(u)))
  {
    ReachableInv(db);
    hide Inv, IsReachable, Released, BookOf;
    RefundUsers(db, id, actor, providerOk);
    hide RefundOrder;
  }

  ghost predicate IsBlocked(db: Db, u: UserId) { u in db.users && db.users[u].payoutBlocked }

  predicate Unblocks(s: Step, u: UserId) { s.DoSetUser? && s.user == u }

  /** A block lasts through every run in which no administrator edits that user. */
  lemma {:induction false} BlockLasts(db: Db, steps: seq<Step>, u: UserId)
    requires IsReachable(db) && IsBlocked(db, u)
    requires forall i :: 0 <= i < |steps| ==> !Unblocks(steps[i], u)
    ensures IsBlocked(Run(db, steps), u)
  {
    hide Next, IsReachable, Blocks, EventsAfter, PayoutsAfter;
    if steps != [] {
      var init, last := steps[..|steps| - 1], steps[|steps| - 1];
      BlockLasts(db, init, u);
      ReachableLater(db, init);
      OtherTablesFollow(Run(db, init), last);
    }
  }

  /** While it lasts, the user's payouts are refused, and no order of that seller is released for cash-out. */
  lemma BlockedIsNotPaid(db: Db, u: UserId, cents: nat, instant: bool, age: int, id: OrderId, ignoreDispute: bool, ok: bool)
    requires IsReachable(db) && IsBlocked(db, u)
    ensures UserPayout(db, u, cents, instant, age, ok) == Response(db, Err(Forbidden))
    ensures id in db.orders && db.orders[id].seller == Some(u) && !db.settings.splitEnabled ==>
              ReleaseOrder(db, id, ignoreDispute, ok).db == db
  {
    ReachableInv(db);
    hide Inv, IsReachable, ReleaseOrder;
    ReleasesIff(db, id, ignoreDispute, ok);
  }

  // ----- fees and payouts -----

  function FeesOf(ds: seq<Deed>): int {
    if ds == [] then 0 else (if ds[0].Releasing? then ds[0].fee else 0) + FeesOf(ds[1..])
  }

  function PaidOutOf(ds: seq<Deed>): int {
    if ds == [] then 0 else (if ds[0].Releasing? then ds[0].paidOut else 0) + PaidOutOf(ds[1..])
  }

  ghost function OwnDeedsOf(db: Db, s: Step): seq<Deed> {
    if OrderOf(db, s).Some? && OrderOf(db, s).value in db.orders then DeedsOf(db, s, OrderOf(db, s).value) else []
  }

  /** What a call adds to the platform's fees: the fee of a release, and the fee of an instant payout. */
  ghost function FeeGain(db: Db, s: Step): int {
    FeesOf(OwnDeedsOf(db, s))
    + (if s.DoUserPayout? && s.instant && PayoutAdmitted(db, s.user, s.cents + 100, s.accountAgeMs, s.providerOk)
       then 100 else 0)
  }

  /** What a call adds to the payouts: the seller's share of a release for cash-out, and what a user asked for. */
  ghost function PayoutGain(db: Db, s: Step): int {
    PaidOutOf(OwnDeedsOf(db, s))
    + (if s.DoUserPayout?
         && PayoutAdmitted(db, s.user, s.cents + (if s.instant then 100 else 0), s.accountAgeMs, s.providerOk)
       then s.cents else 0)
  }

  predicate HasPaymentsFor(o: Order, ds: seq<Deed>) { o.payments != [] || forall d :: d in ds ==> !d.Releasing? }

  lemma BookSums(id: OrderId, o: Order, d: Deed)
    requires d.Releasing? ==> o.payments != []
    ensures Sum(Books(id, o, d), AvailableFeeWeight) == if d.Releasing? then d.fee else 0
    ensures Sum(Books(id, o, d), PayoutWeight) == if d.Releasing? then d.paidOut else 0
  {
    if d.Releasing? {
      ReleasingSums(id, o, d.held, d.fee, d.paidOut, d.earns);
    } else {
      var es := Books(id, o, d);
      forall e | e in es ensures AvailableFeeWeight(e) == 0 && PayoutWeight(e) == 0 {
      }
      SumZero(es, AvailableFeeWeight);
      SumZero(es, PayoutWeight);
    }
  }

  lemma ReleasingSums(id: OrderId, o: Order, held: nat, fee: nat, paidOut: nat, earns: bool)
    requires o.payments != []
    ensures Sum(Books(id, o, Releasing(held, fee, paidOut, earns)), AvailableFeeWeight) == fee
    ensures Sum(Books(id, o, Releasing(held, fee, paidOut, earns)), PayoutWeight) == paidOut
  {
    var last, owner := |o.payments| - 1, Owner(o);
    var a := Row(id, last, owner, Debit, Held, OrderPayment, held);
    var b := Row(id, last, owner, Credit, Available, OrderPayment, held);
    var c := if fee > 0 then Row(id, last, owner, Debit, Available, Fee, fee) else [];
    var d := if paidOut > 0 then Row(id, last, owner, Debit, Available, Payout, paidOut) else [];
    FourSums(a, b, c, d, AvailableFeeWeight);
    FourSums(a, b, c, d, PayoutWeight);
    OneOrNone(a, AvailableFeeWeight);
    OneOrNone(a, PayoutWeight);
    OneOrNone(b, AvailableFeeWeight);
    OneOrNone(b, PayoutWeight);
    OneOrNone(c, AvailableFeeWeight);
    OneOrNone(c, PayoutWeight);
    OneOrNone(d, AvailableFeeWeight);
    OneOrNone(d, PayoutWeight);
  }

  lemma FourSums(a: seq<Entry>, b: seq<Entry>, c: seq<Entry>, d: seq<Entry>, w: Entry -> int)
    ensures Sum(a + b + c + d, w) == Sum(a, w) + Sum(b, w) + Sum(c, w) + Sum(d, w)
  {
    SumConcat(a + b + c, d, w);
    SumConcat(a + b, c, w);
    SumConcat(a, b, w);
  }

  lemma OneOrNone(es: seq<Entry>, w: Entry -> int)
    requires |es| <= 1
    ensures Sum(es, w) == if es == [] then 0 else w(es[0])
  {
    if es != [] {
      SumOne(es[0], w);
      assert es == [es[0]];
    }
  }

  lemma {:induction false} AllBookSums(id: OrderId, o: Order, ds: seq<Deed>)
    requires HasPaymentsFor(o, ds)
    ensures Sum(AllBooks(id, o, ds), AvailableFeeWeight) == FeesOf(ds)
    ensures Sum(AllBooks(id, o, ds), PayoutWeight) == PaidOutOf(ds)
    decreases |ds|
  {
    hide Books, Written;
    if ds != [] {
      assert ds[0] in ds;
      BookSums(id, o, ds[0]);
      KeepsPayments(o, ds[0]);
      AllBookSums(id, Written(o, ds[0]), ds[1..]);
      SumConcat(Books(id, o, ds[0]), AllBooks(id, Written(o, ds[0]), ds[1..]), AvailableFeeWeight);
      SumConcat(Books(id, o, ds[0]), AllBooks(id, Written(o, ds[0]), ds[1..]), PayoutWeight);
    }
  }

  lemma KeepsPayments(o: Order, d: Deed)
    ensures o.payments != [] ==> Written(o, d).payments != []
  {
  }

  lemma ReleasesHavePayments(db: Db, s: Step, id: OrderId)
    requires id in db.orders
    ensures HasPaymentsFor(db.orders[id], DeedsOf(db, s, id))
  {
    hide HeldBalance, IsActive, PaysFromWallet;
  }

  lemma FreeRowSums(db: Db, s: Step)
    ensures Sum(FreeRows(db, s), AvailableFeeWeight) ==
              if s.DoUserPayout? && s.instant && PayoutAdmitted(db, s.user, s.cents + 100, s.accountAgeMs, s.providerOk)
              then 100 else 0
    ensures Sum(FreeRows(db, s), PayoutWeight) ==
              if s.DoUserPayout?
                && PayoutAdmitted(db, s.user, s.cents + (if s.instant then 100 else 0), s.accountAgeMs, s.providerOk)
              then s.cents else 0
  {
    hide PayoutAdmitted;
    var es := FreeRows(db, s);
    if |es| == 2 {
      assert es == [es[0]] + [es[1]];
      SumTwo(es[0], es[1], AvailableFeeWeight);
      SumTwo(es[0], es[1], PayoutWeight);
    } else {
      assert |es| <= 1;
      OneOrNone(es, AvailableFeeWeight);
      OneOrNone(es, PayoutWeight);
    }
  }

  /** Every call adds to the fees and to the payouts exactly what the table says; a payout is never booked as a fee. */
  lemma FeesAndPayoutsByTheTable(db: Db, s: Step)
    requires IsReachable(db)
    ensures var later := Next(db, s).db.ledger;
            && Sum(later, AvailableFeeWeight) == Sum(db.ledger, AvailableFeeWeight) + FeeGain(db, s)
            && Sum(later, PayoutWeight) == Sum(db.ledger, PayoutWeight) + PayoutGain(db, s)
  {
    hide Next, IsReachable, FreeRows, AllBooks, DeedsOf, PayoutAdmitted, FeesOf, PaidOutOf;
    CallsDoTheirDeeds(db, s);
    SumConcat(db.ledger, NewRows(db, s), AvailableFeeWeight);
    SumConcat(db.ledger, NewRows(db, s), PayoutWeight);
    NewRowSums(db, s);
  }

  lemma NewRowSums(db: Db, s: Step)
    ensures Sum(NewRows(db, s), AvailableFeeWeight) == FeeGain(db, s)
    ensures Sum(NewRows(db, s), PayoutWeight) == PayoutGain(db, s)
  {
    hide FreeRows, AllBooks, DeedsOf, PayoutAdmitted;
    var on := OrderOf(db, s);
    if on.Some? && on.value in db.orders {
      ReleasesHavePayments(db, s, on.value);
      AllBookSums(on.value, db.orders[on.value], DeedsOf(db, s, on.value));
    } else {
      FreeRowSums(db, s);
    }
  }

  predicate FeesAvailable(l: seq<Entry>) { forall e :: e in l && e.source.Fee? ==> e.state.Available? }

  lemma BookFees(id: OrderId, o: Order, d: Deed)
    ensures FeesAvailable(Books(id, o, d))
  {
  }

  lemma {:induction false} AllBookFees(id: OrderId, o: Order, ds: seq<Deed>)
    ensures FeesAvailable(AllBooks(id, o, ds))
    decreases ds
  {
    hide Books, Written;
    if ds != [] {
      BookFees(id, o, ds[0]);
      AllBookFees(id, Written(o, ds[0]), ds[1..]);
    }
  }

  lemma NewFees(db: Db, s: Step)
    ensures FeesAvailable(NewRows(db, s))
  {
    hide AllBooks, DeedsOf, PayoutAdmitted;
    var on := OrderOf(db, s);
    if on.Some? && on.value in db.orders {
      AllBookFees(on.value, db.orders[on.value], DeedsOf(db, s, on.value));
    }
  }

  /** Whatever was taken as a fee is available: no call ever holds or reverses one. */
  lemma {:induction false} FeesStayAvailable(steps: seq<Step>)
    ensures FeesAvailable(Run(Empty(), steps).ledger)
  {
    if steps != [] {
      var init, last := steps[..|steps| - 1], steps[|steps| - 1];
      FeesStayAvailable(init);
      var db := Run(Empty(), init);
      assert IsReachable(db);
      hide Next, NewRows, IsReachable, DeedsOf, After;
      CallsDoTheirDeeds(db, last);
      NewFees(db, last);
    }
  }

  // ----- refunds asked for again -----

  /** The order after a refund, by the table. */
  lemma RefundedRow(db: Db, id: OrderId, actor: Option<UserId>, providerOk: bool)
    requires IsReachable(db) && CanRefund(db, id, actor, providerOk)
    ensures var o, later := db.orders[id], RefundWhole(db, id, actor, providerOk).db;
            && IsReachable(later) && id in later.orders
            && later.orders[id] == Written(o, Refunding(Released(BookOf(db.ledger, id))))
            && (Released(BookOf(later.ledger, id)) <==> Released(BookOf(db.ledger, id)))
  {
    var s, o, book := DoRefundOrder(id, actor, providerOk), db.orders[id], BookOf(db.ledger, id);
    RefundDeedOf(db, id, actor, providerOk);
    hide CanRefund, RefundWhole, Released, BookOf, Written, Books, NewRows, DeedsOf, After, AllBooks, IsReachable;
    assert RefundWhole(db, id, actor, providerOk) == Next(db, s);
    hide Next;
    ReachableNext(db, s);
    CallsDoTheirDeeds(db, s);
    OneDeed(id, o, Refunding(Released(book)));
    RefundRowsOnly(db, s, id);
    RefundBooks(db.ledger, id, o, Released(book));
  }

  lemma RefundDeedOf(db: Db, id: OrderId, actor: Option<UserId>, providerOk: bool)
    requires CanRefund(db, id, actor, providerOk)
    ensures DeedsOf(db, DoRefundOrder(id, actor, providerOk), id) == [Refunding(Released(BookOf(db.ledger, id)))]
  {
    hide Released, BookOf;
  }

  lemma RefundRowsOnly(db: Db, s: Step, id: OrderId)
    requires s.DoRefundOrder? && s.id == id && id in db.orders
    ensures NewRows(db, s) == AllBooks(id, db.orders[id], DeedsOf(db, s, id))
  {
    hide AllBooks, DeedsOf;
  }

  lemma RefundBooks(l: seq<Entry>, id: OrderId, o: Order, afterRelease: bool)
    ensures var es := Books(id, o, Refunding(afterRelease));
            Released(BookOf(l + es, id)) <==> Released(BookOf(l, id))
  {
    hide Released, Books;
    var es := Books(id, o, Refunding(afterRelease));
    RefundingRows(id, o, afterRelease);
    OtherBooks(l, es, id);
    NotReleasing(BookOf(l, id), es);
  }

  lemma RefundingRows(id: OrderId, o: Order, afterRelease: bool)
    ensures forall e :: e in Books(id, o, Refunding(afterRelease)) ==> e.order == Some(id) && !IsRelease(e)
  {
  }

  lemma NotReleasing(book: seq<Entry>, es: seq<Entry>)
    requires forall e :: e in es ==> !IsRelease(e)
    ensures Released(book + es) <==> Released(book)
  {
    if Released(book) {
      var e :| e in book && IsRelease(e);
      assert e in book + es;
    }
  }

  /** A refund out of escrow happens once: asking again changes nothing. A chargeback, by contrast, takes the same amount
      from the seller each time it is asked for. */
  lemma RefundAgain(db: Db, id: OrderId, actor: Option<UserId>, providerOk: bool, again: Option<UserId>, ok: bool)
    requires IsReachable(db) && CanRefund(db, id, actor, providerOk) && again != Some(db.orders[id].buyer)
    ensures var o, once := db.orders[id], RefundWhole(db, id, actor, providerOk).db;
            var twice := RefundWhole(once, id, again, ok);
            && twice.reply.Ok?
            && (!Released(BookOf(db.ledger, id)) ==> twice.db == once)
            && (Released(BookOf(db.ledger, id)) ==>
                  Spendable(twice.db.ledger, Owner(o)) ==
                    Spendable(once.ledger, Owner(o)) - o.payments[|o.payments| - 1].amount)
  {
    hide RefundWhole, Spendable, Released, BookOf, IsReachable, Written, RefundGain;
    RefundedRow(db, id, actor, providerOk);
    var o, once := db.orders[id], RefundWhole(db, id, actor, providerOk).db;
    RefundedPayments(o, Released(BookOf(db.ledger, id)));
    RefundMovesBalance(once, id, again, ok, Owner(o));
    SecondRefund(once, id, again, ok);
    SecondGain(once, id, again, ok);
  }

  lemma RefundedPayments(o: Order, afterRelease: bool)
    requires o.payments != []
    ensures var p := Written(o, Refunding(afterRelease));
            && |p.payments| == |o.payments| && p.buyer == o.buyer && p.seller == o.seller
            && p.payments[|o.payments| - 1].status == PaymentRefunded
            && p.payments[|o.payments| - 1].amount == o.payments[|o.payments| - 1].amount
  {
  }

  lemma SecondGain(db: Db, id: OrderId, actor: Option<UserId>, providerOk: bool)
    requires id in db.orders && db.orders[id].payments != [] && actor != Some(db.orders[id].buyer)
    ensures Released(BookOf(db.ledger, id)) ==>
              RefundGain(db, id, actor, providerOk, Owner(db.orders[id])) ==
                -(db.orders[id].payments[|db.orders[id].payments| - 1].amount as int)
  {
    hide Released, BookOf;
  }

  lemma SecondRefund(db: Db, id: OrderId, actor: Option<UserId>, providerOk: bool)
    requires id in db.orders && db.orders[id].payments != [] && actor != Some(db.orders[id].buyer)
    requires db.orders[id].payments[|db.orders[id].payments| - 1].status == PaymentRefunded
    ensures RefundWhole(db, id, actor, providerOk).reply.Ok?
    ensures !Released(BookOf(db.ledger, id)) ==> RefundWhole(db, id, actor, providerOk).db == db
  {
    hide Released, BookOf, Chargeback, FullRefund;
    PostingsOf(id, db.orders[id]);
  }

  lemma PostingsOf(id: OrderId, o: Order)
    requires o.payments != []
    ensures Chargeback(id, o).Posting? && FullRefund(id, o).Posting?
  {
  }

  // ----- replies -----

  /** Which calls succeed. */
  ghost predicate Accepts(db: Db, s: Step) {
    match s
    case DoCreateOrder(id, _, c, _) => Buyable(db, id, c)
    case DoTopUp(id, _, _, _, providerOk) => id !in db.orders && providerOk
    case DoCreatePixCharge(id, user, providerOk) =>
      id in db.orders && db.orders[id].buyer == user && Unpaid(db.orders[id])
      && (HasPendingCharge(db.orders[id]) || providerOk)
    case DoProcessWebhook(event, stocked) =>
      event in db.webhooks && !db.webhooks[event].processed && db.webhooks[event].paid ==>
        && db.webhooks[event].txid.Some?
        && var id := db.webhooks[event].txid.value.order;
        Confirms(db, event, id)
        && (Unpaid(db.orders[id]) && db.orders[id].delivery == Some(Auto) ==> stocked)
    case DoPayWithBalance(id, user, stocked) =>
      PaysFromWallet(db, id, user) && (db.orders[id].delivery == Some(Auto) ==> stocked)
    case DoCancelOrder(id, _) => id in db.orders && DeedsOf(db, s, id) != []
    case DoAddDeliveryEvidence(id, _, _) => id in db.orders && DeedsOf(db, s, id) != []
    case DoMarkOrderDelivered(id, _, _) => id in db.orders && DeedsOf(db, s, id) != []
    case DoConfirmOrderReceipt(id, _) => id in db.orders && DeedsOf(db, s, id) != []
    case DoOpenOrderDispute(id, _) => id in db.orders && DeedsOf(db, s, id) != []
    case DoReleaseOrder(id, providerOk) =>
      MayRelease(db, id, false)
      && (CanRelease(db, id, HeldBalance(db, id), providerOk)
          || (db.orders[id].payments != [] && Released(BookOf(db.ledger, id))))
    case DoRefundOrder(id, actor, providerOk) =>
      CanRefund(db, id, actor, providerOk)
      || (id in db.orders && actor != Some(db.orders[id].buyer) && db.orders[id].payments != []
          && db.orders[id].payments[|db.orders[id].payments| - 1].status == PaymentRefunded)
    case DoResolveDispute(id, admin, how, refundOk, cashOutOk) =>
      id in db.orders && exists d :: Closing(d) in DeedsOf(db, s, id)
    case DoUserPayout(user, cents, instant, age, providerOk) =>
      PayoutAdmitted(db, user, cents + (if instant then 100 else 0), age, providerOk)
    case DoPlatformPayout(cents, providerOk) =>
      cents <= Max(Sum(db.ledger, AvailableFeeWeight) - PlatformSent(db.payouts), 0) && providerOk
    case DoAdjustBalance(user, amount) => user in db.users && amount != 0
    case _ => true
  }

  lemma OrderCallReplies(db: Db, s: Step)
    requires IsOrderCall(s) || s.DoCreateOrder? || s.DoTopUp? || s.DoCreatePixCharge?
    ensures Next(db, s).reply.Ok? <==> Accepts(db, s)
  {
    if s.DoCreatePixCharge? && s.id in db.orders {
      var o := db.orders[s.id];
      assert HasPending(o.payments) <==> HasPendingCharge(o) by {
        if HasPending(o.payments) {
          var p :| p in o.payments && p.status.Pending?;
          var i :| 0 <= i < |o.payments| && o.payments[i] == p;
        }
      }
    }
    hide HasPending, HasPendingCharge, NewOrder;
  }

  lemma WalletReplies(db: Db, s: Step)
    requires Inv(db) && s.DoPayWithBalance?
    ensures Next(db, s).reply.Ok? <==> Accepts(db, s)
  {
    hide Inv, OrderInv, WalletPosting, Spendable, Written, Books;
    if PaysFromWallet(db, s.id, s.user) {
      var o, book := db.orders[s.id], BookOf(db.ledger, s.id);
      OrderHolds(db, s.id);
      WalletWrites(s.id, o, o.seller.value, book);
      PaidStatus(o);
    }
  }

  lemma WebhookReplies(db: Db, s: Step)
    requires Inv(db) && s.DoProcessWebhook?
    ensures Next(db, s).reply.Ok? <==> Accepts(db, s)
  {
    hide Inv, OrderInv, ConfirmByWebhook, Written, Books, ApplyPayment;
    if s.event in db.webhooks && db.webhooks[s.event].txid.Some? && Issued(db, db.webhooks[s.event].txid.value) {
      var t := db.webhooks[s.event].txid.value;
      var o, book := db.orders[t.order], BookOf(db.ledger, t.order);
      OrderHolds(db, t.order);
      NotSeenPaid(t.order, o, book);
      ConfirmIff(t.order, o, book, t.n);
      if Unpaid(o) || o.status == InDelivery {
        ConfirmWrites(t.order, o, book, t.n);
        ApplyIsPaidFor(o);
        ConfirmedStatus(o, Confirming(t.n), t.n);
        ConfirmedStatus(o, ToppingUp(t.n), t.n);
      }
    }
  }

  lemma MoneyReplies(db: Db, s: Step)
    requires s.DoUserPayout? || s.DoPlatformPayout? || s.DoAdjustBalance? || s.DoRegisterWebhook? || s.DoSetUser?
      || s.DoSetPartner? || s.DoSetSettings?
    ensures Next(db, s).reply.Ok? <==> Accepts(db, s)
  {
    hide Spendable, PlatformSent, Sum;
  }

  lemma RefundCallReplies(db: Db, s: Step)
    requires s.DoRefundOrder?
    ensures Next(db, s).reply.Ok? <==> Accepts(db, s)
  {
    hide Released, BookOf, Chargeback, FullRefund;
    if s.id in db.orders && db.orders[s.id].payments != [] {
      PostingsOf(s.id, db.orders[s.id]);
    }
  }

  lemma ReleaseCallReplies(db: Db, s: Step)
    requires Inv(db) && s.DoReleaseOrder?
    ensures Next(db, s).reply.Ok? <==> Accepts(db, s)
  {
    hide Inv, ReleaseOrder, CanRelease, Released, HeldBalance, BookOf;
    ReleasesIff(db, s.id, false, s.providerOk);
  }

  /** When a resolution reaches its last deed, the closing. */
  ghost predicate Closes(db: Db, id: OrderId, admin: UserId, how: Resolution, refundOk: bool, cashOutOk: bool) {
    match how
    case RefundBuyer =>
      id in db.orders && db.orders[id].dispute in {Some(Open), Some(Review)} && db.orders[id].status != Orders.Refunded
      && CanRefund(db, id, Some(admin), refundOk)
    case ReleaseSeller =>
      Resolvable(db, id)
      && (CanRelease(db, id, HeldBalance(db, id), cashOutOk)
          || (db.orders[id].payments != [] && Released(BookOf(db.ledger, id))))
    case SplitBetween(amount) =>
      Resolvable(db, id) && 0 < amount && CanRefundPart(db, id, amount, refundOk)
      && CanRelease(db, id, HeldBalance(db, id) - amount, cashOutOk)
  }

  lemma ClosesIff(db: Db, id: OrderId, admin: UserId, how: Resolution, refundOk: bool, cashOutOk: bool)
    ensures (exists d :: Closing(d) in ResolveDeeds(db, id, admin, how, refundOk, cashOutOk)) <==>
              Closes(db, id, admin, how, refundOk, cashOutOk)
  {
    hide CanRelease, CanRefund, CanRefundPart, ReleaseDeeds, RefundDeeds, Released, HeldBalance, BookOf;
    var ds := ResolveDeeds(db, id, admin, how, refundOk, cashOutOk);
    forall held, ok, d ensures Closing(d) !in ReleaseDeeds(db, id, held, ok) {
      NoClosing(db, id, held, ok, d);
    }
    if Closes(db, id, admin, how, refundOk, cashOutOk) {
      var last := if how.ReleaseSeller? then Rejected else Resolved;
      assert Closing(last) in ds;
    }
  }

  /** A resolution succeeds exactly when its dispute is closed. */
  lemma ResolveReplies(db: Db, s: Step)
    requires Inv(db) && s.DoResolveDispute?
    ensures Next(db, s).reply.Ok? <==> Accepts(db, s)
  {
    hide Inv, ResolveDispute, Closes, ResolveDeeds;
    ClosesIff(db, s.id, s.user, s.how, s.refundOk, s.cashOutOk);
    if s.id !in db.orders {
      NotThere(db, s);
    }
    match s.how
    case RefundBuyer => RefundResolves(db, s);
    case ReleaseSeller => ReleaseResolves(db, s);
    case SplitBetween(amount) => SplitResolves(db, s);
  }

  lemma NotThere(db: Db, s: Step)
    requires s.DoResolveDispute? && s.id !in db.orders
    ensures !Closes(db, s.id, s.user, s.how, s.refundOk, s.cashOutOk) && Next(db, s).reply.Err?
  {
  }

  lemma RefundResolves(db: Db, s: Step)
    requires Inv(db) && s.DoResolveDispute? && s.how.RefundBuyer?
    ensures Next(db, s).reply.Ok? <==> Closes(db, s.id, s.user, s.how, s.refundOk, s.cashOutOk)
  {
    hide Inv, RefundWhole, CanRefund;
    if s.id in db.orders && db.orders[s.id].status != Orders.Refunded {
      RefundReplies(db, s.id, Some(s.user), s.refundOk);
    }
  }

  lemma NoClosing(db: Db, id: OrderId, held: int, ok: bool, d: DisputeStatus)
    ensures Closing(d) !in ReleaseDeeds(db, id, held, ok)
  {
    hide CanRelease, IsActive;
  }

  lemma ReleaseResolves(db: Db, s: Step)
    requires Inv(db) && s.DoResolveDispute? && s.how.ReleaseSeller?
    ensures Next(db, s).reply.Ok? <==> Closes(db, s.id, s.user, s.how, s.refundOk, s.cashOutOk)
  {
    hide Inv, ReleaseOrder, CompleteDisputed, CanRelease, ReleaseDeeds, Released, HeldBalance;
    var id := s.id;
    if Resolvable(db, id) {
      var a := CompleteDisputed(db, id);
      CompleteDisputedKeeps(db, id);
      CompletionMovesNothing(db, id);
      SamePartners(db, id, 0, true);
      ReleaseAndClose(a, id, s.cashOutOk, Rejected);
      SameHeld(a, db, id);
      SameReleaseDeeds(a, db, id, HeldBalance(db, id), s.cashOutOk);
    }
  }

  lemma SplitReply(db: Db, id: OrderId, admin: UserId, amount: int, refundOk: bool, cashOutOk: bool)
    requires Inv(db)
    ensures ResolveDispute(db, id, admin, SplitBetween(amount), refundOk, cashOutOk).reply.Ok? <==>
              && Resolvable(db, id) && 0 < amount
              && var b := RefundPart(CompleteDisputed(db, id), id, amount, refundOk);
              b.reply.Ok? && ReleaseOrder(b.db, id, true, cashOutOk).reply.Ok?
  {
    hide Inv, ReleaseOrder, RefundPart, CompleteDisputed;
    if Resolvable(db, id) && 0 < amount {
      CompleteDisputedKeeps(db, id);
      CompletionMovesNothing(db, id);
    }
  }

  lemma SplitChain(db: Db, id: OrderId, amount: nat, refundOk: bool, cashOutOk: bool)
    requires Inv(db) && Resolvable(db, id) && 0 < amount
    ensures var b := RefundPart(CompleteDisputed(db, id), id, amount, refundOk);
            b.reply.Ok? && ReleaseOrder(b.db, id, true, cashOutOk).reply.Ok? <==>
              CanRefundPart(db, id, amount, refundOk) && CanRelease(db, id, HeldBalance(db, id) - amount, cashOutOk)
  {
    hide Inv, ReleaseOrder, RefundPart, CompleteDisputed, CanRelease, CanRefundPart, ReleaseDeeds, Released, HeldBalance,
      DoesOwn;
    var a, held := CompleteDisputed(db, id), HeldBalance(db, id) - amount;
    CompleteDisputedKeeps(db, id);
    CompletionMovesNothing(db, id);
    SamePartners(db, id, amount, refundOk);
    SameHeld(a, db, id);
    SamePart(a, db, id, amount, refundOk);
    SameReleaseDeeds(a, db, id, held, cashOutOk);
    if CanRefundPart(db, id, amount, refundOk) {
      SplitAfterSettling(a, id, amount, refundOk, cashOutOk);
    } else {
      PartRefused(a, id, amount, refundOk);
    }
  }

  lemma SplitResolves(db: Db, s: Step)
    requires Inv(db) && s.DoResolveDispute? && s.how.SplitBetween?
    ensures Next(db, s).reply.Ok? <==> Closes(db, s.id, s.user, s.how, s.refundOk, s.cashOutOk)
  {
    hide Inv, ResolveDispute, ReleaseOrder, RefundPart, CompleteDisputed, CanRelease, CanRefundPart, HeldBalance;
    SplitReply(db, s.id, s.user, s.how.amount, s.refundOk, s.cashOutOk);
    if Resolvable(db, s.id) && 0 < s.how.amount {
      SplitChain(db, s.id, s.how.amount, s.refundOk, s.cashOutOk);
    }
  }

  /** Every call succeeds exactly when this table, read before it, says so. */
  lemma RepliesByTheTable(db: Db, s: Step)
    requires IsReachable(db)
    ensures Next(db, s).reply.Ok? <==> Accepts(db, s)
  {
    ReachableInv(db);
    hide Inv, IsReachable, Next, Accepts;
    if IsOrderCall(s) || s.DoCreateOrder? || s.DoTopUp? || s.DoCreatePixCharge? {
      OrderCallReplies(db, s);
    } else if s.DoProcessWebhook? {
      WebhookReplies(db, s);
    } else if s.DoPayWithBalance? {
      WalletReplies(db, s);
    } else if s.DoReleaseOrder? {
      ReleaseCallReplies(db, s);
    } else if s.DoRefundOrder? {
      RefundCallReplies(db, s);
    } else if s.DoResolveDispute? {
      ResolveReplies(db, s);
    } else {
      MoneyReplies(db, s);
    }
  }
}
