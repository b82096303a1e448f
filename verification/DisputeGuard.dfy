/** While a dispute is open, only resolving it can release the money of the order. */
module DisputeGuard {
  import opened Wrappers
  import opened Ledger
  import opened Orders
  import opened Settlement
  import opened Market
  import opened Evolution

  /** The ledger only grows, and every new release row is for the one order that may be released. */
  ghost predicate ReleasesOnly(l: seq<Entry>, later: seq<Entry>, who: Option<OrderId>) {
    l <= later && forall e :: e in later[|l|..] && IsRelease(e) ==> who.Some? && e.order == who
  }

  lemma ReleasesOnlyTransitive(a: seq<Entry>, b: seq<Entry>, c: seq<Entry>, who: Option<OrderId>)
    requires ReleasesOnly(a, b, who) && ReleasesOnly(b, c, who)
    ensures ReleasesOnly(a, c, who)
  {
    assert c[|a|..] == b[|a|..] + c[|b|..];
  }

  lemma Appended(l: seq<Entry>, es: seq<Entry>, who: Option<OrderId>)
    requires forall e :: e in es && IsRelease(e) ==> who.Some? && e.order == who
    ensures ReleasesOnly(l, l + es, who)
  {
    assert (l + es)[|l|..] == es;
  }

  lemma LedgerKept(l: seq<Entry>, who: Option<OrderId>)
    ensures ReleasesOnly(l, l, who)
    ensures l + [] == l
  {
  }

  lemma PostReleases(db: Db, id: OrderId, p: Posting)
    requires p.Posting? ==> forall e :: e in p.entries ==> e.order == Some(id)
    ensures ReleasesOnly(db.ledger, Post(db, id, p).db.ledger, Some(id))
  {
    if p.Posting? {
      Appended(db.ledger, p.entries, Some(id));
    }
  }

  lemma OwnRows(id: OrderId, o: Order, book: seq<Entry>, ignoreDispute: bool, s: Settings, seller: Option<User>,
      active: bool, providerOk: bool)
    ensures var p := Release(id, o, book, ignoreDispute, s, seller, active, providerOk);
            p.Posting? ==> forall e :: e in p.entries ==> e.order == Some(id)
  {
    hide FeeAmount, ReadRelease, PaidOut, EarnCommission, CashOut;
  }

  lemma ReleaseOrderReleases(db: Db, id: OrderId, ignoreDispute: bool, providerOk: bool)
    ensures ReleasesOnly(db.ledger, ReleaseOrder(db, id, ignoreDispute, providerOk).db.ledger, Some(id))
  {
    hide Release, ReleasesOnly;
    LedgerKept(db.ledger, Some(id));
    if id in db.orders {
      var o := db.orders[id];
      OwnRows(id, o, BookOf(db.ledger, id), ignoreDispute, db.settings, SellerRow(db, o), PartnerActive(db, o), providerOk);
      PostReleases(db, id, Release(id, o, BookOf(db.ledger, id), ignoreDispute, db.settings, SellerRow(db, o),
        PartnerActive(db, o), providerOk));
    }
  }

  lemma RefundRows(id: OrderId, o: Order, book: seq<Entry>, actor: Option<UserId>, providerOk: bool)
    ensures var p := RefundOrder(id, o, book, actor, providerOk).0;
            p.Posting? ==> forall e :: e in p.entries ==> e.source.Refund?
  {
  }

  lemma RefundWholeReleases(db: Db, id: OrderId, actor: Option<UserId>, providerOk: bool, who: Option<OrderId>)
    ensures ReleasesOnly(db.ledger, RefundWhole(db, id, actor, providerOk).db.ledger, who)
  {
    hide RefundOrder;
    if id in db.orders {
      RefundRows(id, db.orders[id], BookOf(db.ledger, id), actor, providerOk);
      var p := RefundOrder(id, db.orders[id], BookOf(db.ledger, id), actor, providerOk).0;
      if p.Posting? {
        Appended(db.ledger, p.entries, who);
      }
    }
  }

  lemma ResolveReleases(db: Db, id: OrderId, admin: UserId, how: Resolution, refundOk: bool, cashOutOk: bool)
    ensures ReleasesOnly(db.ledger, ResolveDispute(db, id, admin, how, refundOk, cashOutOk).db.ledger, Some(id))
  {
    hide ReleaseOrder, RefundWhole, RefundOrder, RefundPartially;
    if id in db.orders {
      match how {
        case RefundBuyer =>
          RefundWholeReleases(db, id, Some(admin), refundOk, Some(id));
        case ReleaseSeller =>
          var a := CompleteDisputed(db, id);
          ReleaseOrderReleases(a, id, true, cashOutOk);
        case SplitBetween(amount) =>
          var a := CompleteDisputed(db, id);
          RefundPartReleases(a, id, amount, refundOk);
          var b := RefundPart(a, id, amount, refundOk).db;
          ReleaseOrderReleases(b, id, true, cashOutOk);
          ReleasesOnlyTransitive(db.ledger, b.ledger, ReleaseOrder(b, id, true, cashOutOk).db.ledger, Some(id));
      }
    }
  }

  lemma RefundPartReleases(db: Db, id: OrderId, amount: int, providerOk: bool)
    ensures ReleasesOnly(db.ledger, RefundPart(db, id, amount, providerOk).db.ledger, Some(id))
  {
    if id in db.orders {
      PostReleases(db, id, RefundPartially(id, db.orders[id], BookOf(db.ledger, id), amount, providerOk));
    }
  }

  lemma ProcessWebhookReleases(db: Db, event: EventId, stocked: bool)
    ensures ReleasesOnly(db.ledger, ProcessWebhook(db, event, stocked).db.ledger, None)
  {
    if event in db.webhooks && db.webhooks[event].txid.Some? && Issued(db, db.webhooks[event].txid.value) {
      var t := db.webhooks[event].txid.value;
      var p := ConfirmByWebhook(db.orders[t.order], BookOf(db.ledger, t.order), t);
      if p.Posting? {
        Appended(db.ledger, p.entries, None);
      }
    }
  }

  lemma WalletRows(id: OrderId, o: Order, seller: UserId, book: seq<Entry>)
    ensures var p := WalletPosting(id, o, seller, book);
            p.Posting? ==> forall e :: e in p.entries ==> !IsRelease(e)
  {
  }

  lemma PayWithBalanceReleases(db: Db, id: OrderId, user: UserId, stocked: bool)
    ensures ReleasesOnly(db.ledger, PayWithBalance(db, id, user, stocked).db.ledger, None)
  {
    hide WalletPosting;
    if id in db.orders && db.orders[id].seller.Some? {
      WalletRows(id, db.orders[id], db.orders[id].seller.value, BookOf(db.ledger, id));
      var p := WalletPosting(id, db.orders[id], db.orders[id].seller.value, BookOf(db.ledger, id));
      if p.Posting? {
        Appended(db.ledger, p.entries, None);
      }
    }
  }

  /** The order a step may release, if any. */
  function MayRelease(s: Step): Option<OrderId> {
    if s.DoReleaseOrder? || s.DoResolveDispute? then Some(s.id) else None
  }

  lemma OrderCallReleases(db: Db, s: Step)
    requires IsOrderCall(s)
    ensures ReleasesOnly(db.ledger, Next(db, s).db.ledger, None)
  {
    assert db.ledger + [] == db.ledger;
  }

  lemma NewOrderReleases(db: Db, id: OrderId, buyer: UserId, c: Checkout, expiresAt: int)
    ensures ReleasesOnly(db.ledger, CreateOrder(db, id, buyer, c, expiresAt).db.ledger, None)
  {
    hide NewOrder;
    LedgerKept(db.ledger, None);
  }

  lemma TopUpReleases(db: Db, id: OrderId, user: UserId, amount: nat, expiresAt: int, providerOk: bool)
    ensures ReleasesOnly(db.ledger, TopUp(db, id, user, amount, expiresAt, providerOk).db.ledger, None)
  {
    hide CreateCharge;
    LedgerKept(db.ledger, None);
  }

  lemma ChargeReleases(db: Db, id: OrderId, payer: UserId, providerOk: bool)
    ensures ReleasesOnly(db.ledger, CreatePixCharge(db, id, payer, providerOk).db.ledger, None)
  {
    assert db.ledger + [] == db.ledger;
  }

  lemma UserPayoutReleases(db: Db, user: UserId, amount: nat, instant: bool, age: int, providerOk: bool)
    ensures ReleasesOnly(db.ledger, UserPayout(db, user, amount, instant, age, providerOk).db.ledger, None)
  {
    var fee := if instant then INSTANT_FEE_CENTS else 0;
    Appended(db.ledger,
      [PayoutEntry(user, Payout, amount)] + (if fee > 0 then [PayoutEntry(user, Fee, fee)] else []), None);
  }

  lemma AdjustBalanceReleases(db: Db, user: UserId, amount: int)
    ensures ReleasesOnly(db.ledger, AdjustBalance(db, user, amount).db.ledger, None)
  {
  }

  lemma NextReleases(db: Db, s: Step)
    ensures ReleasesOnly(db.ledger, Next(db, s).db.ledger, MayRelease(s))
  {
    if IsOrderCall(s) {
      OrderCallReleases(db, s);
      return;
    }
    hide ReleaseOrder, RefundWhole, ResolveDispute, ProcessWebhook, PayWithBalance, Save, UserPayout, AdjustBalance,
      CreateOrder, TopUp, CreatePixCharge, ReleasesOnly;
    LedgerKept(db.ledger, MayRelease(s));
    match s
    case DoCreateOrder(id, buyer, checkout, expiresAt) => NewOrderReleases(db, id, buyer, checkout, expiresAt);
    case DoTopUp(id, user, cents, expiresAt, providerOk) => TopUpReleases(db, id, user, cents, expiresAt, providerOk);
    case DoProcessWebhook(event, stocked) => ProcessWebhookReleases(db, event, stocked);
    case DoPayWithBalance(id, user, stocked) => PayWithBalanceReleases(db, id, user, stocked);
    case DoUserPayout(user, cents, instant, age, providerOk) =>
      UserPayoutReleases(db, user, cents, instant, age, providerOk);
    case DoAdjustBalance(user, amount) => AdjustBalanceReleases(db, user, amount);
    case DoCreatePixCharge(id, user, providerOk) => ChargeReleases(db, id, user, providerOk);
    case DoReleaseOrder(id, providerOk) => ReleaseOrderReleases(db, id, false, providerOk);
    case DoRefundOrder(id, actor, providerOk) => RefundWholeReleases(db, id, actor, providerOk, None);
    case DoResolveDispute(id, user, how, refundOk, cashOutOk) => ResolveReleases(db, id, user, how, refundOk, cashOutOk);
    case _ =>
  }

  // ----- the dispute itself -----

  /** The dispute of an order, once opened, is not touched. */
  ghost predicate DisputeKept(db: Db, later: Db, id: OrderId) {
    id in db.orders && db.orders[id].dispute.Some? ==>
      id in later.orders && later.orders[id].dispute == db.orders[id].dispute
  }

  lemma DisputeIsKept(db: Db, later: Db, id: OrderId)
    ensures db.orders == later.orders ==> DisputeKept(db, later, id)
  {
  }

  lemma FollowUpKeepsDispute(db: Db, on: OrderId, applied: bool, stocked: bool, id: OrderId)
    ensures DisputeKept(db, FollowUp(db, on, applied, stocked).db, id)
  {
  }

  lemma ProcessWebhookKeepsDispute(db: Db, event: EventId, stocked: bool, id: OrderId)
    ensures DisputeKept(db, ProcessWebhook(db, event, stocked).db, id)
  {
    hide FollowUp;
    if event in db.webhooks && db.webhooks[event].txid.Some? && Issued(db, db.webhooks[event].txid.value) {
      var seen := db.(webhooks := db.webhooks[event := db.webhooks[event].(processed := true)]);
      var t := db.webhooks[event].txid.value;
      var o := db.orders[t.order];
      var p := ConfirmByWebhook(o, BookOf(db.ledger, t.order), t);
      if p.Posting? {
        FollowUpKeepsDispute(WithOrder(seen, t.order, p.order, p.entries), t.order, ApplyPayment(o).applied, stocked, id);
      }
    }
  }

  lemma PayWithBalanceKeepsDispute(db: Db, on: OrderId, user: UserId, stocked: bool, id: OrderId)
    ensures DisputeKept(db, PayWithBalance(db, on, user, stocked).db, id)
  {
    hide FollowUp, HoldPayment;
    if on in db.orders && db.orders[on].seller.Some? {
      var p := WalletPosting(on, db.orders[on], db.orders[on].seller.value, BookOf(db.ledger, on));
      if p.Posting? {
        FollowUpKeepsDispute(WithOrder(db, on, p.order, p.entries), on, true, stocked, id);
      }
    }
  }

  lemma ReleaseKeepsDispute(db: Db, on: OrderId, ignoreDispute: bool, providerOk: bool, id: OrderId)
    ensures DisputeKept(db, ReleaseOrder(db, on, ignoreDispute, providerOk).db, id)
  {
    hide ReleaseEntries, FeeAmount, PayoutAmount, ReadRelease;
  }

  lemma RefundKeepsDispute(db: Db, on: OrderId, actor: Option<UserId>, providerOk: bool, id: OrderId)
    ensures DisputeKept(db, RefundWhole(db, on, actor, providerOk).db, id)
  {
    if on in db.orders {
      RefundOrderKeepsDispute(on, db.orders[on], BookOf(db.ledger, on), actor, providerOk);
    }
    hide RefundOrder;
  }

  lemma RefundOrderKeepsDispute(on: OrderId, o: Order, book: seq<Entry>, actor: Option<UserId>, providerOk: bool)
    ensures var p := RefundOrder(on, o, book, actor, providerOk).0; p.Posting? ==> p.order.dispute == o.dispute
  {
  }

  lemma RefundPartKeepsDispute(db: Db, on: OrderId, amount: int, providerOk: bool, id: OrderId)
    ensures DisputeKept(db, RefundPart(db, on, amount, providerOk).db, id)
  {
  }

  /** Resolving a dispute touches no other. */
  lemma ResolveKeepsOthers(db: Db, on: OrderId, admin: UserId, how: Resolution, refundOk: bool, cashOutOk: bool, id: OrderId)
    requires on != id
    ensures DisputeKept(db, ResolveDispute(db, on, admin, how, refundOk, cashOutOk).db, id)
  {
    hide ReleaseOrder, RefundWhole, RefundPart;
    if on in db.orders {
      match how {
        case RefundBuyer =>
          RefundKeepsDispute(db, on, Some(admin), refundOk, id);
        case ReleaseSeller =>
          ReleaseKeepsDispute(CompleteDisputed(db, on), on, true, cashOutOk, id);
        case SplitBetween(amount) =>
          var a := CompleteDisputed(db, on);
          RefundPartKeepsDispute(a, on, amount, refundOk, id);
          ReleaseKeepsDispute(RefundPart(a, on, amount, refundOk).db, on, true, cashOutOk, id);
      }
    }
  }

  lemma OrderCallKeepsDispute(db: Db, s: Step, id: OrderId)
    requires IsOrderCall(s)
    ensures DisputeKept(db, Next(db, s).db, id)
  {
  }

  lemma PayoutsKeepOrders(db: Db, s: Step)
    requires s.DoUserPayout? || s.DoPlatformPayout? || s.DoAdjustBalance?
    ensures Next(db, s).db.orders == db.orders
  {
  }

  lemma NewOrderKeepsDispute(db: Db, on: OrderId, buyer: UserId, c: Checkout, expiresAt: int, id: OrderId)
    ensures DisputeKept(db, CreateOrder(db, on, buyer, c, expiresAt).db, id)
  {
    hide NewOrder;
  }

  lemma TopUpKeepsDispute(db: Db, on: OrderId, user: UserId, amount: nat, expiresAt: int, providerOk: bool, id: OrderId)
    ensures DisputeKept(db, TopUp(db, on, user, amount, expiresAt, providerOk).db, id)
  {
    hide CreateCharge;
  }

  lemma ChargeKeepsDispute(db: Db, on: OrderId, payer: UserId, providerOk: bool, id: OrderId)
    ensures DisputeKept(db, CreatePixCharge(db, on, payer, providerOk).db, id)
  {
  }

  lemma NextKeepsDispute(db: Db, s: Step, id: OrderId)
    requires s.DoResolveDispute? ==> s.id != id
    ensures DisputeKept(db, Next(db, s).db, id)
  {
    if IsOrderCall(s) {
      OrderCallKeepsDispute(db, s, id);
      return;
    }
    hide ReleaseOrder, RefundWhole, ResolveDispute, ProcessWebhook, PayWithBalance, CreateOrder, TopUp, CreatePixCharge,
      UserPayout, PlatformPayout, AdjustBalance, DisputeKept;
    DisputeIsKept(db, Next(db, s).db, id);
    match s
    case DoCreateOrder(on, buyer, checkout, expiresAt) => NewOrderKeepsDispute(db, on, buyer, checkout, expiresAt, id);
    case DoTopUp(on, user, cents, expiresAt, providerOk) =>
      TopUpKeepsDispute(db, on, user, cents, expiresAt, providerOk, id);
    case DoCreatePixCharge(on, user, providerOk) => ChargeKeepsDispute(db, on, user, providerOk, id);
    case DoUserPayout(user, cents, instant, age, providerOk) => PayoutsKeepOrders(db, s);
    case DoPlatformPayout(cents, providerOk) => PayoutsKeepOrders(db, s);
    case DoAdjustBalance(user, amount) => PayoutsKeepOrders(db, s);
    case DoProcessWebhook(event, stocked) => ProcessWebhookKeepsDispute(db, event, stocked, id);
    case DoPayWithBalance(on, user, stocked) => PayWithBalanceKeepsDispute(db, on, user, stocked, id);
    case DoReleaseOrder(on, providerOk) => ReleaseKeepsDispute(db, on, false, providerOk, id);
    case DoRefundOrder(on, actor, providerOk) => RefundKeepsDispute(db, on, actor, providerOk, id);
    case DoResolveDispute(on, user, how, refundOk, cashOutOk) =>
      ResolveKeepsOthers(db, on, user, how, refundOk, cashOutOk, id);
    case _ =>
  }

  // ----- the guard -----

  lemma RefusedWhileDisputed(db: Db, s: Step)
    requires s.DoReleaseOrder? && s.id in db.orders && DisputeIsOpen(db.orders[s.id])
    ensures Next(db, s) == Response(db, Err(BadRequest))
  {
  }

  /** Every step but the resolution of this dispute leaves the disputed order as unreleased as it was. */
  lemma OpenDisputeBlocksRelease(db: Db, s: Step, id: OrderId)
    requires id in db.orders && DisputeIsOpen(db.orders[id])
    requires s.DoResolveDispute? ==> s.id != id
    ensures Released(BookOf(Next(db, s).db.ledger, id)) <==> Released(BookOf(db.ledger, id))
  {
    hide Next;
    var l, later := db.ledger, Next(db, s).db.ledger;
    if s.DoReleaseOrder? && s.id == id {
      RefusedWhileDisputed(db, s);
    } else {
      NextReleases(db, s);
      var es := later[|l|..];
      assert later == l + es;
      BookOfConcat(l, es, id);
      Suffix(BookOf(l, id), BookOf(es, id));
    }
  }

  /** So an open dispute stays open, and its money unreleased, through any run that does not resolve it. */
  lemma {:induction false} OpenDisputeHolds(db: Db, steps: seq<Step>, id: OrderId)
    requires id in db.orders && DisputeIsOpen(db.orders[id])
    requires forall s :: s in steps && s.DoResolveDispute? ==> s.id != id
    ensures id in Run(db, steps).orders && DisputeIsOpen(Run(db, steps).orders[id])
    ensures Released(BookOf(Run(db, steps).ledger, id)) <==> Released(BookOf(db.ledger, id))
  {
    hide Next;
    if steps != [] {
      var init, last := steps[..|steps| - 1], steps[|steps| - 1];
      OpenDisputeHolds(db, init, id);
      NextKeepsDispute(Run(db, init), last, id);
      OpenDisputeBlocksRelease(Run(db, init), last, id);
    }
  }
}
