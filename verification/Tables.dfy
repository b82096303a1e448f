/** The other tables: what each call does to webhooks, users and payouts, which orders it creates, and what it replies;
    read, like the deeds, before the call. */
module Tables {
  import opened Wrappers
  import opened Ledger
  import opened Orders
  import opened Settlement
  import opened Market
  import opened MarketInvariant
  import opened Theorems
  import opened LifeCycle
  import opened ReleaseConditions
  import opened Balances
  import opened Deeds
  import opened DeedsProofs
  import A = Attribution

  // ----- checkout -----

  predicate Buyable(db: Db, id: OrderId, c: Checkout) {
    c.published && (c.delivery == Auto ==> c.quantity <= c.available) && id !in db.orders
  }

  predicate IsGiven(n: Option<nat>) { n.Some? && n.value != 0 }

  /** A checkout that is accepted adds one order, priced and divided as the terms say, and logged as created and as
      awaiting payment; one that is refused changes nothing. */
  lemma CreatedByTerms(db: Db, id: OrderId, buyer: UserId, c: Checkout, expiresAt: int, d: int)
    ensures var r := CreateOrder(db, id, buyer, c, expiresAt);
            && (r.reply.Ok? <==> Buyable(db, id, c)) && (r.reply.Err? ==> r.db == db)
            && (r.reply.Ok? ==>
                  && r.db == db.(orders := r.db.orders, ledger := r.db.ledger) && r.db.ledger == db.ledger
                  && id in r.db.orders && r.db.orders == db.orders[id := r.db.orders[id]]
                  && var o := r.db.orders[id];
                  && o.buyer == buyer && o.seller == Some(c.seller) && o.delivery == Some(c.delivery)
                  && o.status == AwaitingPayment && o.expiresAt == Some(expiresAt)
                  && o.payments == [] && o.dispute.None? && o.commissions == []
                  && o.events == [Event(CreatedEvent, None, Some(Created)),
                                  Event(AwaitingPaymentEvent, Some(Created), Some(AwaitingPayment))]
                  && o.attribution.Some?
                  && var a, price := o.attribution.value, c.unitPrice * c.quantity;
                  && a.partner == (if c.partner.Some? then Some(c.partner.value.0) else None)
                  && a.originalTotal == price && o.total == Max(price - a.discount, 0)
                  && A.IsNearest(a.feeBase, price * c.feeBps) && a.feeFinal == Max(a.feeBase - a.discount, 0)
                  && (IsGiven(c.discountCents) ==> a.discount == Min(c.discountCents.value, a.feeBase))
                  && (!IsGiven(c.discountCents) && IsGiven(c.discountBps) ==>
                        A.IsNearest(d, price * c.discountBps.value) ==> a.discount == Min(d, a.feeBase))
                  && (!IsGiven(c.discountCents) && !IsGiven(c.discountBps) ==> a.discount == Min(0, a.feeBase))
                  && (c.partner.Some? ==> A.IsNearest(a.commission, a.feeFinal * c.partner.value.1))
                  && (c.partner.None? ==> a.commission == 0))
  {
    A.TotalsByArithmetic(TermsOf(c), d);
    hide A.CalculateTotals, A.IsNearest;
    assert db.ledger + [] == db.ledger;
  }

  /** A top-up is written before its charge is asked for, so it stays, without a charge, when the provider declines. */
  lemma ToppedUpByTerms(db: Db, id: OrderId, user: UserId, amount: nat, expiresAt: int, providerOk: bool)
    ensures var r := TopUp(db, id, user, amount, expiresAt, providerOk);
            && (r.reply.Ok? <==> id !in db.orders && providerOk)
            && (id in db.orders ==> r.db == db)
            && (id !in db.orders ==>
                  r.db == db.(orders := db.orders[id := Order(user, None, Created, amount, None, Some(expiresAt), None,
                    if providerOk then [Payment(Efi, Pending, amount, false)] else [], None, [], [])]))
  {
    assert db.ledger + [] == db.ledger;
    assert [] + [Payment(Efi, Pending, amount, false)] == [Payment(Efi, Pending, amount, false)];
  }

  // ----- webhook events -----

  /** A job marks its event as processed when it has nothing to confirm, or confirms. */
  predicate Settles(db: Db, event: EventId) {
    && event in db.webhooks && !db.webhooks[event].processed
    && (db.webhooks[event].paid ==>
          db.webhooks[event].txid.Some? && Confirms(db, event, db.webhooks[event].txid.value.order))
  }

  function EventsAfter(db: Db, s: Step): map<EventId, WebhookEvent> {
    match s
    case DoRegisterWebhook(event, txid, paid) =>
      if event in db.webhooks then db.webhooks else db.webhooks[event := WebhookEvent(txid, paid, false)]
    case DoProcessWebhook(event, _) =>
      if Settles(db, event) then db.webhooks[event := db.webhooks[event].(processed := true)] else db.webhooks
    case _ => db.webhooks
  }

  // ----- users -----

  /** The seller of a released order that is refunded can no longer be paid out. */
  ghost predicate Blocks(db: Db, s: Step, u: UserId) {
    && OrderOf(db, s).Some? && OrderOf(db, s).value in db.orders
    && db.orders[OrderOf(db, s).value].seller == Some(u)
    && Refunding(true) in DeedsOf(db, s, OrderOf(db, s).value)
  }

  ghost predicate UsersAfter(db: Db, s: Step, later: map<UserId, User>) {
    if s.DoSetUser? then later == db.users[s.user := s.row]
    else
      && later.Keys == db.users.Keys
      && forall u :: u in db.users ==>
           later[u] == if Blocks(db, s, u) then User(db.users[u].hasPixKey, true) else db.users[u]
  }

  // ----- payouts -----

  const FIVE_DAYS_MS := 5 * 24 * 60 * 60 * 1000

  /** One row a request that is not refused, sent or not; the fee is not part of its amount. */
  function PayoutsAfter(db: Db, s: Step): seq<PayoutRow> {
    match s
    case DoUserPayout(user, cents, instant, age, providerOk) =>
      if user in db.users && !db.users[user].payoutBlocked && FIVE_DAYS_MS <= age
        && cents + (if instant then 100 else 0) <= Spendable(db.ledger, user)
      then db.payouts + [PayoutRow(ToUser(user), providerOk, cents)] else db.payouts
    case DoPlatformPayout(cents, providerOk) =>
      if cents <= Max(Sum(db.ledger, AvailableFeeWeight) - PlatformSent(db.payouts), 0)
      then db.payouts + [PayoutRow(ToPlatform, providerOk, cents)] else db.payouts
    case _ => db.payouts
  }

  // ----- that the calls follow these tables -----

  lemma SettlesIff(db: Db, event: EventId, stocked: bool)
    requires Inv(db)
    ensures ProcessWebhook(db, event, stocked).db.webhooks == EventsAfter(db, DoProcessWebhook(event, stocked))
  {
    hide Inv, FollowUp, ConfirmByWebhook;
    if event in db.webhooks && db.webhooks[event].txid.Some? && Issued(db, db.webhooks[event].txid.value) {
      var t := db.webhooks[event].txid.value;
      var o, book := db.orders[t.order], BookOf(db.ledger, t.order);
      OrderHolds(db, t.order);
      NotSeenPaid(t.order, o, book);
      ConfirmIff(t.order, o, book, t.n);
      var seen := db.(webhooks := db.webhooks[event := db.webhooks[event].(processed := true)]);
      var p := ConfirmByWebhook(o, book, t);
      if p.Posting? {
        ConfirmApplies(o, book, t);
        FollowUpOnlyOrders(WithOrder(seen, t.order, p.order, p.entries), t.order, ApplyPayment(o).applied, stocked);
      }
    }
  }

  lemma ConfirmIff(id: OrderId, o: Order, book: seq<Entry>, n: nat)
    requires o.status != Paid && n < |o.payments|
    ensures ConfirmByWebhook(o, book, Txid(id, n)).Posting? <==> Unpaid(o) || o.status == InDelivery
  {
  }

  /** Orders and ledger are all that most calls write. */
  ghost predicate OnlyOrders(db: Db, later: Db) {
    && later.webhooks == db.webhooks && later.users == db.users && later.partners == db.partners
    && later.payouts == db.payouts && later.settings == db.settings
  }

  lemma FollowUpOnlyOrders(db: Db, id: OrderId, applied: bool, stocked: bool)
    ensures OnlyOrders(db, FollowUp(db, id, applied, stocked).db)
  {
  }

  lemma PayOnlyOrders(db: Db, id: OrderId, user: UserId, stocked: bool)
    ensures OnlyOrders(db, PayWithBalance(db, id, user, stocked).db)
  {
    hide FollowUp, WalletPosting, Spendable;
    if id in db.orders && db.orders[id].seller.Some? {
      var p := WalletPosting(id, db.orders[id], db.orders[id].seller.value, BookOf(db.ledger, id));
      if p.Posting? {
        FollowUpOnlyOrders(WithOrder(db, id, p.order, p.entries), id, true, stocked);
      }
    }
  }

  lemma ReleaseOnlyOrders(db: Db, id: OrderId, ignoreDispute: bool, providerOk: bool)
    ensures OnlyOrders(db, ReleaseOrder(db, id, ignoreDispute, providerOk).db)
  {
    hide Release;
  }

  lemma PartOnlyOrders(db: Db, id: OrderId, amount: int, providerOk: bool)
    ensures OnlyOrders(db, RefundPart(db, id, amount, providerOk).db)
  {
    hide RefundPartially;
  }

  lemma SplitOnlyOrders(db: Db, id: OrderId, admin: UserId, how: Resolution, refundOk: bool, cashOutOk: bool)
    requires !how.RefundBuyer?
    ensures OnlyOrders(db, ResolveDispute(db, id, admin, how, refundOk, cashOutOk).db)
  {
    hide ReleaseOrder, RefundPart;
    if id in db.orders {
      var a := CompleteDisputed(db, id);
      ReleaseOnlyOrders(a, id, true, cashOutOk);
      if how.SplitBetween? {
        PartOnlyOrders(a, id, how.amount, refundOk);
        ReleaseOnlyOrders(RefundPart(a, id, how.amount, refundOk).db, id, true, cashOutOk);
      }
    }
  }

  lemma OrderCallOnlyOrders(db: Db, s: Step)
    requires IsOrderCall(s) || s.DoCreateOrder? || s.DoTopUp? || s.DoCreatePixCharge?
    ensures OnlyOrders(db, Next(db, s).db)
  {
    hide NewOrder, CreateCharge, Cancel, Expire, AddEvidence, MarkDelivered, ConfirmReceipt, AutoComplete, OpenDispute;
  }

  /** What a refund writes besides the order and the ledger. */
  lemma RefundUsers(db: Db, id: OrderId, actor: Option<UserId>, providerOk: bool)
    requires Inv(db)
    ensures var later, blocks := RefundWhole(db, id, actor, providerOk).db,
                                 id in db.orders && CanRefund(db, id, actor, providerOk) && Released(BookOf(db.ledger, id));
            && OnlyOrders(db.(users := later.users), later) && later.users.Keys == db.users.Keys
            && forall u :: u in db.users ==>
                 later.users[u] ==
                   if blocks && db.orders[id].seller == Some(u) then User(db.users[u].hasPixKey, true) else db.users[u]
  {
    hide Inv, Released, BookOf, Settlement.RefundOrder, Post;
    if id in db.orders {
      RefundBlocks(id, db.orders[id], BookOf(db.ledger, id), actor, providerOk);
      PostOnlyOrders(db, id, RefundOrder(id, db.orders[id], BookOf(db.ledger, id), actor, providerOk).0);
    }
  }

  lemma PostOnlyOrders(db: Db, id: OrderId, p: Posting)
    ensures OnlyOrders(db, Post(db, id, p).db)
  {
  }

  lemma RefundBlocks(id: OrderId, o: Order, book: seq<Entry>, actor: Option<UserId>, providerOk: bool)
    ensures RefundOrder(id, o, book, actor, providerOk).1 <==>
              actor != Some(o.buyer) && o.payments != [] && Released(book)
  {
    hide Released, FullRefund, Chargeback;
  }

  lemma RefundBlocksIff(db: Db, id: OrderId, actor: Option<UserId>, providerOk: bool, more: seq<Deed>)
    requires Refunding(true) !in more
    ensures Refunding(true) in RefundDeeds(db, id, actor, providerOk) + more <==>
              CanRefund(db, id, actor, providerOk) && Released(BookOf(db.ledger, id))
  {
    hide CanRefund, Released, BookOf;
  }

  /** What a resolution for the buyer comes to: a refund, or nothing. */
  lemma ResolveIsRefund(db: Db, id: OrderId, admin: UserId, refundOk: bool, cashOutOk: bool)
    requires Inv(db)
    ensures var later := ResolveDispute(db, id, admin, RefundBuyer, refundOk, cashOutOk).db;
            if id in db.orders && db.orders[id].dispute in {Some(Open), Some(Review)}
              && db.orders[id].status != Orders.Refunded && CanRefund(db, id, Some(admin), refundOk)
            then OnlyOrders(RefundWhole(db, id, Some(admin), refundOk).db, later)
            else later == db
  {
    hide Inv, RefundWhole, CanRefund;
    if id in db.orders && db.orders[id].status != Orders.Refunded {
      RefundReplies(db, id, Some(admin), refundOk);
    }
  }

  lemma ResolveUsers(db: Db, id: OrderId, admin: UserId, refundOk: bool, cashOutOk: bool)
    requires Inv(db)
    ensures var s := DoResolveDispute(id, admin, RefundBuyer, refundOk, cashOutOk);
            OnlyOrders(db.(users := Next(db, s).db.users), Next(db, s).db) && UsersAfter(db, s, Next(db, s).db.users)
  {
    hide Inv, RefundWhole, CanRefund, BookOf, Released, ResolveDispute, RefundDeeds;
    RefundUsers(db, id, Some(admin), refundOk);
    ResolveIsRefund(db, id, admin, refundOk, cashOutOk);
    RefundBlocksIff(db, id, Some(admin), refundOk, [Closing(Resolved)]);
  }

  lemma RefundCallUsers(db: Db, s: Step)
    requires Inv(db) && s.DoRefundOrder?
    ensures OnlyOrders(db.(users := Next(db, s).db.users), Next(db, s).db) && UsersAfter(db, s, Next(db, s).db.users)
  {
    hide Inv, RefundWhole, CanRefund, BookOf, Released, RefundDeeds;
    RefundUsers(db, s.id, s.actor, s.providerOk);
    RefundBlocksIff(db, s.id, s.actor, s.providerOk, []);
    assert RefundDeeds(db, s.id, s.actor, s.providerOk) + [] == RefundDeeds(db, s.id, s.actor, s.providerOk);
  }

  /** The deeds of all other calls block nobody. */
  lemma BlocksNobody(db: Db, s: Step, u: UserId)
    requires !s.DoRefundOrder? && !(s.DoResolveDispute? && s.how.RefundBuyer?)
    ensures !Blocks(db, s, u)
  {
    hide CanRelease, CanRefundPart, HeldBalance, Released, Resolvable, PaysFromWallet;
  }

  ghost predicate OthersFollow(db: Db, s: Step, later: Db) {
    && later.webhooks == EventsAfter(db, s) && UsersAfter(db, s, later.users) && later.payouts == PayoutsAfter(db, s)
    && later.partners == (if s.DoSetPartner? then db.partners[s.partner := s.active] else db.partners)
    && later.settings == (if s.DoSetSettings? then s.settings else db.settings)
  }

  lemma QuietFollows(db: Db, s: Step, later: Db)
    requires OnlyOrders(db, later) && !s.DoSetUser? && !s.DoSetPartner? && !s.DoSetSettings?
    requires !s.DoRegisterWebhook? && !s.DoProcessWebhook? && !s.DoUserPayout? && !s.DoPlatformPayout?
    requires !s.DoRefundOrder? && !(s.DoResolveDispute? && s.how.RefundBuyer?)
    ensures OthersFollow(db, s, later)
  {
    hide Blocks;
    BlocksNobodyAtAll(db, s);
  }

  lemma BlocksNobodyAtAll(db: Db, s: Step)
    requires !s.DoRefundOrder? && !(s.DoResolveDispute? && s.how.RefundBuyer?)
    ensures forall u :: !Blocks(db, s, u)
  {
    hide Blocks;
    forall u ensures !Blocks(db, s, u) {
      BlocksNobody(db, s, u);
    }
  }

  lemma PayoutFollows(db: Db, s: Step)
    requires s.DoUserPayout? || s.DoPlatformPayout?
    ensures OthersFollow(db, s, Next(db, s).db)
  {
    hide Blocks, Spendable, PlatformSent, Sum;
    BlocksNobodyAtAll(db, s);
  }

  lemma SettingFollows(db: Db, s: Step)
    requires s.DoAdjustBalance? || s.DoSetUser? || s.DoSetPartner? || s.DoSetSettings? || s.DoRegisterWebhook?
    ensures OthersFollow(db, s, Next(db, s).db)
  {
    hide Blocks;
    BlocksNobodyAtAll(db, s);
  }

  lemma ConfirmApplies(o: Order, book: seq<Entry>, t: Txid)
    requires t.n < |o.payments| && ConfirmByWebhook(o, book, t).Posting?
    ensures ApplyPayment(o).Confirmation?
  {
  }

  lemma WebhookOnlyOrders(db: Db, event: EventId, stocked: bool)
    ensures var later := ProcessWebhook(db, event, stocked).db; OnlyOrders(db.(webhooks := later.webhooks), later)
  {
    hide FollowUp, ConfirmByWebhook;
    if event in db.webhooks && db.webhooks[event].txid.Some? && Issued(db, db.webhooks[event].txid.value) {
      var t := db.webhooks[event].txid.value;
      var o, book := db.orders[t.order], BookOf(db.ledger, t.order);
      var seen := db.(webhooks := db.webhooks[event := db.webhooks[event].(processed := true)]);
      var p := ConfirmByWebhook(o, book, t);
      if p.Posting? {
        ConfirmApplies(o, book, t);
        FollowUpOnlyOrders(WithOrder(seen, t.order, p.order, p.entries), t.order, ApplyPayment(o).applied, stocked);
      }
    }
  }

  lemma WebhookFollows(db: Db, s: Step)
    requires Inv(db) && s.DoProcessWebhook?
    ensures OthersFollow(db, s, Next(db, s).db)
  {
    hide Inv, Blocks, EventsAfter, ProcessWebhook;
    BlocksNobodyAtAll(db, s);
    SettlesIff(db, s.event, s.stocked);
    WebhookOnlyOrders(db, s.event, s.stocked);
  }

  /** Webhook events, users, payouts, partners and settings after any call are those of the tables. */
  lemma OtherTablesFollow(db: Db, s: Step)
    requires IsReachable(db)
    ensures OthersFollow(db, s, Next(db, s).db)
  {
    ReachableInv(db);
    hide Inv, IsReachable, OthersFollow, OnlyOrders, UsersAfter, ReleaseOrder, RefundWhole, ResolveDispute, PayWithBalance,
      ProcessWebhook, CreateOrder, TopUp, CreatePixCharge, UserPayout, PlatformPayout, AdjustBalance, RegisterWebhook;
    if IsOrderCall(s) || s.DoCreateOrder? || s.DoTopUp? || s.DoCreatePixCharge? {
      hide Next;
      OrderCallOnlyOrders(db, s);
      QuietFollows(db, s, Next(db, s).db);
      return;
    }
    match s
    case DoProcessWebhook(_, _) => WebhookFollows(db, s);
    case DoPayWithBalance(id, user, stocked) =>
      PayOnlyOrders(db, id, user, stocked);
      QuietFollows(db, s, Next(db, s).db);
    case DoReleaseOrder(id, providerOk) =>
      ReleaseOnlyOrders(db, id, false, providerOk);
      QuietFollows(db, s, Next(db, s).db);
    case DoRefundOrder(_, _, _) =>
      RefundCallUsers(db, s);
      RefundFollows(db, s, Next(db, s).db);
    case DoResolveDispute(id, admin, how, refundOk, cashOutOk) =>
      if how.RefundBuyer? {
        ResolveUsers(db, id, admin, refundOk, cashOutOk);
        RefundFollows(db, s, Next(db, s).db);
      } else {
        SplitOnlyOrders(db, id, admin, how, refundOk, cashOutOk);
        QuietFollows(db, s, Next(db, s).db);
      }
    case DoUserPayout(_, _, _, _, _) => PayoutFollows(db, s);
    case DoPlatformPayout(_, _) => PayoutFollows(db, s);
    case _ => SettingFollows(db, s);
  }

  lemma RefundFollows(db: Db, s: Step, later: Db)
    requires s.DoRefundOrder? || s.DoResolveDispute?
    requires OnlyOrders(db.(users := later.users), later) && UsersAfter(db, s, later.users)
    ensures OthersFollow(db, s, later)
  {
    hide UsersAfter;
  }

  // ----- which orders there are -----

  ghost predicate NoneAdded(db: Db, later: Db) { later.orders.Keys == db.orders.Keys }

  lemma FollowUpAddsNone(db: Db, id: OrderId, applied: bool, stocked: bool)
    ensures NoneAdded(db, FollowUp(db, id, applied, stocked).db)
  {
  }

  lemma WebhookAddsNone(db: Db, event: EventId, stocked: bool)
    ensures NoneAdded(db, ProcessWebhook(db, event, stocked).db)
  {
    hide FollowUp, ConfirmByWebhook;
    if event in db.webhooks && db.webhooks[event].txid.Some? && Issued(db, db.webhooks[event].txid.value) {
      var t := db.webhooks[event].txid.value;
      var o, book := db.orders[t.order], BookOf(db.ledger, t.order);
      var seen := db.(webhooks := db.webhooks[event := db.webhooks[event].(processed := true)]);
      var p := ConfirmByWebhook(o, book, t);
      if p.Posting? {
        ConfirmApplies(o, book, t);
        FollowUpAddsNone(WithOrder(seen, t.order, p.order, p.entries), t.order, ApplyPayment(o).applied, stocked);
      }
    }
  }

  lemma PayAddsNone(db: Db, id: OrderId, user: UserId, stocked: bool)
    ensures NoneAdded(db, PayWithBalance(db, id, user, stocked).db)
  {
    hide FollowUp, WalletPosting, Spendable;
    if id in db.orders && db.orders[id].seller.Some? {
      var p := WalletPosting(id, db.orders[id], db.orders[id].seller.value, BookOf(db.ledger, id));
      if p.Posting? {
        FollowUpAddsNone(WithOrder(db, id, p.order, p.entries), id, true, stocked);
      }
    }
  }

  lemma SettlementAddsNone(db: Db, id: OrderId, ignoreDispute: bool, actor: Option<UserId>, amount: int, ok: bool)
    ensures NoneAdded(db, ReleaseOrder(db, id, ignoreDispute, ok).db)
    ensures NoneAdded(db, RefundWhole(db, id, actor, ok).db)
    ensures NoneAdded(db, RefundPart(db, id, amount, ok).db)
  {
    hide Release, Settlement.RefundOrder, RefundPartially;
  }

  lemma CompleteAddsNone(db: Db, id: OrderId)
    requires id in db.orders
    ensures NoneAdded(db, CompleteDisputed(db, id))
  {
  }

  lemma ResolveAddsNone(db: Db, id: OrderId, admin: UserId, how: Resolution, refundOk: bool, cashOutOk: bool)
    ensures NoneAdded(db, ResolveDispute(db, id, admin, how, refundOk, cashOutOk).db)
  {
    hide ReleaseOrder, RefundWhole, RefundPart, CompleteDisputed;
    if id in db.orders {
      SettlementAddsNone(db, id, true, Some(admin), 0, refundOk);
      CompleteAddsNone(db, id);
      var a := CompleteDisputed(db, id);
      SettlementAddsNone(a, id, true, None, 0, cashOutOk);
      if how.SplitBetween? {
        SettlementAddsNone(a, id, true, None, how.amount, refundOk);
        SettlementAddsNone(RefundPart(a, id, how.amount, refundOk).db, id, true, None, 0, cashOutOk);
      }
    }
  }

  lemma RestAddsNone(db: Db, s: Step)
    requires !s.DoCreateOrder? && !s.DoTopUp? && !s.DoProcessWebhook? && !s.DoPayWithBalance? && !s.DoReleaseOrder?
      && !s.DoRefundOrder? && !s.DoResolveDispute?
    ensures NoneAdded(db, Next(db, s).db)
  {
    hide CreateCharge, Cancel, Expire, AddEvidence, MarkDelivered, ConfirmReceipt, AutoComplete, OpenDispute, Spendable;
  }

  /** Only a checkout and a top-up add an order, and only the one they name. */
  lemma OnlyTheseCreate(db: Db, s: Step)
    ensures Next(db, s).db.orders.Keys ==
              db.orders.Keys + (if (s.DoCreateOrder? && Buyable(db, s.id, s.checkout)) || s.DoTopUp? then {s.id} else {})
  {
    if s.DoCreateOrder? {
      CreatedByTerms(db, s.id, s.buyer, s.checkout, s.expiresAt, 0);
      hide CreateOrder;
    } else if s.DoTopUp? {
      ToppedUpByTerms(db, s.id, s.user, s.cents, s.expiresAt, s.providerOk);
      hide TopUp;
    } else if s.DoProcessWebhook? {
      WebhookAddsNone(db, s.event, s.stocked);
      hide ProcessWebhook;
    } else if s.DoPayWithBalance? {
      PayAddsNone(db, s.id, s.user, s.stocked);
      hide PayWithBalance;
    } else if s.DoReleaseOrder? {
      SettlementAddsNone(db, s.id, false, None, 0, s.providerOk);
      hide ReleaseOrder;
    } else if s.DoRefundOrder? {
      SettlementAddsNone(db, s.id, false, s.actor, 0, s.providerOk);
      hide RefundWhole;
    } else if s.DoResolveDispute? {
      ResolveAddsNone(db, s.id, s.user, s.how, s.refundOk, s.cashOutOk);
      hide ResolveDispute;
    } else {
      hide Next;
      RestAddsNone(db, s);
    }
  }
}
