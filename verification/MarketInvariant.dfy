/** What is true of the whole database in every reachable state. */
module MarketInvariant {
  import opened Wrappers
  import opened Ledger
  import opened Orders
  import opened Settlement
  import opened Market
  import opened OrderInvariant
  import opened OrderPostings
  import opened Evolution
  import A = Attribution

  ghost predicate OrdersInv(db: Db) {
    forall id :: id in db.orders ==> OrderInv(id, db.orders[id], BookOf(db.ledger, id))
  }

  ghost predicate RowsBelong(db: Db) {
    forall e :: e in db.ledger ==> if e.order.Some? then e.order.value in db.orders else e.payment == None
  }

  /** Apart from debits an administrator forced, nobody has spent more than they had. */
  ghost predicate NoOverdraft(l: seq<Entry>) { forall u: UserId :: 0 <= Sum(l, UnforcedWeight(u)) }

  ghost predicate PlatformInv(db: Db) { PlatformSent(db.payouts) <= Sum(db.ledger, AvailableFeeWeight) }

  ghost predicate Inv(db: Db) { OrdersInv(db) && RowsBelong(db) && NoOverdraft(db.ledger) && PlatformInv(db) }

  lemma OrderHolds(db: Db, id: OrderId)
    requires Inv(db) && id in db.orders
    ensures OrderInv(id, db.orders[id], BookOf(db.ledger, id))
  {
  }

  /** Every order of the earlier database is still there, and has evolved. */
  ghost predicate Grows(db: Db, later: Db) {
    forall id :: id in db.orders ==>
      && id in later.orders
      && Evolves(db.orders[id], BookOf(db.ledger, id), later.orders[id], BookOf(later.ledger, id))
  }

  lemma GrowsTransitive(a: Db, b: Db, c: Db)
    requires Grows(a, b) && Grows(b, c)
    ensures Grows(a, c)
  {
    forall id | id in a.orders
      ensures id in c.orders && Evolves(a.orders[id], BookOf(a.ledger, id), c.orders[id], BookOf(c.ledger, id))
    {
      EvolvesTransitive(a.orders[id], BookOf(a.ledger, id), b.orders[id], BookOf(b.ledger, id),
        c.orders[id], BookOf(c.ledger, id));
    }
  }

  // ----- committing rows -----

  lemma {:induction false} FeesNonNegative(es: seq<Entry>)
    ensures 0 <= Sum(es, AvailableFeeWeight)
  {
    if es != [] {
      FeesNonNegative(es[..|es| - 1]);
    }
  }

  /** New rows are affordable when no user is left below what was forced on them. */
  ghost predicate Affordable(l: seq<Entry>, es: seq<Entry>) {
    forall u: UserId :: 0 <= Sum(l, UnforcedWeight(u)) + Sum(es, UnforcedWeight(u))
  }

  lemma AppendRows(l: seq<Entry>, es: seq<Entry>)
    requires Affordable(l, es)
    ensures NoOverdraft(l + es)
    ensures Sum(l, AvailableFeeWeight) <= Sum(l + es, AvailableFeeWeight)
  {
    forall u: UserId ensures 0 <= Sum(l + es, UnforcedWeight(u)) {
      SumConcat(l, es, UnforcedWeight(u));
      assert 0 <= Sum(l, UnforcedWeight(u)) + Sum(es, UnforcedWeight(u));
    }
    SumConcat(l, es, AvailableFeeWeight);
    FeesNonNegative(es);
  }

  lemma OtherBooks(l: seq<Entry>, es: seq<Entry>, id: OrderId)
    requires forall e :: e in es ==> e.order == Some(id)
    ensures BookOf(l + es, id) == BookOf(l, id) + es
    ensures forall k :: k != id ==> BookOf(l + es, k) == BookOf(l, k)
  {
    BookOfConcat(l, es, id);
    BookOfOwn(es, id);
    forall k | k != id ensures BookOf(l + es, k) == BookOf(l, k) {
      BookOfConcat(l, es, k);
      BookOfOther(es, k);
    }
  }

  /** Committing a legal move of one order keeps the database invariant and its history. */
  lemma CommitKeeps(db: Db, id: OrderId, p: Order, es: seq<Entry>)
    requires Inv(db) && id in db.orders
    requires OrderStep(id, db.orders[id], BookOf(db.ledger, id), p, es)
    requires Affordable(db.ledger, es)
    ensures Inv(WithOrder(db, id, p, es)) && Grows(db, WithOrder(db, id, p, es))
  {
    OtherBooks(db.ledger, es, id);
    AppendRows(db.ledger, es);
    forall k | k in db.orders && k != id
      ensures Evolves(db.orders[k], BookOf(db.ledger, k), db.orders[k], BookOf(db.ledger, k))
    {
      EvolvesReflexive(db.orders[k], BookOf(db.ledger, k));
    }
  }

  lemma QuietCommit(db: Db, id: OrderId, p: Order)
    requires Inv(db) && id in db.orders
    requires OrderStep(id, db.orders[id], BookOf(db.ledger, id), p, [])
    ensures Inv(WithOrder(db, id, p, [])) && Grows(db, WithOrder(db, id, p, []))
  {
    CommitKeeps(db, id, p, []);
  }

  lemma NewOrderKeeps(db: Db, id: OrderId, o: Order)
    requires Inv(db) && id !in db.orders && OrderInv(id, o, [])
    ensures Inv(WithOrder(db, id, o, [])) && Grows(db, WithOrder(db, id, o, []))
  {
    BookOfOther(db.ledger, id);
    assert db.ledger + [] == db.ledger;
    SameOrders(db, db);
  }

  /** Calls that touch neither orders nor ledger keep everything about them. */
  lemma SameOrders(db: Db, later: Db)
    requires later.orders == db.orders && later.ledger == db.ledger
    ensures Grows(db, later)
  {
    forall id | id in db.orders
      ensures Evolves(db.orders[id], BookOf(db.ledger, id), db.orders[id], BookOf(db.ledger, id))
    {
      EvolvesReflexive(db.orders[id], BookOf(db.ledger, id));
    }
  }

  /** Rows of no order: payouts and adjustments. */
  lemma FreeRowsKeep(db: Db, later: Db, es: seq<Entry>)
    requires Inv(db) && later.orders == db.orders && later.ledger == db.ledger + es
    requires PlatformSent(later.payouts) == PlatformSent(db.payouts)
    requires forall e :: e in es ==> e.order == None && e.payment == None
    requires Affordable(db.ledger, es)
    ensures Inv(later) && Grows(db, later)
  {
    AppendRows(db.ledger, es);
    forall id ensures BookOf(later.ledger, id) == BookOf(db.ledger, id) {
      BookOfConcat(db.ledger, es, id);
      BookOfOther(es, id);
    }
    SameOrders(db, db);
  }

  // ----- who can afford what -----

  lemma {:induction false} UnforcedGain(es: seq<Entry>, u: UserId)
    requires forall e :: e in es ==> 0 <= UnforcedWeight(u)(e)
    ensures 0 <= Sum(es, UnforcedWeight(u))
  {
    if es != [] {
      UnforcedGain(es[..|es| - 1], u);
    }
  }

  lemma GainIsAffordable(l: seq<Entry>, es: seq<Entry>)
    requires NoOverdraft(l)
    requires forall e :: e in es && e.state.Available? ==> e.kind.Credit? || IsForced(e)
    ensures Affordable(l, es)
  {
    forall u: UserId ensures 0 <= Sum(l, UnforcedWeight(u)) + Sum(es, UnforcedWeight(u)) {
      UnforcedGain(es, u);
      assert 0 <= Sum(l, UnforcedWeight(u));
    }
  }

  lemma SumOne(e: Entry, w: Entry -> int)
    ensures Sum([e], w) == w(e)
  {
    SumAppend([], e, w);
    assert [] + [e] == [e];
  }

  /** A release gives the seller at least what it takes. */
  lemma ReleaseIsAffordable(l: seq<Entry>, id: OrderId, p: ReleaseRead, s: Settings)
    requires NoOverdraft(l) && p.Plan? && p.order.payments != []
    ensures Affordable(l, ReleaseEntries(id, p, s))
  {
    var fee, paidOut := FeeAmount(p, s), PaidOut(p, s);
    var moves, fees, payouts := MoveRows(id, p), DebitRows(id, p, Fee, fee), DebitRows(id, p, Payout, paidOut);
    forall u: UserId ensures 0 <= Sum(l, UnforcedWeight(u)) + Sum(ReleaseEntries(id, p, s), UnforcedWeight(u)) {
      var w := UnforcedWeight(u);
      SumConcat(moves + fees, payouts, w);
      SumConcat(moves, fees, w);
      MoveSum(id, p, u);
      DebitSum(id, p, Fee, fee, u);
      DebitSum(id, p, Payout, paidOut, u);
      assert 0 <= Sum(l, w);
    }
  }

  lemma MoveSum(id: OrderId, p: ReleaseRead, u: UserId)
    requires p.Plan? && p.order.payments != []
    ensures Sum(MoveRows(id, p), UnforcedWeight(u)) == if u == p.owner then p.held else 0
  {
    var rows := MoveRows(id, p);
    SumConcat([rows[0]], [rows[1]], UnforcedWeight(u));
    SumOne(rows[0], UnforcedWeight(u));
    SumOne(rows[1], UnforcedWeight(u));
    assert rows == [rows[0]] + [rows[1]];
  }

  lemma DebitSum(id: OrderId, p: ReleaseRead, source: Source, amount: nat, u: UserId)
    requires p.Plan? && p.order.payments != [] && (source.Fee? || source.Payout?)
    ensures Sum(DebitRows(id, p, source, amount), UnforcedWeight(u)) == if u == p.owner then -(amount as int) else 0
  {
    if amount > 0 {
      SumOne(DebitRows(id, p, source, amount)[0], UnforcedWeight(u));
    }
  }

  /** The spendable balance is the unforced balance and what was forced, which only lowers it. */
  lemma SpendableSplits(l: seq<Entry>, u: UserId)
    ensures Spendable(l, u) == Sum(l, UnforcedWeight(u)) + Sum(l, ForcedWeight(u))
    ensures Sum(l, ForcedWeight(u)) <= 0
  {
    SumSplit(l, AvailableWeight(u), UnforcedWeight(u), ForcedWeight(u));
    ForcedLowers(l, u);
  }

  lemma {:induction false} ForcedLowers(l: seq<Entry>, u: UserId)
    ensures Sum(l, ForcedWeight(u)) <= 0
  {
    if l != [] {
      ForcedLowers(l[..|l| - 1], u);
    }
  }

  /** A user who spends at most the spendable balance can afford it. */
  lemma SpendingIsAffordable(l: seq<Entry>, es: seq<Entry>, user: UserId, spent: nat)
    requires NoOverdraft(l) && spent <= Spendable(l, user)
    requires forall u: UserId :: Sum(es, UnforcedWeight(u)) == if u == user then -(spent as int) else 0
    ensures Affordable(l, es)
  {
    SpendableSplits(l, user);
    forall u: UserId ensures 0 <= Sum(l, UnforcedWeight(u)) + Sum(es, UnforcedWeight(u)) {
      assert 0 <= Sum(l, UnforcedWeight(u));
    }
  }

  // ----- the service calls -----

  ghost predicate Kept(db: Db, r: Response) { Inv(r.db) && Grows(db, r.db) }

  lemma NewOrderInv(id: OrderId, buyer: UserId, c: Checkout, expiresAt: int)
    ensures OrderInv(id, NewOrder(buyer, c, expiresAt), [])
  {
    var t := TermsOf(c);
    assert 0 <= c.unitPrice * c.quantity;
    A.DesiredDiscountNonNegative(t);
    A.CommissionWithinFee(t);
    var log := [Event(CreatedEvent, None, Some(Created))];
    LogAppend([], log[0]);
    assert [] + log == log;
    LogAppend(log, Event(AwaitingPaymentEvent, Some(Created), Some(AwaitingPayment)));
  }

  lemma CreateOrderKeeps(db: Db, id: OrderId, buyer: UserId, c: Checkout, expiresAt: int)
    requires Inv(db)
    ensures Kept(db, CreateOrder(db, id, buyer, c, expiresAt))
  {
    hide OrderInv, Evolves;
    SameOrders(db, db);
    if CreateOrder(db, id, buyer, c, expiresAt).reply.Ok? {
      NewOrderInv(id, buyer, c, expiresAt);
      NewOrderKeeps(db, id, NewOrder(buyer, c, expiresAt));
    }
  }

  lemma TopUpKeeps(db: Db, id: OrderId, user: UserId, amount: nat, expiresAt: int, providerOk: bool)
    requires Inv(db)
    ensures Kept(db, TopUp(db, id, user, amount, expiresAt, providerOk))
  {
    hide OrderInv, Evolves;
    SameOrders(db, db);
    if id !in db.orders {
      var o := Order(user, None, Created, amount, None, Some(expiresAt), None, [], None, [], []);
      NewOrderKeeps(db, id, o);
      if providerOk {
        ChargeStep(id, o, [], providerOk);
        var none: seq<Entry> := [];
        assert none + none == none;
        NewOrderKeeps(db, id, CreateCharge(o, providerOk).order);
      }
    }
  }

  lemma CreatePixChargeKeeps(db: Db, id: OrderId, payer: UserId, providerOk: bool)
    requires Inv(db)
    ensures Kept(db, CreatePixCharge(db, id, payer, providerOk))
  {
    hide OrderInv, Evolves;
    SameOrders(db, db);
    if id in db.orders && db.orders[id].buyer == payer && CreateCharge(db.orders[id], providerOk).Done? {
      ChargeStep(id, db.orders[id], BookOf(db.ledger, id), providerOk);
      QuietCommit(db, id, CreateCharge(db.orders[id], providerOk).order);
    }
  }

  lemma FollowUpKeeps(db: Db, id: OrderId, applied: bool, stocked: bool)
    requires Inv(db)
    ensures Kept(db, FollowUp(db, id, applied, stocked))
  {
    hide OrderInv, Evolves;
    SameOrders(db, db);
    if applied && id in db.orders && AfterPayment(db.orders[id], stocked).Done? {
      AutoDeliverStep(id, db.orders[id], BookOf(db.ledger, id), stocked);
      QuietCommit(db, id, AfterPayment(db.orders[id], stocked).order);
    }
  }

  /** The transaction of a webhook job. */
  lemma ConfirmKeeps(db: Db, t: Txid)
    requires Inv(db) && Issued(db, t)
    requires ConfirmByWebhook(db.orders[t.order], BookOf(db.ledger, t.order), t).Posting?
    ensures var p := ConfirmByWebhook(db.orders[t.order], BookOf(db.ledger, t.order), t);
            Inv(WithOrder(db, t.order, p.order, p.entries)) && Grows(db, WithOrder(db, t.order, p.order, p.entries))
  {
    hide OrderInv, Evolves, OrderStep, Grows;
    var o, book := db.orders[t.order], BookOf(db.ledger, t.order);
    var p := ConfirmByWebhook(o, book, t);
    WebhookStep(t.order, o, book, t.n);
    GainIsAffordable(db.ledger, p.entries);
    CommitKeeps(db, t.order, p.order, p.entries);
  }

  lemma ProcessWebhookKeeps(db: Db, event: EventId, stocked: bool)
    requires Inv(db)
    ensures Kept(db, ProcessWebhook(db, event, stocked))
  {
    hide OrderInv, Evolves, Grows, FollowUp;
    SameOrders(db, db);
    if event in db.webhooks && !db.webhooks[event].processed {
      var e := db.webhooks[event];
      var seen := db.(webhooks := db.webhooks[event := e.(processed := true)]);
      SameOrders(db, seen);
      if e.paid && e.txid.Some? && Issued(db, e.txid.value) {
        var t := e.txid.value;
        var o := db.orders[t.order];
        var p := ConfirmByWebhook(o, BookOf(db.ledger, t.order), t);
        if p.Posting? {
          ConfirmKeeps(seen, t);
          var next := WithOrder(seen, t.order, p.order, p.entries);
          GrowsTransitive(db, seen, next);
          FollowUpKeeps(next, t.order, ApplyPayment(o).applied, stocked);
          GrowsTransitive(db, next, FollowUp(next, t.order, ApplyPayment(o).applied, stocked).db);
        }
      }
    }
  }

  lemma WalletRowsSum(id: OrderId, o: Order, seller: UserId, book: seq<Entry>, u: UserId)
    requires WalletPosting(id, o, seller, book).Posting?
    ensures Sum(WalletPosting(id, o, seller, book).entries, UnforcedWeight(u))
         == if u == o.buyer then -(o.total as int) else 0
  {
    var es := WalletPosting(id, o, seller, book).entries;
    SumConcat([es[0]], es[1..], UnforcedWeight(u));
    assert es == [es[0]] + es[1..];
    SumOne(es[0], UnforcedWeight(u));
    SumZero(es[1..], UnforcedWeight(u));
  }

  lemma PayWithBalanceKeeps(db: Db, id: OrderId, user: UserId, stocked: bool)
    requires Inv(db)
    ensures Kept(db, PayWithBalance(db, id, user, stocked))
  {
    hide OrderInv, Evolves;
    SameOrders(db, db);
    if id in db.orders && db.orders[id].buyer == user && db.orders[id].seller.Some?
      && Spendable(db.ledger, user) >= db.orders[id].total
    {
      var o := db.orders[id];
      var book := BookOf(db.ledger, id);
      var p := WalletPosting(id, o, o.seller.value, book);
      if p.Posting? {
        WalletStep(id, o, book);
        forall u: UserId ensures Sum(p.entries, UnforcedWeight(u)) == if u == user then -(o.total as int) else 0 {
          WalletRowsSum(id, o, o.seller.value, book, u);
        }
        SpendingIsAffordable(db.ledger, p.entries, user, o.total);
        CommitKeeps(db, id, p.order, p.entries);
        var next := WithOrder(db, id, p.order, p.entries);
        FollowUpKeeps(next, id, true, stocked);
        GrowsTransitive(db, next, FollowUp(next, id, true, stocked).db);
      }
    }
  }

  lemma ReleaseOrderKeeps(db: Db, id: OrderId, ignoreDispute: bool, providerOk: bool)
    requires Inv(db)
    ensures Kept(db, ReleaseOrder(db, id, ignoreDispute, providerOk))
    ensures var r := ReleaseOrder(db, id, ignoreDispute, providerOk);
            id in db.orders ==>
              r.db.orders[id].status == db.orders[id].status && r.db.orders[id].dispute == db.orders[id].dispute
  {
    hide OrderInv, Evolves;
    SameOrders(db, db);
    if id in db.orders {
      var o, book := db.orders[id], BookOf(db.ledger, id);
      var s, active := SellerRow(db, o), PartnerActive(db, o);
      var p := Release(id, o, book, ignoreDispute, db.settings, s, active, providerOk);
      if p.Posting? {
        ReleaseStep(id, o, book, ignoreDispute, db.settings, s, active, providerOk);
        PlanIsSound(id, o, book, ignoreDispute);
        ReleaseIsAffordable(db.ledger, id, ReadRelease(o, book, ignoreDispute), db.settings);
        EarnChangesLittle(Annotate(o), active);
        CommitKeeps(db, id, p.order, p.entries);
      }
    }
  }

  lemma RefundPostingKeeps(db: Db, id: OrderId, actor: Option<UserId>, providerOk: bool)
    requires Inv(db) && id in db.orders
    requires RefundOrder(id, db.orders[id], BookOf(db.ledger, id), actor, providerOk).0.Posting?
    ensures var p := RefundOrder(id, db.orders[id], BookOf(db.ledger, id), actor, providerOk).0;
            && Inv(WithOrder(db, id, p.order, p.entries)) && Grows(db, WithOrder(db, id, p.order, p.entries))
            && p.order.dispute == db.orders[id].dispute && p.order.status == Orders.Refunded
  {
    hide OrderInv, Evolves, OrderStep, Grows;
    var o, book := db.orders[id], BookOf(db.ledger, id);
    var p := RefundOrder(id, o, book, actor, providerOk).0;
    RefundStep(id, o, book, actor, providerOk);
    GainIsAffordable(db.ledger, p.entries);
    CommitKeeps(db, id, p.order, p.entries);
  }

  lemma RefundPostKeeps(db: Db, id: OrderId, actor: Option<UserId>, providerOk: bool)
    requires Inv(db) && id in db.orders
    ensures var p := RefundOrder(id, db.orders[id], BookOf(db.ledger, id), actor, providerOk).0;
            var next := Post(db, id, p).db;
            && Inv(next) && Grows(db, next) && id in next.orders
            && next.orders[id].dispute == db.orders[id].dispute
            && (next.orders[id] == db.orders[id] || next.orders[id].status == Orders.Refunded)
  {
    hide OrderInv, Inv, Evolves, RefundOrder, Grows;
    SameOrders(db, db);
    if RefundOrder(id, db.orders[id], BookOf(db.ledger, id), actor, providerOk).0.Posting? {
      RefundPostingKeeps(db, id, actor, providerOk);
    }
  }

  lemma RefundWholeKeeps(db: Db, id: OrderId, actor: Option<UserId>, providerOk: bool)
    requires Inv(db)
    ensures Kept(db, RefundWhole(db, id, actor, providerOk))
    ensures var r := RefundWhole(db, id, actor, providerOk);
            id in db.orders ==>
              r.db.orders[id].dispute == db.orders[id].dispute
              && (r.db.orders[id] == db.orders[id] || r.db.orders[id].status == Orders.Refunded)
  {
    hide OrderInv, Evolves, RefundOrder, Grows, Inv, Post;
    SameOrders(db, db);
    if id in db.orders {
      RefundPostKeeps(db, id, actor, providerOk);
      var p := RefundOrder(id, db.orders[id], BookOf(db.ledger, id), actor, providerOk).0;
      var next, r := Post(db, id, p).db, RefundWhole(db, id, actor, providerOk).db;
      AdministrationKeeps(next, r);
      GrowsTransitive(db, next, r);
    }
  }

  lemma RefundPartKeeps(db: Db, id: OrderId, amount: int, providerOk: bool)
    requires Inv(db)
    ensures Kept(db, RefundPart(db, id, amount, providerOk))
    ensures var r := RefundPart(db, id, amount, providerOk);
            id in db.orders ==>
              r.db.orders[id].status == db.orders[id].status && r.db.orders[id].dispute == db.orders[id].dispute
  {
    hide OrderInv, Evolves;
    SameOrders(db, db);
    if id in db.orders {
      var o, book := db.orders[id], BookOf(db.ledger, id);
      var p := RefundPartially(id, o, book, amount, providerOk);
      if p.Posting? {
        PartialStep(id, o, book, amount, providerOk);
        GainIsAffordable(db.ledger, p.entries);
        CommitKeeps(db, id, p.order, p.entries);
      }
    }
  }

  lemma DisputedStatus(id: OrderId, o: Order, book: seq<Entry>)
    requires OrderInv(id, o, book) && o.dispute.Some?
    ensures o.status in {Disputed, Completed, Orders.Refunded}
  {
  }

  lemma CompleteDisputedKeeps(db: Db, id: OrderId)
    requires Inv(db) && id in db.orders && DisputeIsOpen(db.orders[id])
    requires db.orders[id].status != Cancelled && db.orders[id].status != Orders.Refunded
    ensures Inv(CompleteDisputed(db, id)) && Grows(db, CompleteDisputed(db, id))
    ensures CompleteDisputed(db, id).orders[id].status == Completed
    ensures CompleteDisputed(db, id).orders[id].dispute == db.orders[id].dispute
  {
    hide OrderInv, Evolves;
    SameOrders(db, db);
    DisputedStatus(id, db.orders[id], BookOf(db.ledger, id));
    if db.orders[id].status != Completed {
      CompleteStep(id, db.orders[id], BookOf(db.ledger, id));
      QuietCommit(db, id, Transition(db.orders[id], Note, Completed));
    }
  }

  lemma AdministrationKeeps(db: Db, later: Db)
    requires Inv(db) && later.orders == db.orders && later.ledger == db.ledger && later.payouts == db.payouts
    ensures Inv(later) && Grows(db, later)
  {
    hide OrderInv, Grows;
    SameOrders(db, later);
  }

  lemma FinalizeKeeps(db: Db, id: OrderId, d: DisputeStatus)
    requires Inv(db) && id in db.orders && db.orders[id].dispute.Some? && db.orders[id].status != Disputed
    ensures Kept(db, Finalize(db, id, d))
  {
    hide OrderInv, Evolves;
    FinalizeStep(id, db.orders[id], BookOf(db.ledger, id), d);
    QuietCommit(db, id, db.orders[id].(dispute := Some(d)));
  }

  /** A payment is only refunded together with its order. */
  lemma LatestNotRefunded(id: OrderId, o: Order, book: seq<Entry>)
    requires OrderInv(id, o, book) && o.status != Orders.Refunded
    ensures o.payments != [] ==> !o.payments[|o.payments| - 1].status.PaymentRefunded?
  {
    if o.payments != [] {
      assert PaymentInv(o, o.payments[|o.payments| - 1]);
    }
  }

  /** A refund that does not fail leaves the order refunded. */
  lemma RefundEnds(db: Db, id: OrderId, actor: Option<UserId>, providerOk: bool)
    requires Inv(db) && id in db.orders && db.orders[id].status != Orders.Refunded
    requires RefundWhole(db, id, actor, providerOk).reply.Ok?
    ensures RefundWhole(db, id, actor, providerOk).db.orders[id].status == Orders.Refunded
  {
    LatestNotRefunded(id, db.orders[id], BookOf(db.ledger, id));
    hide OrderInv;
    ReverseChangesLittle(FullRefundRow(db.orders[id]));
  }

  ghost function FullRefundRow(o: Order): Order {
    if o.payments == [] then o else RefundedOrder(o)
  }

  lemma ResolveByRefundKeeps(db: Db, id: OrderId, admin: UserId, refundOk: bool, cashOutOk: bool)
    requires Inv(db)
    ensures Kept(db, ResolveDispute(db, id, admin, RefundBuyer, refundOk, cashOutOk))
  {
    hide OrderInv, Evolves, Grows, RefundWhole, Inv;
    SameOrders(db, db);
    if id in db.orders && DisputeIsOpen(db.orders[id]) && db.orders[id].status != Orders.Refunded {
      var r := RefundWhole(db, id, Some(admin), refundOk);
      RefundWholeKeeps(db, id, Some(admin), refundOk);
      assert id in r.db.orders by { GrowsHas(db, r.db, id); }
      if r.reply.Ok? {
        RefundEnds(db, id, Some(admin), refundOk);
        FinalizeKeeps(r.db, id, Resolved);
        GrowsTransitive(db, r.db, Finalize(r.db, id, Resolved).db);
      }
    }
  }

  lemma GrowsHas(db: Db, later: Db, id: OrderId)
    requires Grows(db, later) && id in db.orders
    ensures id in later.orders
  {
  }

  lemma ResolveByReleaseKeeps(db: Db, id: OrderId, admin: UserId, refundOk: bool, cashOutOk: bool)
    requires Inv(db)
    ensures Kept(db, ResolveDispute(db, id, admin, ReleaseSeller, refundOk, cashOutOk))
  {
    hide OrderInv, Evolves, ReleaseOrder, RefundPart, Grows, Inv;
    SameOrders(db, db);
    if id in db.orders && DisputeIsOpen(db.orders[id])
      && db.orders[id].status != Cancelled && db.orders[id].status != Orders.Refunded
    {
      CompleteDisputedKeeps(db, id);
      var a := CompleteDisputed(db, id);
      ReleaseOrderKeeps(a, id, true, cashOutOk);
      var r := ReleaseOrder(a, id, true, cashOutOk);
      GrowsTransitive(db, a, r.db);
      if r.reply.Ok? {
        FinalizeKeeps(r.db, id, Rejected);
        GrowsTransitive(db, r.db, Finalize(r.db, id, Rejected).db);
      }
    }
  }

  lemma ResolveBySplitKeeps(db: Db, id: OrderId, admin: UserId, amount: int, refundOk: bool, cashOutOk: bool)
    requires Inv(db)
    ensures Kept(db, ResolveDispute(db, id, admin, SplitBetween(amount), refundOk, cashOutOk))
  {
    hide OrderInv, Evolves, ReleaseOrder, RefundPart, Grows, Inv;
    SameOrders(db, db);
    if id in db.orders && DisputeIsOpen(db.orders[id]) && amount > 0
      && db.orders[id].status != Cancelled && db.orders[id].status != Orders.Refunded
    {
      CompleteDisputedKeeps(db, id);
      var a := CompleteDisputed(db, id);
      RefundPartKeeps(a, id, amount, refundOk);
      var r := RefundPart(a, id, amount, refundOk);
      GrowsTransitive(db, a, r.db);
      if r.reply.Ok? {
        ReleaseOrderKeeps(r.db, id, true, cashOutOk);
        var q := ReleaseOrder(r.db, id, true, cashOutOk);
        GrowsTransitive(db, r.db, q.db);
        if q.reply.Ok? {
          FinalizeKeeps(q.db, id, Resolved);
          GrowsTransitive(db, q.db, Finalize(q.db, id, Resolved).db);
        }
      }
    }
  }

  lemma PlatformSentAppend(ps: seq<PayoutRow>, p: PayoutRow)
    ensures PlatformSent(ps + [p]) == PlatformSent(ps) + (if p.scope.ToPlatform? && p.sent then p.amount else 0)
  {
    assert (ps + [p])[..|ps|] == ps;
  }

  lemma PayoutRowsSum(user: UserId, amount: nat, fee: nat, u: UserId)
    ensures Sum([PayoutEntry(user, Payout, amount)] + (if fee > 0 then [PayoutEntry(user, Fee, fee)] else []),
                UnforcedWeight(u))
         == if u == user then -((amount + fee) as int) else 0
  {
    var main := [PayoutEntry(user, Payout, amount)];
    var extra := if fee > 0 then [PayoutEntry(user, Fee, fee)] else [];
    SumConcat(main, extra, UnforcedWeight(u));
    SumOne(main[0], UnforcedWeight(u));
    if fee > 0 {
      SumOne(extra[0], UnforcedWeight(u));
    }
  }

  lemma UserPayoutKeeps(db: Db, user: UserId, amount: nat, instant: bool, age: int, providerOk: bool)
    requires Inv(db)
    ensures Kept(db, UserPayout(db, user, amount, instant, age, providerOk))
  {
    hide OrderInv, Evolves;
    var reply := UserPayout(db, user, amount, instant, age, providerOk);
    PlatformSentAppend(db.payouts, PayoutRow(ToUser(user), reply.reply.Ok?, amount));
    if reply.reply.Ok? {
      var fee := if instant then INSTANT_FEE_CENTS else 0;
      var es := [PayoutEntry(user, Payout, amount)] + if fee > 0 then [PayoutEntry(user, Fee, fee)] else [];
      forall u: UserId ensures Sum(es, UnforcedWeight(u)) == if u == user then -((amount + fee) as int) else 0 {
        PayoutRowsSum(user, amount, fee, u);
      }
      SpendingIsAffordable(db.ledger, es, user, amount + fee);
      FreeRowsKeep(db, reply.db, es);
    } else {
      SameOrders(db, reply.db);
    }
  }

  lemma PlatformPayoutKeeps(db: Db, amount: nat, providerOk: bool)
    requires Inv(db)
    ensures Kept(db, PlatformPayout(db, amount, providerOk))
  {
    hide OrderInv, Evolves;
    PlatformSentAppend(db.payouts, PayoutRow(ToPlatform, false, amount));
    PlatformSentAppend(db.payouts, PayoutRow(ToPlatform, true, amount));
    SameOrders(db, PlatformPayout(db, amount, providerOk).db);
  }

  lemma AdjustBalanceKeeps(db: Db, user: UserId, amount: int)
    requires Inv(db)
    ensures Kept(db, AdjustBalance(db, user, amount))
  {
    hide OrderInv, Evolves;
    SameOrders(db, db);
    if user in db.users && amount != 0 {
      var r := AdjustBalance(db, user, amount).db;
      var es := [r.ledger[|db.ledger|]];
      GainIsAffordable(db.ledger, es);
      FreeRowsKeep(db, r, es);
    }
  }

  lemma RegisterWebhookKeeps(db: Db, event: EventId, txid: Option<Txid>, paid: bool)
    requires Inv(db)
    ensures Kept(db, RegisterWebhook(db, event, txid, paid))
  {
    AdministrationKeeps(db, RegisterWebhook(db, event, txid, paid).db);
  }

  lemma SaveKeeps(db: Db, id: OrderId, a: Attempt)
    requires Inv(db) && id in db.orders
    requires a.Done? ==> OrderStep(id, db.orders[id], BookOf(db.ledger, id), a.order, [])
    ensures Kept(db, Save(db, id, a))
  {
    hide OrderInv, Evolves, OrderStep, Grows;
    SameOrders(db, db);
    if a.Done? {
      QuietCommit(db, id, a.order);
    }
  }

  /** What a call of the order service makes of its order. */
  function OrderAttempt(o: Order, s: Step): Attempt
    requires IsOrderCall(s)
  {
    match s
    case DoCancelOrder(id, user) => Cancel(o, user)
    case DoExpireOrder(id, now) => Done(Expire(o, now))
    case DoAddDeliveryEvidence(id, user, admin) => AddEvidence(o, user, admin)
    case DoMarkOrderDelivered(id, user, admin) => MarkDelivered(o, user, admin)
    case DoConfirmOrderReceipt(id, user) => ConfirmReceipt(o, user)
    case DoAutoCompleteOrder(id) => Done(AutoComplete(o))
    case DoOpenOrderDispute(id, user) => OpenDispute(o, user)
  }

  lemma OrderCallSaves(db: Db, s: Step)
    requires IsOrderCall(s)
    ensures s.id in db.orders ==> Next(db, s) == Save(db, s.id, OrderAttempt(db.orders[s.id], s))
    ensures s.id !in db.orders ==> Next(db, s).db == db
  {
    hide Save, Cancel, Expire, AddEvidence, MarkDelivered, ConfirmReceipt, AutoComplete, OpenDispute;
  }

  lemma AttemptStep(id: OrderId, o: Order, book: seq<Entry>, s: Step)
    requires IsOrderCall(s) && OrderInv(id, o, book) && OrderAttempt(o, s).Done?
    ensures OrderStep(id, o, book, OrderAttempt(o, s).order, [])
  {
    hide OrderInv, OrderStep, Cancel, Expire, AddEvidence, MarkDelivered, ConfirmReceipt, AutoComplete, OpenDispute;
    match s
    case DoCancelOrder(_, user) => CancelStep(id, o, book, user);
    case DoExpireOrder(_, now) => ExpireStep(id, o, book, now);
    case DoAddDeliveryEvidence(_, user, admin) => EvidenceStep(id, o, book, user, admin);
    case DoMarkOrderDelivered(_, user, admin) => DeliverStep(id, o, book, user, admin);
    case DoConfirmOrderReceipt(_, user) => ReceiptStep(id, o, book, user);
    case DoAutoCompleteOrder(_) => AutoCompleteStep(id, o, book);
    case DoOpenOrderDispute(_, user) => DisputeStep(id, o, book, user);
  }

  lemma OrderCallKeeps(db: Db, s: Step)
    requires Inv(db) && IsOrderCall(s)
    ensures Kept(db, Next(db, s))
  {
    hide OrderInv, Evolves, OrderStep, Grows, Save, Inv, Next, OrderAttempt;
    OrderCallSaves(db, s);
    if s.id in db.orders {
      var o, book := db.orders[s.id], BookOf(db.ledger, s.id);
      OrderHolds(db, s.id);
      if OrderAttempt(o, s).Done? {
        AttemptStep(s.id, o, book, s);
      }
      SaveKeeps(db, s.id, OrderAttempt(o, s));
    } else {
      SameOrders(db, db);
    }
  }

  /** Every service call, whether it succeeds or fails, keeps the invariant and the history of every order. */
  lemma NextKeeps(db: Db, s: Step)
    requires Inv(db)
    ensures Inv(Next(db, s).db) && Grows(db, Next(db, s).db)
  {
    hide OrderInv, Evolves, Grows, CreateOrder, TopUp, CreatePixCharge, ProcessWebhook, PayWithBalance, ReleaseOrder,
      RefundWhole, ResolveDispute, UserPayout, PlatformPayout, AdjustBalance, RegisterWebhook, Inv;
    match s
    case DoCreateOrder(id, buyer, checkout, expiresAt) => CreateOrderKeeps(db, id, buyer, checkout, expiresAt);
    case DoTopUp(id, user, cents, expiresAt, providerOk) => TopUpKeeps(db, id, user, cents, expiresAt, providerOk);
    case DoCreatePixCharge(id, user, providerOk) => CreatePixChargeKeeps(db, id, user, providerOk);
    case DoRegisterWebhook(event, txid, paid) => RegisterWebhookKeeps(db, event, txid, paid);
    case DoProcessWebhook(event, stocked) => ProcessWebhookKeeps(db, event, stocked);
    case DoPayWithBalance(id, user, stocked) => PayWithBalanceKeeps(db, id, user, stocked);
    case DoReleaseOrder(id, providerOk) => ReleaseOrderKeeps(db, id, false, providerOk);
    case DoRefundOrder(id, actor, providerOk) => RefundWholeKeeps(db, id, actor, providerOk);
    case DoResolveDispute(id, user, how, refundOk, cashOutOk) =>
      match how {
        case RefundBuyer => ResolveByRefundKeeps(db, id, user, refundOk, cashOutOk);
        case ReleaseSeller => ResolveByReleaseKeeps(db, id, user, refundOk, cashOutOk);
        case SplitBetween(amount) => ResolveBySplitKeeps(db, id, user, amount, refundOk, cashOutOk);
      }
    case DoUserPayout(user, cents, instant, age, providerOk) => UserPayoutKeeps(db, user, cents, instant, age, providerOk);
    case DoPlatformPayout(cents, providerOk) => PlatformPayoutKeeps(db, cents, providerOk);
    case DoAdjustBalance(user, amount) => AdjustBalanceKeeps(db, user, amount);
    case DoSetUser(user, row) => AdministrationKeeps(db, Next(db, s).db);
    case DoSetPartner(partner, active) => AdministrationKeeps(db, Next(db, s).db);
    case DoSetSettings(settings) => AdministrationKeeps(db, Next(db, s).db);
    case _ => OrderCallKeeps(db, s);
  }

  // ----- runs -----

  lemma EmptyInv()
    ensures Inv(Empty())
  {
  }

  lemma {:induction false} RunKeeps(db: Db, steps: seq<Step>)
    requires Inv(db)
    ensures Inv(Run(db, steps)) && Grows(db, Run(db, steps))
  {
    hide OrderInv, Evolves;
    if steps == [] {
      SameOrders(db, db);
    } else {
      var before := Run(db, steps[..|steps| - 1]);
      RunKeeps(db, steps[..|steps| - 1]);
      NextKeeps(before, steps[|steps| - 1]);
      GrowsTransitive(db, before, Run(db, steps));
    }
  }

  lemma Reachable(steps: seq<Step>)
    ensures Inv(Run(Empty(), steps))
  {
    EmptyInv();
    RunKeeps(Empty(), steps);
  }
}
