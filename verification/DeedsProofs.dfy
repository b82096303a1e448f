/** Every call does the deeds of the table and no others: each order row, and each row of the ledger. */
module DeedsProofs {
  import opened Wrappers
  import opened Ledger
  import opened Orders
  import opened Settlement
  import opened Market
  import opened OrderInvariant
  import opened OrderPostings
  import opened Evolution
  import opened MarketInvariant
  import opened Theorems
  import opened LifeCycle
  import opened ReleaseConditions
  import opened Balances
  import opened Deeds
  import A = Attribution

  /** What a call does to the order it is about, and to the ledger. */
  ghost predicate DoesOwn(db: Db, later: Db, id: OrderId, ds: seq<Deed>) {
    && id in db.orders && id in later.orders
    && later.orders[id] == After(db.orders[id], ds)
    && later.ledger == db.ledger + AllBooks(id, db.orders[id], ds)
  }

  lemma DoesNothing(db: Db, later: Db, id: OrderId)
    requires id in db.orders && id in later.orders && later.orders[id] == db.orders[id] && later.ledger == db.ledger
    ensures DoesOwn(db, later, id, [])
  {
    assert db.ledger + [] == db.ledger;
  }

  lemma DoesOne(db: Db, later: Db, id: OrderId, d: Deed)
    requires id in db.orders && id in later.orders
    requires later.orders[id] == Written(db.orders[id], d) && later.ledger == db.ledger + Books(id, db.orders[id], d)
    ensures DoesOwn(db, later, id, [d])
  {
    OneDeed(id, db.orders[id], d);
    hide Written, Books;
  }

  lemma DoesMore(a: Db, b: Db, c: Db, id: OrderId, ds: seq<Deed>, more: seq<Deed>)
    requires DoesOwn(a, b, id, ds) && DoesOwn(b, c, id, more)
    ensures DoesOwn(a, c, id, ds + more)
  {
    hide After, AllBooks;
    var first, second := AllBooks(id, a.orders[id], ds), AllBooks(id, b.orders[id], more);
    MoreDeeds(id, a.orders[id], ds, more);
    Associative(a.ledger, first, second);
  }

  lemma Associative(a: seq<Entry>, b: seq<Entry>, c: seq<Entry>)
    ensures a + b + c == a + (b + c)
  {
  }

  // ----- the order service -----

  lemma OrderCallDoes(db: Db, s: Step)
    requires IsOrderCall(s) && s.id in db.orders
    ensures DoesOwn(db, Next(db, s).db, s.id, DeedsOf(db, s, s.id))
  {
    hide Next, OrderAttempt, DeedsOf, After, AllBooks;
    var id, o := s.id, db.orders[s.id];
    OrderCallSaves(db, s);
    AttemptDoes(db, s);
    assert db.ledger + [] == db.ledger;
    if DeedsOf(db, s, id) == [] {
      DoesNothing(db, Next(db, s).db, id);
    } else {
      OneDeed(id, o, DeedsOf(db, s, id)[0]);
    }
  }

  lemma AttemptDoes(db: Db, s: Step)
    requires IsOrderCall(s) && s.id in db.orders
    ensures var o, ds, a := db.orders[s.id], DeedsOf(db, s, s.id), OrderAttempt(db.orders[s.id], s);
            if ds == [] then a.Done? ==> a.order == o
            else |ds| == 1 && ds == [ds[0]] && a.Done? && a.order == Written(o, ds[0]) && Books(s.id, o, ds[0]) == []
  {
    assert db.orders[s.id].(events := db.orders[s.id].events) == db.orders[s.id];
  }

  lemma ChargeDoes(db: Db, s: Step)
    requires s.DoCreatePixCharge? && s.id in db.orders
    ensures DoesOwn(db, Next(db, s).db, s.id, DeedsOf(db, s, s.id))
  {
    hide After, AllBooks;
    var o, later := db.orders[s.id], Next(db, s).db;
    assert HasPending(o.payments) <==> HasPendingCharge(o) by {
      if HasPending(o.payments) {
        var p :| p in o.payments && p.status.Pending?;
        var i :| 0 <= i < |o.payments| && o.payments[i] == p;
      }
    }
    assert db.ledger + [] == db.ledger;
    hide HasPending, HasPendingCharge;
    if DeedsOf(db, s, s.id) == [] {
      DoesNothing(db, later, s.id);
    } else {
      DoesOne(db, later, s.id, Charging);
    }
  }

  // ----- payments -----

  lemma FollowUpDoes(db: Db, id: OrderId, applied: bool, stocked: bool)
    requires id in db.orders
    ensures DoesOwn(db, FollowUp(db, id, applied, stocked).db, id,
      Only(applied && db.orders[id].status == InDelivery && DeliversAtOnce(db.orders[id], stocked), Delivering))
  {
    hide After, AllBooks;
    var later := FollowUp(db, id, applied, stocked).db;
    assert db.ledger + [] == db.ledger;
    if applied && db.orders[id].status == InDelivery && DeliversAtOnce(db.orders[id], stocked) {
      DoesOne(db, later, id, Delivering);
    } else {
      DoesNothing(db, later, id);
    }
  }

  lemma ApplyIsPaidFor(o: Order)
    requires Unpaid(o) || o.status == InDelivery
    ensures ApplyPayment(o) == Confirmation(PaidFor(o), Unpaid(o))
  {
  }

  lemma ConfirmWrites(id: OrderId, o: Order, book: seq<Entry>, n: nat)
    requires OrderInv(id, o, book) && n < |o.payments| && (Unpaid(o) || o.status == InDelivery)
    ensures var d := if o.seller.None? && !o.payments[n].paid then ToppingUp(n) else Confirming(n);
            ConfirmByWebhook(o, book, Txid(id, n)) == Posting(Written(o, d), Books(id, o, d))
  {
    var t := Txid(id, n);
    ApplyIsPaidFor(o);
    PaidForKeeps(o);
    HeldCreditCount(book, t);
    TopupCount(book, t);
    PaymentRow(id, o, book, n);
    hide ApplyPayment, PaidFor, HasHeldCredit, HasTopup, OrderInv;
    var p := o.payments[n];
    assert ConfirmPayment(p) == p.(status := PaymentStatus.Confirmed, paid := true);
  }

  lemma PaidForKeeps(o: Order)
    ensures var p := PaidFor(o);
            p.payments == o.payments && p.seller == o.seller && p.buyer == o.buyer && p.total == o.total
            && p.delivery == o.delivery
  {
  }

  lemma PaymentRow(id: OrderId, o: Order, book: seq<Entry>, n: nat)
    requires OrderInv(id, o, book) && n < |o.payments|
    ensures o.payments[n].amount == o.total && (o.payments[n].status.Confirmed? ==> o.payments[n].paid)
    ensures o.seller.Some? ==> Sum(book, HeldCreditsOf(Txid(id, n))) == if o.payments[n].paid then 1 else 0
    ensures o.seller.None? ==> Sum(book, TopupsOf(Txid(id, n))) == if o.payments[n].paid then 1 else 0
  {
    assert PaymentInv(o, o.payments[n]);
  }

  lemma NotSeenPaid(id: OrderId, o: Order, book: seq<Entry>)
    requires OrderInv(id, o, book)
    ensures o.status != Paid
  {
  }

  lemma ConfirmedStatus(o: Order, d: Deed, n: nat)
    requires n < |o.payments| && (Unpaid(o) || o.status == InDelivery)
    ensures d == Confirming(n) ==> Written(o, d).status == InDelivery
    ensures d == ToppingUp(n) ==> Written(o, d).status == Completed
    ensures d in {Confirming(n), ToppingUp(n)} ==> Written(o, d).delivery == o.delivery
  {
  }

  lemma RefusedStays(o: Order, book: seq<Entry>, t: Txid)
    requires o.status != Paid && !Unpaid(o) && o.status != InDelivery && t.n < |o.payments|
    ensures !ConfirmByWebhook(o, book, t).Posting?
  {
  }

  lemma JobConfirms(db: Db, s: Step, id: OrderId)
    requires Inv(db) && s.DoProcessWebhook? && OrderOf(db, s) == Some(id) && id in db.orders && Confirms(db, s.event, id)
    ensures DoesOwn(db, Next(db, s).db, id, DeedsOf(db, s, id))
  {
    hide Inv, OrderInv, After, AllBooks, Written, Books, ConfirmByWebhook, FollowUp;
    var o, book, later := db.orders[id], BookOf(db.ledger, id), Next(db, s).db;
    var t := db.webhooks[s.event].txid.value;
    OrderHolds(db, id);
    var d := if o.seller.None? && !o.payments[t.n].paid then ToppingUp(t.n) else Confirming(t.n);
    var seen := db.(webhooks := db.webhooks[s.event := db.webhooks[s.event].(processed := true)]);
    ConfirmWrites(id, o, book, t.n);
    ApplyIsPaidFor(o);
    ConfirmedStatus(o, d, t.n);
    var next := WithOrder(seen, id, Written(o, d), Books(id, o, d));
    DoesOne(db, next, id, d);
    FollowUpDoes(next, id, Unpaid(o), s.stocked);
    DoesMore(db, next, later, id, [d],
      Only(Unpaid(o) && next.orders[id].status == InDelivery && DeliversAtOnce(next.orders[id], s.stocked), Delivering));
    var none: seq<Deed> := [];
    assert [d] + none == [d];
  }

  lemma JobDoesNothing(db: Db, s: Step, id: OrderId)
    requires Inv(db) && s.DoProcessWebhook? && OrderOf(db, s) == Some(id) && id in db.orders && !Confirms(db, s.event, id)
    ensures DoesOwn(db, Next(db, s).db, id, DeedsOf(db, s, id))
  {
    hide Inv, OrderInv, After, AllBooks, ConfirmByWebhook, FollowUp;
    var o, book := db.orders[id], BookOf(db.ledger, id);
    var t := db.webhooks[s.event].txid.value;
    OrderHolds(db, id);
    NotSeenPaid(id, o, book);
    if t.n < |o.payments| && !Unpaid(o) && o.status != InDelivery {
      RefusedStays(o, book, t);
    }
    DoesNothing(db, Next(db, s).db, id);
  }

  lemma WebhookDoes(db: Db, s: Step, id: OrderId)
    requires Inv(db) && s.DoProcessWebhook? && OrderOf(db, s) == Some(id) && id in db.orders
    ensures DoesOwn(db, Next(db, s).db, id, DeedsOf(db, s, id))
  {
    hide *;
    if Confirms(db, s.event, id) {
      JobConfirms(db, s, id);
    } else {
      JobDoesNothing(db, s, id);
    }
  }

  lemma WalletWrites(id: OrderId, o: Order, seller: UserId, book: seq<Entry>)
    requires OrderInv(id, o, book) && Unpaid(o) && o.seller == Some(seller)
    ensures WalletPosting(id, o, seller, book) == Posting(Written(o, PayingByWallet), Books(id, o, PayingByWallet))
  {
    var t := Txid(id, |o.payments|);
    var ps := ExpirePending(o.payments) + [Payment(Wallet, PaymentStatus.Confirmed, o.total, true)];
    assert ps == WalletPayments(o.payments, o.total);
    ApplyIsPaidFor(o.(payments := ps));
    var debit := Entry(o.buyer, Some(id), Some(t), Debit, Available, WalletPayment, o.total);
    NoRowsYet(id, o, book, |o.payments|);
    HeldCreditCount(book, t);
    assert !HasHeldCredit(book + [debit], t) by {
      assert forall x :: x in book + [debit] <==> x in book || x == debit;
    }
    hide OrderInv, HasHeldCredit, ExpirePending, ApplyPayment, WalletPayments;
  }

  lemma WalletDoes(db: Db, s: Step)
    requires Inv(db) && s.DoPayWithBalance? && s.id in db.orders
    ensures DoesOwn(db, Next(db, s).db, s.id, DeedsOf(db, s, s.id))
  {
    hide Inv, OrderInv, After, AllBooks, Written, Books, WalletPosting, FollowUp, Spendable;
    var id, o, later := s.id, db.orders[s.id], Next(db, s).db;
    if PaysFromWallet(db, id, s.user) {
      var book := BookOf(db.ledger, id);
      OrderHolds(db, id);
      WalletWrites(id, o, o.seller.value, book);
      PaidStatus(o);
      var next := WithOrder(db, id, Written(o, PayingByWallet), Books(id, o, PayingByWallet));
      DoesOne(db, next, id, PayingByWallet);
      FollowUpDoes(next, id, true, s.stocked);
      DoesMore(db, next, later, id, [PayingByWallet], Only(DeliversAtOnce(next.orders[id], s.stocked), Delivering));
    } else {
      DoesNothing(db, later, id);
    }
  }

  lemma PaidStatus(o: Order)
    requires Unpaid(o)
    ensures Written(o, PayingByWallet).status == InDelivery && Written(o, PayingByWallet).delivery == o.delivery
  {
  }

  // ----- settlement -----

  lemma ReleaseWrites(db: Db, id: OrderId, ignoreDispute: bool, providerOk: bool)
    requires Inv(db) && MayRelease(db, id, ignoreDispute) && CanRelease(db, id, HeldBalance(db, id), providerOk)
    ensures var ds := ReleaseDeeds(db, id, HeldBalance(db, id), providerOk);
            var later := ReleaseOrder(db, id, ignoreDispute, providerOk).db;
            && |ds| == 1 && id in later.orders && later.orders[id] == Written(db.orders[id], ds[0])
            && later.ledger == db.ledger + Books(id, db.orders[id], ds[0])
  {
    hide Inv, OrderInv, ReadRelease, Released, Sum, BookOf, ReleaseOrder, ReleaseEntries, FeeAmount, PayoutAmount, CashOut,
      Books, Written;
    var o, p := db.orders[id], ReadRelease(db.orders[id], BookOf(db.ledger, id), ignoreDispute);
    ReleasePlan(db, id, ignoreDispute);
    AdmissionAgrees(db, o, p, providerOk);
    PlannedOutcome(db, id, ignoreDispute, providerOk);
    PlannedRow(db, id, ignoreDispute, providerOk);
    PlanBooks(id, o, p, db.settings, IsActive(db, o));
  }

  lemma ReleasePlan(db: Db, id: OrderId, ignoreDispute: bool)
    requires Inv(db) && MayRelease(db, id, ignoreDispute)
    requires db.orders[id].seller.Some? && db.orders[id].payments != []
    requires !Released(BookOf(db.ledger, id)) && 0 < HeldBalance(db, id)
    ensures var o, p := db.orders[id], ReadRelease(db.orders[id], BookOf(db.ledger, id), ignoreDispute);
            && p.Plan? && p.order == o && o.seller == Some(p.owner) && p.held == HeldBalance(db, id)
            && o.attribution.Some? && o.commissions == []
  {
    var o, book := db.orders[id], BookOf(db.ledger, id);
    OrderHolds(db, id);
    PlansIff(id, o, book, ignoreDispute);
    PlanIsSound(id, o, book, ignoreDispute);
    UnreleasedEarnedNothing(id, o, book);
    hide Inv, OrderInv, ReadRelease, Released, Sum, BookOf;
  }

  lemma UnreleasedEarnedNothing(id: OrderId, o: Order, book: seq<Entry>)
    requires OrderInv(id, o, book) && o.seller.Some? && !Released(book)
    ensures o.commissions == []
  {
  }

  lemma PlannedRow(db: Db, id: OrderId, ignoreDispute: bool, providerOk: bool)
    requires id in db.orders && ReadRelease(db.orders[id], BookOf(db.ledger, id), ignoreDispute).Plan?
    requires !Released(BookOf(db.ledger, id)) && db.orders[id].commissions == []
    requires ReleaseOrder(db, id, ignoreDispute, providerOk).reply.Ok?
    ensures var o, later := db.orders[id], ReleaseOrder(db, id, ignoreDispute, providerOk).db;
            && id in later.orders
            && forall held, fee, out :: later.orders[id] == Written(o, Releasing(held, fee, out, IsActive(db, o)))
  {
    hide ReadRelease, Released, FeeAmount, PayoutAmount, CashOut, ReleaseEntries;
  }

  lemma PlanBooks(id: OrderId, o: Order, p: ReleaseRead, s: Settings, earns: bool)
    requires p.Plan? && p.order == o && o.payments != [] && o.attribution.Some? && o.seller == Some(p.owner)
    ensures var fee := Min(Max(o.attribution.value.feeFinal, 0), p.held);
            ReleaseEntries(id, p, s) ==
              Books(id, o, Releasing(p.held, fee, if s.splitEnabled then 0 else p.held - fee, earns))
  {
  }

  lemma ReleaseDoes(db: Db, id: OrderId, ignoreDispute: bool, providerOk: bool)
    requires Inv(db) && id in db.orders
    ensures DoesOwn(db, ReleaseOrder(db, id, ignoreDispute, providerOk).db, id,
      if MayRelease(db, id, ignoreDispute) then ReleaseDeeds(db, id, HeldBalance(db, id), providerOk) else [])
  {
    hide Inv, ReleaseOrder, After, AllBooks, Written, Books, Released;
    var later := ReleaseOrder(db, id, ignoreDispute, providerOk).db;
    ReleasesIff(db, id, ignoreDispute, providerOk);
    if MayRelease(db, id, ignoreDispute) && CanRelease(db, id, HeldBalance(db, id), providerOk) {
      ReleaseWrites(db, id, ignoreDispute, providerOk);
      var ds := ReleaseDeeds(db, id, HeldBalance(db, id), providerOk);
      DoesOne(db, later, id, ds[0]);
      assert ds == [ds[0]];
    } else {
      DoesNothing(db, later, id);
    }
  }

  lemma RefundDoes(db: Db, id: OrderId, actor: Option<UserId>, providerOk: bool)
    requires Inv(db) && id in db.orders
    ensures DoesOwn(db, RefundWhole(db, id, actor, providerOk).db, id, RefundDeeds(db, id, actor, providerOk))
  {
    hide Inv, OrderInv, After, AllBooks, Written, Books, Released, Settlement.RefundOrder, BookOf;
    var o, book, later := db.orders[id], BookOf(db.ledger, id), RefundWhole(db, id, actor, providerOk).db;
    OrderHolds(db, id);
    RefundWrites(id, o, book, actor, providerOk);
    if CanRefund(db, id, actor, providerOk) {
      DoesOne(db, later, id, Refunding(Released(book)));
    } else {
      DoesNothing(db, later, id);
    }
  }

  lemma RefundWrites(id: OrderId, o: Order, book: seq<Entry>, actor: Option<UserId>, providerOk: bool)
    requires OrderInv(id, o, book)
    ensures var p := RefundOrder(id, o, book, actor, providerOk).0;
            if actor == Some(o.buyer) || o.payments == [] then !p.Posting?
            else
              var last := o.payments[|o.payments| - 1];
              if Released(book) || (last.status != PaymentRefunded && (last.provider == Wallet || providerOk))
              then p == Posting(Written(o, Refunding(Released(book))), Books(id, o, Refunding(Released(book))))
              else !p.Posting?
  {
    hide Released, OrderInv;
    if o.payments != [] {
      RefundRows(id, o);
      if !Released(book) {
        NothingToReverse(id, o, book, RefundedOrder(o));
      }
    }
    hide ReverseCommission, Books, Written;
  }

  lemma RefundRows(id: OrderId, o: Order)
    requires o.payments != []
    ensures Chargeback(id, o) == Posting(RefundedOrder(o), Books(id, o, Refunding(true)))
    ensures FullRefund(id, o) == Posting(ReverseCommission(RefundedOrder(o)), Books(id, o, Refunding(false)))
    ensures RefundedOrder(o) == Written(o, Refunding(true)) == Written(o, Refunding(false))
    ensures RefundedOrder(o).commissions == o.commissions && RefundedOrder(o).attribution == o.attribution
  {
    hide ReverseCommission;
  }

  // ----- disputes -----

  lemma CompleteDoes(db: Db, id: OrderId)
    requires id in db.orders
    ensures DoesOwn(db, CompleteDisputed(db, id), id, [Settling])
  {
    hide After, AllBooks;
    assert db.ledger + [] == db.ledger;
    DoesOne(db, CompleteDisputed(db, id), id, Settling);
  }

  lemma CloseDoes(db: Db, id: OrderId, d: DisputeStatus)
    requires id in db.orders
    ensures DoesOwn(db, Finalize(db, id, d).db, id, [Closing(d)])
  {
    hide After, AllBooks;
    assert db.ledger + [] == db.ledger;
    DoesOne(db, Finalize(db, id, d).db, id, Closing(d));
  }

  lemma PartWrites(id: OrderId, o: Order, book: seq<Entry>, amount: nat, providerOk: bool)
    requires OrderInv(id, o, book) && RefundPartially(id, o, book, amount, providerOk).Posting?
    ensures RefundPartially(id, o, book, amount, providerOk) ==
      Posting(Written(o, RefundingPart(amount)), Books(id, o, RefundingPart(amount)))
  {
    NothingToReverse(id, o, book, Annotate(o));
    hide OrderInv, Released, Sum, ReverseCommission;
  }

  lemma PartDoes(db: Db, id: OrderId, amount: nat, providerOk: bool)
    requires Inv(db) && CanRefundPart(db, id, amount, providerOk)
    ensures RefundPart(db, id, amount, providerOk).reply.Ok?
    ensures DoesOwn(db, RefundPart(db, id, amount, providerOk).db, id, [RefundingPart(amount)])
  {
    var o, book := db.orders[id], BookOf(db.ledger, id);
    OrderHolds(db, id);
    HeldIsEscrow(id, o, book);
    PartWrites(id, o, book, amount, providerOk);
    hide Inv, OrderInv, After, AllBooks, Released, Sum, BookOf, RefundPartially, Written, Books;
    DoesOne(db, RefundPart(db, id, amount, providerOk).db, id, RefundingPart(amount));
  }

  /** An order without a seller has nothing in escrow to give back. */
  lemma PartRefused(db: Db, id: OrderId, amount: int, providerOk: bool)
    requires Inv(db) && id in db.orders && !CanRefundPart(db, id, amount, providerOk)
    ensures RefundPart(db, id, amount, providerOk).reply.Err? && RefundPart(db, id, amount, providerOk).db == db
  {
    var o, book := db.orders[id], BookOf(db.ledger, id);
    OrderHolds(db, id);
    if o.seller.Some? {
      HeldIsEscrow(id, o, book);
    } else {
      NothingHeldForTopups(id, o, book);
    }
    hide Inv, OrderInv, Released, Sum, BookOf, ReverseCommission;
  }

  lemma NothingHeldForTopups(id: OrderId, o: Order, book: seq<Entry>)
    requires OrderInv(id, o, book) && o.seller.None?
    ensures Sum(book, EscrowWeight) <= 0
  {
  }

  lemma SameReleaseDeeds(a: Db, b: Db, id: OrderId, held: int, providerOk: bool)
    requires id in a.orders && id in b.orders && a.settings == b.settings && a.users == b.users && a.partners == b.partners
    requires a.orders[id].seller == b.orders[id].seller && a.orders[id].attribution == b.orders[id].attribution
    requires a.orders[id].payments == b.orders[id].payments
    requires Released(BookOf(a.ledger, id)) <==> Released(BookOf(b.ledger, id))
    ensures CanRelease(a, id, held, providerOk) <==> CanRelease(b, id, held, providerOk)
    ensures ReleaseDeeds(a, id, held, providerOk) == ReleaseDeeds(b, id, held, providerOk)
  {
  }

  lemma SamePartners(db: Db, id: OrderId, amount: int, providerOk: bool)
    requires id in db.orders
    ensures CompleteDisputed(db, id).partners == db.partners
    ensures RefundPart(db, id, amount, providerOk).db.partners == db.partners
  {
    hide RefundPartially;
  }

  /** A release of a completed order and, if that succeeds, the closing of its dispute. */
  lemma ReleaseAndClose(db: Db, id: OrderId, cashOutOk: bool, d: DisputeStatus)
    requires Inv(db) && id in db.orders && db.orders[id].status == Completed
    ensures var r := ReleaseOrder(db, id, true, cashOutOk);
            && id in r.db.orders
            && (r.reply.Ok? <==> CanRelease(db, id, HeldBalance(db, id), cashOutOk)
                                 || (db.orders[id].payments != [] && Released(BookOf(db.ledger, id))))
            && DoesOwn(db, if r.reply.Ok? then Finalize(r.db, id, d).db else r.db, id,
                 ReleaseDeeds(db, id, HeldBalance(db, id), cashOutOk) + Only(r.reply.Ok?, Closing(d)))
  {
    hide Inv, ReleaseOrder, After, AllBooks, Written, Books, Released, Finalize;
    ReleasesIff(db, id, true, cashOutOk);
    ReleaseDoes(db, id, true, cashOutOk);
    var r, ds := ReleaseOrder(db, id, true, cashOutOk), ReleaseDeeds(db, id, HeldBalance(db, id), cashOutOk);
    if r.reply.Ok? {
      CloseDoes(r.db, id, d);
      DoesMore(db, r.db, Finalize(r.db, id, d).db, id, ds, [Closing(d)]);
    } else {
      var none: seq<Deed> := [];
      assert ds + none == ds;
    }
  }

  lemma ReleaseResolutionDoes(db: Db, id: OrderId, admin: UserId, refundOk: bool, cashOutOk: bool)
    requires Inv(db) && id in db.orders
    ensures DoesOwn(db, ResolveDispute(db, id, admin, ReleaseSeller, refundOk, cashOutOk).db, id,
      ResolveDeeds(db, id, admin, ReleaseSeller, refundOk, cashOutOk))
  {
    hide Inv, ReleaseOrder, CompleteDisputed, Finalize, After, AllBooks, DoesOwn, Released, HeldBalance, ReleaseDeeds;
    var later := ResolveDispute(db, id, admin, ReleaseSeller, refundOk, cashOutOk).db;
    if Resolvable(db, id) {
      var a := CompleteDisputed(db, id);
      CompleteDisputedKeeps(db, id);
      CompletionMovesNothing(db, id);
      SamePartners(db, id, 0, true);
      CompleteDoes(db, id);
      ReleaseAndClose(a, id, cashOutOk, Rejected);
      SameHeld(a, db, id);
      SameReleaseDeeds(a, db, id, HeldBalance(db, id), cashOutOk);
      var ds := ReleaseDeeds(db, id, HeldBalance(db, id), cashOutOk);
      var end := Only(ReleaseOrder(a, id, true, cashOutOk).reply.Ok?, Closing(Rejected));
      DoesMore(db, a, later, id, [Settling], ds + end);
      assert [Settling] + (ds + end) == [Settling] + ds + end;
    } else {
      DoesNothing(db, later, id);
    }
  }

  lemma SameHeld(a: Db, b: Db, id: OrderId)
    requires a.ledger == b.ledger
    ensures HeldBalance(a, id) == HeldBalance(b, id)
  {
  }

  /** The same after part of the money has gone back. */
  lemma SplitAfterSettling(a: Db, id: OrderId, amount: nat, refundOk: bool, cashOutOk: bool)
    requires Inv(a) && id in a.orders && a.orders[id].status == Completed && CanRefundPart(a, id, amount, refundOk)
    ensures var b := RefundPart(a, id, amount, refundOk);
            && b.reply.Ok? && id in b.db.orders
            && var r := ReleaseOrder(b.db, id, true, cashOutOk);
            && id in r.db.orders
            && (r.reply.Ok? <==> CanRelease(a, id, HeldBalance(a, id) - amount, cashOutOk))
            && DoesOwn(a, if r.reply.Ok? then Finalize(r.db, id, Resolved).db else r.db, id,
                 [RefundingPart(amount)]
                 + (ReleaseDeeds(a, id, HeldBalance(a, id) - amount, cashOutOk) + Only(r.reply.Ok?, Closing(Resolved))))
  {
    hide Inv, ReleaseOrder, RefundPart, Finalize, After, AllBooks, DoesOwn, Released, HeldBalance, ReleaseDeeds;
    var b := RefundPart(a, id, amount, refundOk).db;
    PartDoes(a, id, amount, refundOk);
    PartialOutcome(a, id, amount, refundOk);
    RefundPartKeeps(a, id, amount, refundOk);
    SamePartners(a, id, amount, refundOk);
    ReleaseAndClose(b, id, cashOutOk, Resolved);
    SameReleaseDeeds(b, a, id, HeldBalance(b, id), cashOutOk);
    var r := ReleaseOrder(b, id, true, cashOutOk);
    DoesMore(a, b, if r.reply.Ok? then Finalize(r.db, id, Resolved).db else r.db, id, [RefundingPart(amount)],
      ReleaseDeeds(b, id, HeldBalance(b, id), cashOutOk) + Only(r.reply.Ok?, Closing(Resolved)));
    UnreleasedPart(a, id, amount, refundOk);
  }

  lemma UnreleasedPart(db: Db, id: OrderId, amount: int, providerOk: bool)
    requires CanRefundPart(db, id, amount, providerOk)
    ensures !Released(BookOf(db.ledger, id))
  {
  }

  /** Completing a disputed order leaves alone what a split looks at. */
  lemma Settled(db: Db, id: OrderId, amount: int, refundOk: bool, cashOutOk: bool)
    requires Inv(db) && Resolvable(db, id)
    ensures var a, held := CompleteDisputed(db, id), HeldBalance(db, id) - amount;
            && Inv(a) && id in a.orders && a.orders[id].status == Completed
            && DoesOwn(db, a, id, [Settling])
            && (CanRefundPart(a, id, amount, refundOk) <==> CanRefundPart(db, id, amount, refundOk))
            && HeldBalance(a, id) == HeldBalance(db, id)
            && (CanRelease(a, id, held, cashOutOk) <==> CanRelease(db, id, held, cashOutOk))
            && ReleaseDeeds(a, id, held, cashOutOk) == ReleaseDeeds(db, id, held, cashOutOk)
  {
    hide Inv, After, AllBooks, DoesOwn, Released, HeldBalance, ReleaseDeeds, CanRefundPart, CanRelease;
    var a := CompleteDisputed(db, id);
    CompleteDisputedKeeps(db, id);
    CompletionMovesNothing(db, id);
    SamePartners(db, id, amount, refundOk);
    CompleteDoes(db, id);
    SameHeld(a, db, id);
    SamePart(a, db, id, amount, refundOk);
    SameReleaseDeeds(a, db, id, HeldBalance(db, id) - amount, cashOutOk);
  }

  lemma SplitResolutionDoes(db: Db, id: OrderId, admin: UserId, amount: int, refundOk: bool, cashOutOk: bool)
    requires Inv(db) && id in db.orders
    ensures DoesOwn(db, ResolveDispute(db, id, admin, SplitBetween(amount), refundOk, cashOutOk).db, id,
      ResolveDeeds(db, id, admin, SplitBetween(amount), refundOk, cashOutOk))
  {
    hide Inv, ReleaseOrder, RefundPart, CompleteDisputed, Finalize, After, AllBooks, DoesOwn, Released, HeldBalance,
      ReleaseDeeds, CanRefundPart, CanRelease;
    var later := ResolveDispute(db, id, admin, SplitBetween(amount), refundOk, cashOutOk).db;
    if !Resolvable(db, id) || amount <= 0 {
      DoesNothing(db, later, id);
      return;
    }
    var a := CompleteDisputed(db, id);
    Settled(db, id, amount, refundOk, cashOutOk);
    if CanRefundPart(db, id, amount, refundOk) {
      SplitAfterSettling(a, id, amount, refundOk, cashOutOk);
      var r := ReleaseOrder(RefundPart(a, id, amount, refundOk).db, id, true, cashOutOk);
      var ds, end := ReleaseDeeds(db, id, HeldBalance(db, id) - amount, cashOutOk), Only(r.reply.Ok?, Closing(Resolved));
      DoesMore(db, a, later, id, [Settling], [RefundingPart(amount)] + (ds + end));
      assert [Settling] + ([RefundingPart(amount)] + (ds + end)) == [Settling, RefundingPart(amount)] + ds + end;
    } else {
      PartRefused(a, id, amount, refundOk);
    }
  }

  lemma RefundReplies(db: Db, id: OrderId, actor: Option<UserId>, providerOk: bool)
    requires Inv(db) && id in db.orders && db.orders[id].status != Orders.Refunded
    ensures RefundWhole(db, id, actor, providerOk).reply.Ok? <==> CanRefund(db, id, actor, providerOk)
    ensures !CanRefund(db, id, actor, providerOk) ==> RefundWhole(db, id, actor, providerOk).db == db
  {
    OrderHolds(db, id);
    LatestNotRefunded(id, db.orders[id], BookOf(db.ledger, id));
    hide Inv, OrderInv, Released, FullRefund, Chargeback, BookOf;
  }

  lemma RefundResolutionDoes(db: Db, id: OrderId, admin: UserId, refundOk: bool, cashOutOk: bool)
    requires Inv(db) && id in db.orders
    ensures DoesOwn(db, ResolveDispute(db, id, admin, RefundBuyer, refundOk, cashOutOk).db, id,
      ResolveDeeds(db, id, admin, RefundBuyer, refundOk, cashOutOk))
  {
    hide Inv, RefundWhole, Finalize, After, AllBooks, DoesOwn, CanRefund, RefundDeeds;
    var later := ResolveDispute(db, id, admin, RefundBuyer, refundOk, cashOutOk).db;
    if DisputeIsOpen(db.orders[id]) && db.orders[id].status != Orders.Refunded {
      RefundReplies(db, id, Some(admin), refundOk);
      if CanRefund(db, id, Some(admin), refundOk) {
        var r := RefundWhole(db, id, Some(admin), refundOk).db;
        RefundDoes(db, id, Some(admin), refundOk);
        RefundKeepsOrder(db, id, Some(admin), refundOk);
        CloseDoes(r, id, Resolved);
        DoesMore(db, r, later, id, RefundDeeds(db, id, Some(admin), refundOk), [Closing(Resolved)]);
      } else {
        DoesNothing(db, later, id);
      }
    } else {
      DoesNothing(db, later, id);
    }
  }

  // ----- every call -----

  /** What a call about no order writes to the ledger. */
  function FreeRows(db: Db, s: Step): seq<Entry> {
    match s
    case DoUserPayout(user, cents, instant, age, providerOk) =>
      if !PayoutAdmitted(db, user, cents + (if instant then 100 else 0), age, providerOk) then []
      else
        [Entry(user, None, None, Debit, Available, Payout, cents)]
        + (if instant then [Entry(user, None, None, Debit, Available, Fee, 100)] else [])
    case DoAdjustBalance(user, amount) =>
      if user !in db.users || amount == 0 then []
      else if amount > 0 then [Entry(user, None, None, Credit, Available, ManualAdjustment, amount)]
      else [Entry(user, None, None, Debit, Available, ManualAdjustment, -amount)]
    case _ => []
  }

  ghost function NewRows(db: Db, s: Step): seq<Entry> {
    if OrderOf(db, s).Some? && OrderOf(db, s).value in db.orders
    then AllBooks(OrderOf(db, s).value, db.orders[OrderOf(db, s).value], DeedsOf(db, s, OrderOf(db, s).value))
    else FreeRows(db, s)
  }

  lemma FreeRowsDo(db: Db, s: Step)
    requires s.DoUserPayout? || s.DoAdjustBalance?
    ensures Next(db, s).db.ledger == db.ledger + FreeRows(db, s)
  {
    hide Spendable;
    if s.DoUserPayout? {
      PayoutLedger(db, s.user, s.cents, s.instant, s.accountAgeMs, s.providerOk);
    }
    var main: seq<Entry> := [];
    assert db.ledger + main == db.ledger;
  }

  lemma OwnDeeds(db: Db, s: Step, id: OrderId)
    requires Inv(db) && OrderOf(db, s) == Some(id) && id in db.orders
    ensures DoesOwn(db, Next(db, s).db, id, DeedsOf(db, s, id))
  {
    hide Inv, DoesOwn, ReleaseOrder, RefundWhole, ResolveDispute, PayWithBalance, ProcessWebhook, CreatePixCharge,
      ReleaseDeeds, RefundDeeds, ResolveDeeds;
    if IsOrderCall(s) {
      OrderCallDoes(db, s);
      return;
    }
    match s
    case DoCreateOrder(_, _, _, _) => RefusedDoes(db, s);
    case DoTopUp(_, _, _, _, _) => RefusedDoes(db, s);
    case DoCreatePixCharge(_, _, _) => ChargeDoes(db, s);
    case DoProcessWebhook(_, _) => WebhookDoes(db, s, id);
    case DoPayWithBalance(_, _, _) => WalletDoes(db, s);
    case DoReleaseOrder(_, providerOk) => ReleaseDoes(db, id, false, providerOk);
    case DoRefundOrder(_, actor, providerOk) => RefundDoes(db, id, actor, providerOk);
    case DoResolveDispute(_, admin, how, refundOk, cashOutOk) =>
      match how {
        case RefundBuyer => RefundResolutionDoes(db, id, admin, refundOk, cashOutOk);
        case ReleaseSeller => ReleaseResolutionDoes(db, id, admin, refundOk, cashOutOk);
        case SplitBetween(amount) => SplitResolutionDoes(db, id, admin, amount, refundOk, cashOutOk);
      }
  }

  /** An order that is there is not created again. */
  lemma RefusedDoes(db: Db, s: Step)
    requires (s.DoCreateOrder? || s.DoTopUp?) && s.id in db.orders
    ensures DoesOwn(db, Next(db, s).db, s.id, [])
  {
    hide After, AllBooks;
    DoesNothing(db, Next(db, s).db, s.id);
  }

  lemma OtherDeeds(db: Db, s: Step, id: OrderId)
    requires id in db.orders && OrderOf(db, s) != Some(id)
    ensures DeedsOf(db, s, id) == []
  {
  }

  /** Where there is no order to do anything to, orders are at most created, and the ledger grows by free rows. */
  lemma NoOwnOrder(db: Db, s: Step)
    requires OrderOf(db, s).None? || OrderOf(db, s).value !in db.orders
    ensures Next(db, s).db.ledger == db.ledger + FreeRows(db, s)
  {
    hide NewOrder, CreateCharge, Spendable, ConfirmByWebhook, FollowUp;
    if s.DoUserPayout? || s.DoAdjustBalance? {
      FreeRowsDo(db, s);
    }
    assert db.ledger + [] == db.ledger;
  }

  /** Every call does to every order exactly the deeds of the table, and adds exactly their rows to the ledger. */
  lemma CallsDoTheirDeeds(db: Db, s: Step)
    requires IsReachable(db)
    ensures var later := Next(db, s).db;
            && later.ledger == db.ledger + NewRows(db, s)
            && forall id :: id in db.orders ==>
                 id in later.orders && later.orders[id] == After(db.orders[id], DeedsOf(db, s, id))
  {
    hide Inv, IsReachable, Next, FreeRows, DeedsOf, After, AllBooks, OrderOf, MayMove;
    ReachableInv(db);
    var on, later := OrderOf(db, s), Next(db, s).db;
    if on.Some? && on.value in db.orders {
      OwnDeeds(db, s, on.value);
    } else {
      NoOwnOrder(db, s);
    }
    forall id | id in db.orders ensures id in later.orders && later.orders[id] == After(db.orders[id], DeedsOf(db, s, id)) {
      if on != Some(id) {
        ReachableMovesAreLegal(db, s, id);
        OtherDeeds(db, s, id);
        NothingWritten(db.orders[id]);
      }
    }
  }

  lemma NothingWritten(o: Order)
    ensures After(o, []) == o
  {
  }
}
