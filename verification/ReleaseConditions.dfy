/** When a release goes through, read off the database before the call. */
module ReleaseConditions {
  import opened Wrappers
  import opened Ledger
  import opened Orders
  import opened Settlement
  import opened Market
  import opened OrderInvariant
  import opened OrderPostings
  import opened MarketInvariant
  import opened Theorems
  import A = Attribution

  /** The seller keeps the money in the balance, or can be sent it: a Pix key, no block, and a provider that pays if there
      is anything to pay. */
  predicate CashOutAdmitted(db: Db, o: Order, payout: int, providerOk: bool) {
    || db.settings.splitEnabled
    || (&& o.seller.Some? && o.seller.value in db.users
        && db.users[o.seller.value].hasPixKey && !db.users[o.seller.value].payoutBlocked
        && (payout == 0 || providerOk))
  }

  /** Something is held, nothing released yet, and the seller's share of it can be paid. */
  ghost predicate CanRelease(db: Db, id: OrderId, held: int, providerOk: bool) {
    && id in db.orders
    && var o := db.orders[id];
    && o.seller.Some? && o.attribution.Some? && o.payments != []
    && !Released(BookOf(db.ledger, id)) && 0 < held
    && CashOutAdmitted(db, o, A.SellerShare(o.attribution.value.feeFinal, held), providerOk)
  }

  predicate MayRelease(db: Db, id: OrderId, ignoreDispute: bool) {
    id in db.orders && db.orders[id].status == Completed
    && (ignoreDispute || db.orders[id].dispute !in {Some(Open), Some(Review)})
  }

  lemma {:induction false} OnlyDebits(book: seq<Entry>)
    requires forall e :: e in book && EscrowWeight(e) != 0 ==> e.kind.Debit?
    ensures Sum(book, EscrowWeight) <= 0
  {
    if book != [] {
      assert book[|book| - 1] in book;
      OnlyDebits(book[..|book| - 1]);
    }
  }

  /** Where something is held, there is a held credit to take its owner from. */
  lemma PlansIff(id: OrderId, o: Order, book: seq<Entry>, ignoreDispute: bool)
    requires OrderInv(id, o, book)
    ensures ReadRelease(o, book, ignoreDispute).Plan? <==>
              && o.status == Completed && (ignoreDispute || !DisputeIsOpen(o)) && o.payments != []
              && o.seller.Some? && !Released(book) && 0 < Sum(book, HeldWeight)
    ensures ReadRelease(o, book, ignoreDispute).Plan? ==> ReadRelease(o, book, ignoreDispute).held == Sum(book, HeldWeight)
    ensures o.seller.Some? ==> o.attribution.Some?
  {
    hide Released;
    if FirstHeldCredit(book).None? {
      OnlyDebits(book);
    }
  }

  /** A release call succeeds and writes exactly when all of this holds before it; then the escrow is closed. Otherwise it
      changes nothing, and it reports success only for an order released before. */
  lemma ReleasesIff(db: Db, id: OrderId, ignoreDispute: bool, providerOk: bool)
    requires Inv(db)
    ensures var r := ReleaseOrder(db, id, ignoreDispute, providerOk);
            if MayRelease(db, id, ignoreDispute) && CanRelease(db, id, HeldBalance(db, id), providerOk)
            then r.reply.Ok? && Released(BookOf(r.db.ledger, id)) && HeldBalance(r.db, id) == 0
            else
              && r.db == db
              && (r.reply.Ok? <==> MayRelease(db, id, ignoreDispute) && db.orders[id].payments != []
                                   && Released(BookOf(db.ledger, id)))
  {
    hide Inv, OrderInv, Released, HasCommission;
    if id in db.orders {
      OrderHolds(db, id);
      PlansIff(id, db.orders[id], BookOf(db.ledger, id), ignoreDispute);
      if ReadRelease(db.orders[id], BookOf(db.ledger, id), ignoreDispute).Plan? {
        PlannedReleasesIff(db, id, ignoreDispute, providerOk);
      } else {
        Unplanned(db, id, ignoreDispute, providerOk);
      }
    }
    hide ReleaseOrder;
  }

  lemma Unplanned(db: Db, id: OrderId, ignoreDispute: bool, providerOk: bool)
    requires id in db.orders && !ReadRelease(db.orders[id], BookOf(db.ledger, id), ignoreDispute).Plan?
    ensures var r := ReleaseOrder(db, id, ignoreDispute, providerOk);
            && r.db == db
            && (r.reply.Ok? <==> MayRelease(db, id, ignoreDispute) && db.orders[id].payments != []
                                 && Released(BookOf(db.ledger, id)))
  {
    hide Released;
  }

  lemma PlannedReleasesIff(db: Db, id: OrderId, ignoreDispute: bool, providerOk: bool)
    requires Inv(db) && id in db.orders
    ensures var r := ReleaseOrder(db, id, ignoreDispute, providerOk);
            ReadRelease(db.orders[id], BookOf(db.ledger, id), ignoreDispute).Plan? ==>
            if CanRelease(db, id, HeldBalance(db, id), providerOk)
            then r.reply.Ok? && Released(BookOf(r.db.ledger, id)) && HeldBalance(r.db, id) == 0
            else r.db == db && r.reply.Err?
  {
    var o, book := db.orders[id], BookOf(db.ledger, id);
    var p := ReadRelease(o, book, ignoreDispute);
    if !p.Plan? {
      return;
    }
    OrderHolds(db, id);
    PlanIsSound(id, o, book, ignoreDispute);
    PlansIff(id, o, book, ignoreDispute);
    hide Inv, OrderInv, ReadRelease, Released, Sum, ReleaseOrder, CashOut, ReleaseEntries, FeeAmount, PayoutAmount, BookOf;
    AdmissionAgrees(db, o, p, providerOk);
    PlannedOutcome(db, id, ignoreDispute, providerOk);
    if CashOutAdmitted(db, o, PayoutAmount(p, db.settings), providerOk) {
      EntriesClose(db.ledger, id, p, db.settings);
    }
  }

  lemma PlannedOutcome(db: Db, id: OrderId, ignoreDispute: bool, providerOk: bool)
    requires id in db.orders && ReadRelease(db.orders[id], BookOf(db.ledger, id), ignoreDispute).Plan?
    requires !Released(BookOf(db.ledger, id))
    ensures var o := db.orders[id];
            var p, r := ReadRelease(o, BookOf(db.ledger, id), ignoreDispute), ReleaseOrder(db, id, ignoreDispute, providerOk);
            && p.order.payments != []
            && if CashOut(db.settings, SellerRow(db, o), PayoutAmount(p, db.settings), providerOk).Ok?
               then r.reply.Ok? && r.db.ledger == db.ledger + ReleaseEntries(id, p, db.settings)
               else r.db == db && r.reply.Err?
  {
    hide Released, FeeAmount, PayoutAmount, CashOut, HasCommission, ReleaseEntries;
  }

  lemma EntriesClose(l: seq<Entry>, id: OrderId, p: ReleaseRead, s: Settings)
    requires p.Plan? && p.order.payments != [] && p.held == Sum(BookOf(l, id), HeldWeight)
    ensures var book := BookOf(l + ReleaseEntries(id, p, s), id);
            Released(book) && Sum(book, HeldWeight) == 0
  {
    hide FeeAmount, PayoutAmount, Released, BookOf;
    ReleaseTally(id, BookOf(l, id), p, FeeAmount(p, s), PaidOut(p, s));
    OwnEntries(id, p, s);
    OtherBooks(l, ReleaseEntries(id, p, s), id);
  }

  lemma OwnEntries(id: OrderId, p: ReleaseRead, s: Settings)
    requires p.Plan? && p.order.payments != []
    ensures forall e :: e in ReleaseEntries(id, p, s) ==> e.order == Some(id)
  {
    hide FeeAmount, PayoutAmount;
  }

  lemma AdmissionAgrees(db: Db, o: Order, p: ReleaseRead, providerOk: bool)
    requires p.Plan? && p.order == o && o.attribution.Some?
    ensures PayoutAmount(p, db.settings) == A.SellerShare(o.attribution.value.feeFinal, p.held)
    ensures CashOut(db.settings, SellerRow(db, o), PayoutAmount(p, db.settings), providerOk).Ok? <==>
              CashOutAdmitted(db, o, PayoutAmount(p, db.settings), providerOk)
  {
  }
}
