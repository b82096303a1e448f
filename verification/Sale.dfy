/** An ordinary sale from checkout to release, from any reachable state: what the theorems speak of does happen. */
module Sale {
  import opened Wrappers
  import opened Ledger
  import opened Orders
  import opened Settlement
  import opened Market
  import opened MarketInvariant
  import opened OrderPostings
  import opened Theorems
  import A = Attribution

  /** The calls of a sale by Pix with manual delivery; the seller delivers and the buyer confirms. */
  function SaleSteps(id: OrderId, event: EventId, buyer: UserId, c: Checkout, expiresAt: int): seq<Step> {
    [DoCreatePixCharge(id, buyer, true),
     DoRegisterWebhook(event, Some(Txid(id, 0)), true),
     DoProcessWebhook(event, true),
     DoMarkOrderDelivered(id, c.seller, false),
     DoConfirmOrderReceipt(id, buyer),
     DoReleaseOrder(id, true)]
  }

  function Charged(o: Order): Order { o.(payments := [Payment(Efi, Pending, o.total, false)]) }

  function PaidUp(o: Order): Order {
    Transition(Transition(o, PaidEvent, Paid), InDeliveryEvent, InDelivery).(
      payments := [Payment(Efi, PaymentStatus.Confirmed, o.total, true)])
  }

  function Received(o: Order): Order { Transition(Transition(o, DeliveredEvent, Delivered), CompletedEvent, Completed) }

  /** The order and its rows, with users and settings as they were. */
  ghost predicate Shows(db: Db, id: OrderId, o: Order, book: seq<Entry>, users: map<UserId, User>, settings: Settings) {
    id in db.orders && db.orders[id] == o && BookOf(db.ledger, id) == book && db.users == users && db.settings == settings
  }

  predicate CanBePaid(db: Db, seller: UserId) {
    db.settings.splitEnabled
    || (seller in db.users && db.users[seller].hasPixKey && !db.users[seller].payoutBlocked)
  }

  lemma SameBook(db: Db, id: OrderId, o: Order)
    ensures BookOf(WithOrder(db, id, o, []).ledger, id) == BookOf(db.ledger, id)
  {
    assert db.ledger + [] == db.ledger;
  }

  lemma Creates(db: Db, id: OrderId, buyer: UserId, c: Checkout, expiresAt: int)
    requires Inv(db) && id !in db.orders && c.published && (c.delivery == Auto ==> c.quantity <= c.available)
    ensures CreateOrder(db, id, buyer, c, expiresAt).reply.Ok?
    ensures Shows(CreateOrder(db, id, buyer, c, expiresAt).db, id, NewOrder(buyer, c, expiresAt), [], db.users, db.settings)
    ensures CreateOrder(db, id, buyer, c, expiresAt).db.webhooks == db.webhooks
  {
    SameBook(db, id, NewOrder(buyer, c, expiresAt));
    BookOfOther(db.ledger, id);
  }

  lemma Charges(db: Db, id: OrderId, o: Order)
    requires Shows(db, id, o, [], db.users, db.settings) && o.status == AwaitingPayment && o.payments == []
    ensures var r := CreatePixCharge(db, id, o.buyer, true);
            r.reply.Ok? && Shows(r.db, id, Charged(o), [], db.users, db.settings) && r.db.webhooks == db.webhooks
  {
    SameBook(db, id, Charged(o));
  }

  /** The webhook is registered and its job runs. */
  lemma Pays(db: Db, id: OrderId, o: Order, event: EventId)
    requires Shows(db, id, Charged(o), [], db.users, db.settings) && event !in db.webhooks
    requires o.status == AwaitingPayment && o.seller.Some? && o.delivery == Some(Manual)
    ensures var a := RegisterWebhook(db, event, Some(Txid(id, 0)), true);
            var b := ProcessWebhook(a.db, event, true);
            && a.reply.Ok? && b.reply.Ok?
            && Shows(b.db, id, PaidUp(o), [HeldEntry(id, Txid(id, 0), o.seller.value, o.total)], db.users, db.settings)
  {
    hide BookOf, PaidUp, ProcessWebhook, Charged;
    var a := RegisterWebhook(db, event, Some(Txid(id, 0)), true).db;
    var held := HeldEntry(id, Txid(id, 0), o.seller.value, o.total);
    JobOutcome(a, id, o, event);
    BookOfConcat(a.ledger, [held], id);
    BookOfOwn([held], id);
    assert [] + [held] == [held];
    SameBook(WithOrder(Seen(a, event), id, PaidUp(o), [held]), id, PaidUp(o));
  }

  function Seen(db: Db, event: EventId): Db
    requires event in db.webhooks
  {
    db.(webhooks := db.webhooks[event := db.webhooks[event].(processed := true)])
  }

  lemma JobOutcome(db: Db, id: OrderId, o: Order, event: EventId)
    requires event in db.webhooks && db.webhooks[event] == WebhookEvent(Some(Txid(id, 0)), true, false)
    requires id in db.orders && db.orders[id] == Charged(o) && BookOf(db.ledger, id) == []
    requires o.status == AwaitingPayment && o.seller.Some? && o.delivery == Some(Manual)
    ensures var held := HeldEntry(id, Txid(id, 0), o.seller.value, o.total);
            ProcessWebhook(db, event, true) ==
              Response(WithOrder(WithOrder(Seen(db, event), id, PaidUp(o), [held]), id, PaidUp(o), []), Ok)
  {
    Confirms(id, o);
    PaidUpRow(o);
    hide ConfirmByWebhook, BookOf, PaidUp, FollowUp;
    NothingFollows(WithOrder(Seen(db, event), id, PaidUp(o), [HeldEntry(id, Txid(id, 0), o.seller.value, o.total)]), id);
  }

  lemma NothingFollows(db: Db, id: OrderId)
    requires id in db.orders && db.orders[id].delivery == Some(Manual)
    ensures FollowUp(db, id, true, true) == Response(WithOrder(db, id, db.orders[id], []), Ok)
  {
  }

  lemma PaidUpRow(o: Order)
    ensures var p := PaidUp(o);
            && p.status == InDelivery && p.buyer == o.buyer && p.seller == o.seller && p.delivery == o.delivery
            && p.dispute == o.dispute && p.total == o.total
            && p.payments == [Payment(Efi, PaymentStatus.Confirmed, o.total, true)]
            && p.attribution == o.attribution && p.commissions == o.commissions
  {
  }

  lemma Confirms(id: OrderId, o: Order)
    requires o.status == AwaitingPayment && o.seller.Some?
    ensures ConfirmByWebhook(Charged(o), [], Txid(id, 0)) ==
            Posting(PaidUp(o), [HeldEntry(id, Txid(id, 0), o.seller.value, o.total)])
  {
  }

  lemma Delivers(db: Db, id: OrderId, o: Order, book: seq<Entry>)
    requires Shows(db, id, o, book, db.users, db.settings)
    requires o.status == InDelivery && o.delivery == Some(Manual) && o.seller.Some? && o.dispute.None?
    ensures var a := MarkOrderDelivered(db, id, o.seller.value, false);
            var b := ConfirmOrderReceipt(a.db, id, o.buyer);
            && a.reply.Ok? && b.reply.Ok? && Shows(b.db, id, Received(o), book, db.users, db.settings)
  {
    var delivered := Transition(o, DeliveredEvent, Delivered);
    SameBook(db, id, delivered);
    SameBook(WithOrder(db, id, delivered, []), id, Received(o));
  }

  /** What the rows of the sale add up to. */
  ghost predicate IsSold(book: seq<Entry>, total: nat, split: bool) {
    && Released(book)
    && Sum(book, HeldWeight) == 0 && Sum(book, ReleaseWeight) == total && Sum(book, HeldRefundWeight) == 0
    && Sum(book, PayoutWeight) == if split then 0 else total - Sum(book, FeeWeight)
  }

  lemma OneHeldRow(id: OrderId, seller: UserId, total: nat)
    requires 0 < total
    ensures var e := HeldEntry(id, Txid(id, 0), seller, total);
            && Sum([e], EscrowWeight) == total == Sum([e], HeldWeight) && Sum([e], ReleaseWeight) == 0
            && Sum([e], HeldRefundWeight) == 0 && Sum([e], FeeWeight) == 0 && Sum([e], PayoutWeight) == 0
            && !Released([e]) && FirstHeldCredit([e]) == Some(e)
  {
    var e := HeldEntry(id, Txid(id, 0), seller, total);
    SumOne(e, EscrowWeight);
    SumOne(e, HeldWeight);
    SumOne(e, ReleaseWeight);
    SumOne(e, HeldRefundWeight);
    SumOne(e, FeeWeight);
    SumOne(e, PayoutWeight);
    assert [e][..0] == [];
  }

  lemma Releases(db: Db, id: OrderId, o: Order, seller: UserId)
    requires o.seller == Some(seller) && |o.payments| == 1 && o.status == Completed && o.dispute.None? && 0 < o.total
    requires Shows(db, id, o, [HeldEntry(id, Txid(id, 0), seller, o.total)], db.users, db.settings)
    requires CanBePaid(db, seller)
    ensures var r := ReleaseOrder(db, id, false, true);
            && r.reply.Ok? && id in r.db.orders && r.db.orders[id].payments == o.payments
            && r.db.orders[id].status == Completed && IsSold(BookOf(r.db.ledger, id), o.total, db.settings.splitEnabled)
  {
    var book := [HeldEntry(id, Txid(id, 0), seller, o.total)];
    OneHeldRow(id, seller, o.total);
    var p := Plan(o, o.total, seller);
    assert ReadRelease(o, book, false) == p;
    ReleaseTally(id, book, p, FeeAmount(p, db.settings), PaidOut(p, db.settings));
    ReleaseCommits(db, id, o, book, p, false, seller);
    var es := ReleaseEntries(id, p, db.settings);
    OtherBooks(db.ledger, es, id);
    hide ReleaseOrder, FeeAmount, ReadRelease, Released;
  }

  lemma ReleaseCommits(db: Db, id: OrderId, o: Order, book: seq<Entry>, p: ReleaseRead, ignoreDispute: bool, seller: UserId)
    requires Shows(db, id, o, book, db.users, db.settings) && o.seller == Some(seller) && CanBePaid(db, seller)
    requires ReadRelease(o, book, ignoreDispute) == p && p.Plan? && p.order == o && o.payments != [] && !Released(book)
    ensures var r := ReleaseOrder(db, id, ignoreDispute, true);
            && r.reply.Ok? && r.db.ledger == db.ledger + ReleaseEntries(id, p, db.settings)
            && id in r.db.orders && r.db.orders[id].payments == o.payments && r.db.orders[id].status == o.status
            && r.db.orders[id].attribution == o.attribution
            && r.db.orders[id].commissions == EarnCommission(o, PartnerActive(db, o)).commissions
    ensures forall e :: e in ReleaseEntries(id, p, db.settings) ==> e.order == Some(id)
  {
    hide ReadRelease, FeeAmount, Released, HasCommission;
  }

  lemma Then(db: Db, steps: seq<Step>, s: Step)
    ensures Run(db, steps + [s]) == Next(Run(db, steps), s).db
  {
    assert (steps + [s])[..|steps|] == steps;
  }

  lemma NewOrderRow(buyer: UserId, c: Checkout, expiresAt: int)
    ensures var o := NewOrder(buyer, c, expiresAt);
            && o.buyer == buyer && o.seller == Some(c.seller) && o.status == AwaitingPayment && o.payments == []
            && o.dispute.None? && o.commissions == [] && o.delivery == Some(c.delivery)
            && o.total == A.CalculateTotals(TermsOf(c)).finalTotal
  {
  }

  function ByThen(db: Db, a: Step, b: Step, c: Step): Db { Next(Next(Next(db, a).db, b).db, c).db }

  /** Charge, webhook, job. */
  lemma FirstHalf(d0: Db, id: OrderId, o: Order, event: EventId)
    requires Shows(d0, id, o, [], d0.users, d0.settings) && event !in d0.webhooks
    requires o.status == AwaitingPayment && o.seller.Some? && o.delivery == Some(Manual) && o.payments == []
    ensures var d3 := ByThen(d0, DoCreatePixCharge(id, o.buyer, true), DoRegisterWebhook(event, Some(Txid(id, 0)), true),
                        DoProcessWebhook(event, true));
            Shows(d3, id, PaidUp(o), [HeldEntry(id, Txid(id, 0), o.seller.value, o.total)], d0.users, d0.settings)
  {
    hide CreatePixCharge, RegisterWebhook, ProcessWebhook, PaidUp, BookOf, Charged;
    Charges(d0, id, o);
    Pays(CreatePixCharge(d0, id, o.buyer, true).db, id, o, event);
  }

  /** Delivery, receipt, release. */
  lemma SecondHalf(d3: Db, id: OrderId, o: Order, seller: UserId)
    requires o.seller == Some(seller) && |o.payments| == 1 && o.status == InDelivery && o.dispute.None? && 0 < o.total
    requires o.delivery == Some(Manual) && CanBePaid(d3, seller)
    requires Shows(d3, id, o, [HeldEntry(id, Txid(id, 0), seller, o.total)], d3.users, d3.settings)
    ensures var d6 := ByThen(d3, DoMarkOrderDelivered(id, seller, false), DoConfirmOrderReceipt(id, o.buyer),
                        DoReleaseOrder(id, true));
            && id in d6.orders && d6.orders[id].payments == o.payments && d6.orders[id].status == Completed
            && IsSold(BookOf(d6.ledger, id), o.total, d3.settings.splitEnabled)
  {
    hide MarkOrderDelivered, ConfirmOrderReceipt, ReleaseOrder, BookOf, IsSold;
    Delivers(d3, id, o, [HeldEntry(id, Txid(id, 0), seller, o.total)]);
    Releases(ConfirmOrderReceipt(MarkOrderDelivered(d3, id, seller, false).db, id, o.buyer).db, id, Received(o), seller);
  }

  /** Whatever has happened before, a sale at a price above zero to a seller who can be paid goes through: the order is
      released with nothing held back, and the seller is paid the price less fee at once, or has it in the balance. */
  lemma SaleGoesThrough(db: Db, id: OrderId, event: EventId, buyer: UserId, c: Checkout, expiresAt: int)
    requires IsReachable(db) && id !in db.orders && event !in db.webhooks
    requires c.published && c.delivery == Manual && 0 < A.CalculateTotals(TermsOf(c)).finalTotal && CanBePaid(db, c.seller)
    ensures var sold := Run(Next(db, DoCreateOrder(id, buyer, c, expiresAt)).db, SaleSteps(id, event, buyer, c, expiresAt));
            && SoldOnce(sold, id) && sold.orders[id].status == Completed
            && IsSold(BookOf(sold.ledger, id), A.CalculateTotals(TermsOf(c)).finalTotal, db.settings.splitEnabled)
  {
    hide Inv, NewOrder, A.CalculateTotals, PaidUp, IsReachable, CreateOrder, Run, IsSold, ByThen, BookOf, SoldOnce;
    var d0 := CreateOrder(db, id, buyer, c, expiresAt).db;
    assert d0 == Next(db, DoCreateOrder(id, buyer, c, expiresAt)).db;
    hide Next;
    var o := NewOrder(buyer, c, expiresAt);
    ReachableInv(db);
    Creates(db, id, buyer, c, expiresAt);
    NewOrderRow(buyer, c, expiresAt);
    PaidUpRow(o);
    FirstHalf(d0, id, o, event);
    var steps := SaleSteps(id, event, buyer, c, expiresAt);
    var d3 := ByThen(d0, steps[0], steps[1], steps[2]);
    SecondHalf(d3, id, PaidUp(o), c.seller);
    SixSteps(d0, steps);
    OnePaid(o.total);
    assert SoldOnce(Run(d0, steps), id) by { IsSoldOnce(Run(d0, steps), id, o.total, db.settings.splitEnabled); }
  }

  lemma IsSoldOnce(db: Db, id: OrderId, total: nat, split: bool)
    requires id in db.orders && PaidCount(db.orders[id].payments) == 1 && IsSold(BookOf(db.ledger, id), total, split)
    ensures SoldOnce(db, id)
  {
  }

  lemma OnePaid(total: nat)
    ensures PaidCount([Payment(Efi, PaymentStatus.Confirmed, total, true)]) == 1
  {
    assert [Payment(Efi, PaymentStatus.Confirmed, total, true)][..0] == [];
  }

  lemma SixSteps(d0: Db, steps: seq<Step>)
    requires |steps| == 6
    ensures Run(d0, steps) == ByThen(ByThen(d0, steps[0], steps[1], steps[2]), steps[3], steps[4], steps[5])
  {
    hide Next;
    Then(d0, [], steps[0]);
    Then(d0, steps[..1], steps[1]);
    Then(d0, steps[..2], steps[2]);
    Then(d0, steps[..3], steps[3]);
    Then(d0, steps[..4], steps[4]);
    Then(d0, steps[..5], steps[5]);
    assert steps[..1] == [] + [steps[0]] && steps[..2] == steps[..1] + [steps[1]] && steps[..3] == steps[..2] + [steps[2]];
    assert steps[..4] == steps[..3] + [steps[3]] && steps[..5] == steps[..4] + [steps[4]] && steps == steps[..5] + [steps[5]];
  }
}
