/** A sale whose dispute is settled almost entirely in the buyer's favour: the commission outgrows the fee taken. */
module SplitSale {
  import opened Wrappers
  import opened Ledger
  import opened Orders
  import opened Settlement
  import opened Market
  import opened MarketInvariant
  import opened OrderPostings
  import opened Theorems
  import opened Sale
  import A = Attribution

  /** The held payment after a partial refund. */
  function SplitBook(id: OrderId, o: Order, seller: UserId, amount: nat): seq<Entry>
    requires o.payments != []
  {
    [HeldEntry(id, Txid(id, 0), seller, o.total)]
    + ([RefundRow(id, o, seller, Debit, Held, amount)] + [RefundRow(id, o, seller, Credit, Reversed, amount)])
  }

  lemma SplitBookSums(id: OrderId, o: Order, seller: UserId, amount: nat)
    requires o.payments != [] && amount < o.total
    ensures var book := SplitBook(id, o, seller, amount);
            && Sum(book, EscrowWeight) == o.total - amount && Sum(book, ReleaseWeight) == 0
            && !Released(book) && FirstHeldCredit(book) == Some(HeldEntry(id, Txid(id, 0), seller, o.total))
  {
    var e := HeldEntry(id, Txid(id, 0), seller, o.total);
    var a, b := RefundRow(id, o, seller, Debit, Held, amount), RefundRow(id, o, seller, Credit, Reversed, amount);
    OneHeldRow(id, seller, o.total);
    SumConcat([e], [a] + [b], EscrowWeight);
    SumConcat([e], [a] + [b], ReleaseWeight);
    SumConcat([a], [b], EscrowWeight);
    SumConcat([a], [b], ReleaseWeight);
    SumOne(a, EscrowWeight);
    SumOne(b, EscrowWeight);
    SumOne(a, ReleaseWeight);
    SumOne(b, ReleaseWeight);
    var book := SplitBook(id, o, seller, amount);
    assert book == [e, a, b] && book[..2] == [e, a] && [e, a][..1] == [e];
  }

  /** An order in dispute, paid once. */
  ghost predicate InDispute(db: Db, id: OrderId, o: Order, seller: UserId) {
    && o.seller == Some(seller) && o.status == Disputed && o.dispute == Some(Open) && 0 < o.total
    && o.payments == [Payment(Efi, PaymentStatus.Confirmed, o.total, true)] && o.commissions == []
    && Shows(db, id, o, [HeldEntry(id, Txid(id, 0), seller, o.total)], db.users, db.settings)
  }

  lemma RefundsPart(db: Db, id: OrderId, o: Order, seller: UserId, amount: nat)
    requires o.seller == Some(seller) && o.payments == [Payment(Efi, PaymentStatus.Confirmed, o.total, true)]
    requires 0 < amount < o.total && o.commissions == []
    requires Shows(db, id, o, [HeldEntry(id, Txid(id, 0), seller, o.total)], db.users, db.settings)
    ensures var r := RefundPart(db, id, amount, true);
            && r.reply.Ok? && Shows(r.db, id, Annotate(o), SplitBook(id, o, seller, amount), db.users, db.settings)
            && r.db.partners == db.partners
  {
    var held := [HeldEntry(id, Txid(id, 0), seller, o.total)];
    var es := [RefundRow(id, o, seller, Debit, Held, amount)] + [RefundRow(id, o, seller, Credit, Reversed, amount)];
    OneHeldRow(id, seller, o.total);
    OtherBooks(db.ledger, es, id);
    hide Released, Sum, BookOf;
  }

  /** Splitting a dispute releases what is left, and earns the whole commission. */
  lemma SplitReleasesTheRest(db: Db, id: OrderId, o: Order, seller: UserId, amount: nat, admin: UserId)
    requires InDispute(db, id, o, seller) && CanBePaid(db, seller) && 0 < amount < o.total
    ensures var r := ResolveDispute(db, id, admin, SplitBetween(amount), true, true);
            && r.reply.Ok? && id in r.db.orders && r.db.orders[id].attribution == o.attribution
            && r.db.orders[id].commissions == EarnCommission(o, PartnerActive(db, o)).commissions
            && Released(BookOf(r.db.ledger, id)) && Sum(BookOf(r.db.ledger, id), ReleaseWeight) == o.total - amount
  {
    hide Released, RefundPart, ReleaseOrder, BookOf, Sum, EarnCommission, SplitBook;
    var done := Transition(o, Note, Completed);
    var a := CompleteDisputed(db, id);
    SameBook(db, id, done);
    assert a == WithOrder(db, id, done, []);
    RefundsPart(a, id, done, seller, amount);
    var b := RefundPart(a, id, amount, true).db;
    RestReleased(b, id, done, seller, amount);
    var r := ReleaseOrder(b, id, true, true).db;
    SameBook(r, id, r.orders[id].(dispute := Some(Resolved)));
    SameCommission(db, b, o, Annotate(done));
  }

  lemma SameCommission(db: Db, b: Db, o: Order, p: Order)
    requires b.partners == db.partners && p.attribution == o.attribution && p.commissions == o.commissions
    ensures EarnCommission(p, PartnerActive(b, p)).commissions == EarnCommission(o, PartnerActive(db, o)).commissions
  {
  }

  lemma RestReleased(b: Db, id: OrderId, done: Order, seller: UserId, amount: nat)
    requires done.seller == Some(seller) && done.status == Completed && done.payments != [] && 0 < amount < done.total
    requires Shows(b, id, Annotate(done), SplitBook(id, done, seller, amount), b.users, b.settings) && CanBePaid(b, seller)
    ensures var r := ReleaseOrder(b, id, true, true);
            && r.reply.Ok? && id in r.db.orders && r.db.orders[id].attribution == done.attribution
            && r.db.orders[id].commissions == EarnCommission(Annotate(done), PartnerActive(b, Annotate(done))).commissions
            && Released(BookOf(r.db.ledger, id)) && Sum(BookOf(r.db.ledger, id), ReleaseWeight) == done.total - amount
  {
    hide Released, ReleaseOrder, BookOf, ReadRelease, FirstHeldCredit, FeeAmount, EarnCommission, SplitBook;
    var noted, book := Annotate(done), SplitBook(id, done, seller, amount);
    SplitBookSums(id, done, seller, amount);
    var p := Plan(noted, done.total - amount, seller);
    PlansTheRest(noted, book, done.total - amount, seller, HeldEntry(id, Txid(id, 0), seller, done.total));
    ReleaseCommits(b, id, noted, book, p, true, seller);
    ReleaseTally(id, book, p, FeeAmount(p, b.settings), PaidOut(p, b.settings));
    OtherBooks(b.ledger, ReleaseEntries(id, p, b.settings), id);
  }

  lemma PlansTheRest(o: Order, book: seq<Entry>, held: nat, seller: UserId, credit: Entry)
    requires o.status == Completed && o.payments != [] && !Released(book) && 0 < held
    requires Sum(book, EscrowWeight) == held && FirstHeldCredit(book) == Some(credit) && credit.user == seller
    ensures ReadRelease(o, book, true) == Plan(o, held, seller)
  {
  }

  /** The calls of a sale that is disputed on delivery and split by an administrator. */
  function SplitSteps(id: OrderId, event: EventId, buyer: UserId, seller: UserId, admin: UserId, amount: nat): seq<Step> {
    [DoCreatePixCharge(id, buyer, true),
     DoRegisterWebhook(event, Some(Txid(id, 0)), true),
     DoProcessWebhook(event, true),
     DoMarkOrderDelivered(id, seller, false),
     DoOpenOrderDispute(id, buyer),
     DoResolveDispute(id, admin, SplitBetween(amount), true, true)]
  }

  lemma Disputes(db: Db, id: OrderId, o: Order, seller: UserId)
    requires o.status == InDelivery && o.delivery == Some(Manual)
    requires o.seller == Some(seller) && o.dispute.None? && 0 < o.total
    requires o.payments == [Payment(Efi, PaymentStatus.Confirmed, o.total, true)] && o.commissions == []
    requires Shows(db, id, o, [HeldEntry(id, Txid(id, 0), seller, o.total)], db.users, db.settings)
    ensures var a := MarkOrderDelivered(db, id, seller, false).db;
            var b := OpenOrderDispute(a, id, o.buyer).db;
            && id in b.orders && b.users == db.users && b.settings == db.settings && b.partners == db.partners
            && InDispute(b, id, b.orders[id], seller)
            && b.orders[id].total == o.total && b.orders[id].attribution == o.attribution
  {
    var delivered := Transition(o, DeliveredEvent, Delivered);
    SameBook(db, id, delivered);
    var a := WithOrder(db, id, delivered, []);
    SameBook(a, id, Transition(delivered, DisputedEvent, Disputed).(dispute := Some(Open)));
    hide BookOf;
  }

  lemma KeepsPartners(db: Db, s: Step)
    requires s.DoCreateOrder? || s.DoCreatePixCharge? || s.DoRegisterWebhook? || s.DoProcessWebhook?
    ensures Next(db, s).db.partners == db.partners
  {
  }

  /** From any reachable state: such a sale releases what the buyer does not get back, and the partner earns the whole
      attributed commission. */
  lemma DisputedSaleSplits(db: Db, id: OrderId, event: EventId, buyer: UserId, c: Checkout, expiresAt: int,
      admin: UserId, amount: nat)
    requires IsReachable(db) && id !in db.orders && event !in db.webhooks
    requires c.published && c.delivery == Manual && CanBePaid(db, c.seller)
    requires 0 < amount < A.CalculateTotals(TermsOf(c)).finalTotal
    ensures var o := NewOrder(buyer, c, expiresAt);
            var end := Run(Next(db, DoCreateOrder(id, buyer, c, expiresAt)).db,
                           SplitSteps(id, event, buyer, c.seller, admin, amount));
            && id in end.orders && end.orders[id].attribution == o.attribution && Released(BookOf(end.ledger, id))
            && Sum(BookOf(end.ledger, id), ReleaseWeight) == A.CalculateTotals(TermsOf(c)).finalTotal - amount
            && end.orders[id].commissions == EarnCommission(o, PartnerActive(db, o)).commissions
  {
    hide Inv, NewOrder, A.CalculateTotals, PaidUp, IsReachable, CreateOrder, Run, ByThen, BookOf, InDispute;
    hide CreatePixCharge, RegisterWebhook, ProcessWebhook, EarnCommission, Released, Sum;
    var o := NewOrder(buyer, c, expiresAt);
    var create := DoCreateOrder(id, buyer, c, expiresAt);
    var d0 := Next(db, create).db;
    var steps := SplitSteps(id, event, buyer, c.seller, admin, amount);
    ReachableInv(db);
    Creates(db, id, buyer, c, expiresAt);
    NewOrderRow(buyer, c, expiresAt);
    PaidUpRow(o);
    FirstHalf(d0, id, o, event);
    var d3 := ByThen(d0, steps[0], steps[1], steps[2]);
    FirstHalfKeepsPartners(db, create, steps[0], steps[1], steps[2]);
    SecondHalfSplits(d3, id, PaidUp(o), c.seller, admin, amount);
    SixSteps(d0, steps);
    SameCommission(db, d3, o, PaidUp(o));
  }

  lemma FirstHalfKeepsPartners(db: Db, create: Step, a: Step, b: Step, c: Step)
    requires create.DoCreateOrder? && a.DoCreatePixCharge? && b.DoRegisterWebhook? && c.DoProcessWebhook?
    ensures ByThen(Next(db, create).db, a, b, c).partners == db.partners
  {
    hide Next;
    KeepsPartners(db, create);
    KeepsPartners(Next(db, create).db, a);
    KeepsPartners(Next(Next(db, create).db, a).db, b);
    KeepsPartners(Next(Next(Next(db, create).db, a).db, b).db, c);
  }

  lemma SecondHalfSplits(d3: Db, id: OrderId, o: Order, seller: UserId, admin: UserId, amount: nat)
    requires o.status == InDelivery && o.delivery == Some(Manual) && o.seller == Some(seller) && o.dispute.None?
    requires o.payments == [Payment(Efi, PaymentStatus.Confirmed, o.total, true)] && o.commissions == []
    requires Shows(d3, id, o, [HeldEntry(id, Txid(id, 0), seller, o.total)], d3.users, d3.settings)
    requires CanBePaid(d3, seller) && 0 < amount < o.total
    ensures var end := ByThen(d3, DoMarkOrderDelivered(id, seller, false), DoOpenOrderDispute(id, o.buyer),
                              DoResolveDispute(id, admin, SplitBetween(amount), true, true));
            && id in end.orders && end.orders[id].attribution == o.attribution && Released(BookOf(end.ledger, id))
            && Sum(BookOf(end.ledger, id), ReleaseWeight) == o.total - amount
            && end.orders[id].commissions == EarnCommission(o, PartnerActive(d3, o)).commissions
  {
    hide MarkOrderDelivered, OpenOrderDispute, ResolveDispute, BookOf, InDispute, EarnCommission, Released, Sum;
    Disputes(d3, id, o, seller);
    var d5 := OpenOrderDispute(MarkOrderDelivered(d3, id, seller, false).db, id, o.buyer).db;
    SplitReleasesTheRest(d5, id, d5.orders[id], seller, amount, admin);
    InDisputeRow(d5, id, d5.orders[id], seller);
    SameCommission(d3, d5, o, d5.orders[id]);
  }

  lemma InDisputeRow(db: Db, id: OrderId, o: Order, seller: UserId)
    requires InDispute(db, id, o, seller)
    ensures o.commissions == []
  {
  }

  /** It can happen that the commission is above the fee taken: a price of 10.00 at a fee of 50%, all of it to the partner,
      and 9.90 back to the buyer leave a fee of 10 cents and a commission of 5.00. */
  lemma UncoveredCommission() returns (db: Db)
    ensures IsReachable(db) && IsSellerOrder(db, 1) && Released(BookOf(db.ledger, 1))
    ensures CommissionSum(db.orders[1].commissions) == 500 && Sum(BookOf(db.ledger, 1), FeeWeight) == 10
  {
    var split := DoSetSettings(Settings(true, 0));
    var c := Checkout(true, 0, 7, 1000, 1, Manual, 5000, None, None, Some((3, 10000)));
    var start := Next(Empty(), split).db;
    var create, steps := DoCreateOrder(1, 8, c, 0), SplitSteps(1, 5, 8, 7, 9, 990);
    var o := NewOrder(8, c, 0);
    assert o.total == 1000 && o.attribution == Some(Attribution(Some(3), 1000, 0, 500, 500, 500)) && o.commissions == [];
    assert Empty() == Run(Empty(), []);
    assert start == Db(map[], [], map[], map[], map[], [], Settings(true, 0));
    NewOrderRow(8, c, 0);
    EarnsFirst(o, PartnerActive(start, o));
    hide NewOrder, Next, IsReachable, Run, Released, Sum, BookOf, CommissionSum;
    ReachableNext(Empty(), split);
    DisputedSaleSplits(start, 1, 5, 8, c, 0, 9, 990);
    ReachableNext(start, create);
    ReachableLater(Next(start, create).db, steps);
    db := Run(Next(start, create).db, steps);
    FeeOfRelease(db, 1);
  }

  lemma EarnsFirst(o: Order, active: bool)
    requires OwesCommission(o) && o.commissions == [] && active
    ensures CommissionSum(EarnCommission(o, active).commissions) == o.attribution.value.commission
  {
    var cs := EarnCommission(o, active).commissions;
    assert |cs| == 1 && cs[..0] == [];
  }

  lemma FeeOfRelease(db: Db, id: OrderId)
    requires IsReachable(db) && id in db.orders && db.orders[id].attribution.Some? && Released(BookOf(db.ledger, id))
    ensures IsSellerOrder(db, id)
    ensures var book := BookOf(db.ledger, id);
            Sum(book, FeeWeight) == A.FeeTaken(db.orders[id].attribution.value.feeFinal, Sum(book, ReleaseWeight))
  {
    ReachableInv(db);
  }
}
