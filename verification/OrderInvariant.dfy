/** What is true of every order and its book of ledger rows, and that each posting keeps it. */
module OrderInvariant {
  import opened Wrappers
  import opened Ledger
  import opened Orders
  import opened Settlement
  import A = Attribution

  // ----- the sums that matter, taken together -----

  datatype Tally = Tally(
    held: int, escrow: int, credits: int, heldRefunds: int,
    fees: int, payouts: int, released: int, releases: int, sellerSide: int)

  ghost function TallyOf(book: seq<Entry>): Tally {
    Tally(Sum(book, HeldWeight), Sum(book, EscrowWeight), Sum(book, HeldCreditWeight), Sum(book, HeldRefundWeight),
      Sum(book, FeeWeight), Sum(book, PayoutWeight), Sum(book, ReleaseWeight), Sum(book, ReleaseCount),
      Sum(book, SellerSideWeight))
  }

  ghost function AddRow(t: Tally, e: Entry): Tally {
    Tally(t.held + HeldWeight(e), t.escrow + EscrowWeight(e), t.credits + HeldCreditWeight(e),
      t.heldRefunds + HeldRefundWeight(e), t.fees + FeeWeight(e), t.payouts + PayoutWeight(e),
      t.released + ReleaseWeight(e), t.releases + ReleaseCount(e), t.sellerSide + SellerSideWeight(e))
  }

  lemma TallyAppend(book: seq<Entry>, e: Entry)
    ensures TallyOf(book + [e]) == AddRow(TallyOf(book), e)
    ensures Released(book + [e]) <==> Released(book) || IsRelease(e)
  {
    SumAppend(book, e, HeldWeight);
    SumAppend(book, e, EscrowWeight);
    SumAppend(book, e, HeldCreditWeight);
    SumAppend(book, e, HeldRefundWeight);
    SumAppend(book, e, FeeWeight);
    SumAppend(book, e, PayoutWeight);
    SumAppend(book, e, ReleaseWeight);
    SumAppend(book, e, ReleaseCount);
    SumAppend(book, e, SellerSideWeight);
    if Released(book) {
      var r :| r in book && IsRelease(r);
      assert r in book + [e];
    }
    if IsRelease(e) {
      assert e in book + [e];
    }
  }

  /** How often a payment was credited, and what the existence guards see of it. */
  lemma {:induction false} HeldCreditCount(book: seq<Entry>, t: Txid)
    ensures 0 <= Sum(book, HeldCreditsOf(t))
    ensures HasHeldCredit(book, t) <==> 0 < Sum(book, HeldCreditsOf(t))
  {
    if book != [] {
      var c, e := book[..|book| - 1], book[|book| - 1];
      HeldCreditCount(c, t);
      assert forall x :: x in book <==> x in c || x == e;
    }
  }

  lemma {:induction false} TopupCount(book: seq<Entry>, t: Txid)
    ensures 0 <= Sum(book, TopupsOf(t))
    ensures HasTopup(book, t) <==> 0 < Sum(book, TopupsOf(t))
  {
    if book != [] {
      var c, e := book[..|book| - 1], book[|book| - 1];
      TopupCount(c, t);
      assert forall x :: x in book <==> x in c || x == e;
    }
  }

  // ----- the invariant -----

  ghost predicate StatusInv(o: Order) {
    && o.status != Paid
    && (o.dispute.Some? ==> o.status in {Disputed, Completed, Orders.Refunded})
    && (o.status == Disputed ==> DisputeIsOpen(o))
  }

  ghost predicate PaymentInv(o: Order, p: Payment) {
    && p.amount == o.total
    && (p.status.Confirmed? ==> p.paid)
    && (p.paid ==> p.status.Confirmed? || p.status.PaymentRefunded?)
    && (p.status.PaymentRefunded? ==> o.status == Orders.Refunded)
  }

  ghost predicate PaymentsInv(o: Order) { forall p :: p in o.payments ==> PaymentInv(o, p) }

  /** The amounts fixed at checkout. */
  ghost predicate AttributionInv(o: Order) {
    && o.attribution.Some?
    && var a := o.attribution.value;
    && 0 <= a.originalTotal
    && o.total == Max(a.originalTotal - a.discount, 0)
    && a.feeFinal == Max(a.feeBase - a.discount, 0)
    && 0 <= a.commission <= a.feeFinal
    && a.discount <= a.feeBase
    && (0 <= a.feeBase ==> 0 <= a.discount)
  }

  ghost predicate IsPaidCredit(id: OrderId, o: Order, e: Entry) {
    && e.source.OrderPayment?
    && e.payment.Some? && e.payment.value.order == id
    && e.payment.value.n < |o.payments|
    && o.payments[e.payment.value.n].paid
    && e.amount == o.total
  }

  /** The only rows a seller order can have, and whom they belong to. */
  ghost predicate RowInv(id: OrderId, o: Order, seller: UserId, e: Entry) {
    match e.state
    case Held =>
      e.user == seller && (e.source.OrderPayment? || e.source.Refund?) && (e.kind.Credit? ==> IsPaidCredit(id, o, e))
    case Available =>
      if IsBuyerSide(e) then e.user == o.buyer && (e.source.WalletPayment? ==> e.kind.Debit?)
      else
        e.user == seller
        && (IsRelease(e) || (e.kind.Debit? && (e.source.Fee? || e.source.Payout? || e.source.Refund?)))
    case Reversed => e.user == seller && e.kind.Credit? && e.source.Refund?
  }

  ghost predicate RowsInv(id: OrderId, o: Order, seller: UserId, book: seq<Entry>) {
    forall e :: e in book ==> RowInv(id, o, seller, e)
  }

  /** A payment has one held credit when it has been confirmed, and none before. */
  ghost predicate CreditedOnce(id: OrderId, o: Order, book: seq<Entry>) {
    forall n: nat :: n < |o.payments| ==>
      Sum(book, HeldCreditsOf(Txid(id, n))) == if o.payments[n].paid then 1 else 0
  }

  ghost predicate MoneyInv(o: Order, book: seq<Entry>)
    requires o.attribution.Some?
  {
    var t := TallyOf(book);
    && t.held == t.escrow
    && t.credits == PaidTotal(o.payments)
    && t.sellerSide == PaidTotal(o.payments) - t.fees - t.payouts
    && (o.status != Orders.Refunded ==> 0 <= t.held)
    && if Released(book) then
         && o.status in {Completed, Disputed, Orders.Refunded}
         && t.held == 0 && t.releases == 1
         && t.released == PaidTotal(o.payments) - t.heldRefunds
         && 0 < t.released
         && t.fees == A.FeeTaken(o.attribution.value.feeFinal, t.released)
         && (t.payouts == 0 || t.payouts == t.released - t.fees)
       else
         && t.held == PaidTotal(o.payments) - t.heldRefunds
         && t.releases == 0 && t.released == 0 && t.fees == 0 && t.payouts == 0
  }

  /** Nothing is earned before the release, and nothing earned is ever reversed. */
  ghost predicate CommissionInv(o: Order, book: seq<Entry>) {
    || o.commissions == []
    || (&& Released(book) && OwesCommission(o)
        && o.commissions == [Commission(Earned, o.attribution.value.partner.value, o.attribution.value.commission)])
  }

  ghost predicate SellerInv(id: OrderId, o: Order, seller: UserId, book: seq<Entry>) {
    && LogInv(o) && AttributionInv(o)
    && RowsInv(id, o, seller, book) && CreditedOnce(id, o, book)
    && MoneyInv(o, book) && CommissionInv(o, book)
  }

  ghost predicate TopupRowInv(id: OrderId, o: Order, e: Entry) {
    && !IsHeldCredit(e) && !IsRelease(e)
    && (e.source.WalletTopup? ==>
          e.payment.Some? && e.payment.value.order == id && e.payment.value.n < |o.payments|
          && o.payments[e.payment.value.n].paid && e.amount == o.total && e.user == o.buyer)
  }

  ghost predicate TopupInv(id: OrderId, o: Order, book: seq<Entry>) {
    && o.attribution.None? && o.commissions == []
    && (forall e :: e in book ==> TopupRowInv(id, o, e))
    && (forall n: nat :: n < |o.payments| ==>
          Sum(book, TopupsOf(Txid(id, n))) == if o.payments[n].paid then 1 else 0)
    && Sum(book, EscrowWeight) <= 0
  }

  ghost predicate OrderInv(id: OrderId, o: Order, book: seq<Entry>) {
    && StatusInv(o) && PaymentsInv(o)
    && if o.seller.Some? then SellerInv(id, o, o.seller.value, book) else TopupInv(id, o, book)
  }

  // ----- changes that leave the money alone -----

  /** Only the status, the dispute and the log may differ. */
  ghost predicate OnlyStatus(o: Order, p: Order) {
    p == o.(status := p.status, dispute := p.dispute, events := p.events, expiresAt := p.expiresAt)
  }

  lemma StatusChange(id: OrderId, o: Order, p: Order, book: seq<Entry>)
    requires OrderInv(id, o, book)
    requires OnlyStatus(o, p) && StatusInv(p)
    requires o.seller.Some? ==> LogInv(p)
    requires o.status == Orders.Refunded ==> p.status == Orders.Refunded
    requires p.status == Orders.Refunded ==> o.status == Orders.Refunded
    requires o.seller.Some? && Released(book) ==> p.status in {Completed, Disputed, Orders.Refunded}
    ensures OrderInv(id, p, book)
  {
    forall q | q in p.payments ensures PaymentInv(p, q) {
      assert PaymentInv(o, q);
    }
    if o.seller.Some? {
      forall e | e in book ensures RowInv(id, p, o.seller.value, e) {
        assert RowInv(id, o, o.seller.value, e);
      }
    } else {
      forall e | e in book ensures TopupRowInv(id, p, e) {
        assert TopupRowInv(id, o, e);
      }
    }
  }

  // ----- new payments -----

  /** A payment that has not been issued has no row. */
  lemma NoRowsYet(id: OrderId, o: Order, book: seq<Entry>, n: nat)
    requires OrderInv(id, o, book) && |o.payments| <= n
    ensures Sum(book, HeldCreditsOf(Txid(id, n))) == 0
    ensures Sum(book, TopupsOf(Txid(id, n))) == 0
  {
    var t := Txid(id, n);
    forall e | e in book ensures HeldCreditsOf(t)(e) == 0 && TopupsOf(t)(e) == 0 {
      if o.seller.Some? {
        assert RowInv(id, o, o.seller.value, e);
      } else {
        assert TopupRowInv(id, o, e);
      }
    }
    SumZero(book, HeldCreditsOf(t));
    SumZero(book, TopupsOf(t));
  }

  /** An unconfirmed payment has no held credit. */
  lemma Uncredited(id: OrderId, o: Order, book: seq<Entry>, n: nat)
    requires OrderInv(id, o, book) && o.seller.Some? && n < |o.payments| && !o.payments[n].paid
    ensures !HasHeldCredit(book, Txid(id, n))
  {
    HeldCreditCount(book, Txid(id, n));
  }

  /** Payments may be added or change status, as long as none becomes or stops being confirmed. */
  lemma PaymentsChange(id: OrderId, o: Order, p: Order, book: seq<Entry>)
    requires OrderInv(id, o, book) && p == o.(payments := p.payments) && PaymentsInv(p)
    requires |o.payments| <= |p.payments| && PaidTotal(p.payments) == PaidTotal(o.payments)
    requires forall n :: 0 <= n < |p.payments| ==> p.payments[n].paid == (n < |o.payments| && o.payments[n].paid)
    ensures OrderInv(id, p, book)
  {
    hide Replay, Changes, TallyOf, PaidTotal, Released;
    forall n: nat | |o.payments| <= n < |p.payments|
      ensures Sum(book, HeldCreditsOf(Txid(id, n))) == 0 && Sum(book, TopupsOf(Txid(id, n))) == 0
    {
      NoRowsYet(id, o, book, n);
    }
    if o.seller.Some? {
      forall e | e in book ensures RowInv(id, p, o.seller.value, e) {
        assert RowInv(id, o, o.seller.value, e);
      }
    } else {
      forall e | e in book ensures TopupRowInv(id, p, e) {
        assert TopupRowInv(id, o, e);
      }
    }
  }

  lemma ChargeKeeps(id: OrderId, o: Order, book: seq<Entry>, provider: Provider)
    requires OrderInv(id, o, book)
    ensures OrderInv(id, o.(payments := o.payments + [Payment(provider, Pending, o.total, false)]), book)
  {
    assert PaymentsInv(o);
    hide OrderInv, PaidTotal;
    var charge := Payment(provider, Pending, o.total, false);
    var p := o.(payments := o.payments + [charge]);
    PaidTotalAppend(o.payments, charge);
    forall q | q in p.payments ensures PaymentInv(p, q) {
      assert q == charge || PaymentInv(o, q);
    }
    PaymentsChange(id, o, p, book);
  }
}
