/** Each settlement posting keeps the invariant of its order. */
module OrderPostings {
  import opened Wrappers
  import opened Ledger
  import opened Orders
  import opened Settlement
  import opened OrderInvariant
  import opened Market
  import A = Attribution

  // ----- confirmation -----

  lemma ApplyKeeps(id: OrderId, o: Order, book: seq<Entry>)
    requires OrderInv(id, o, book) && ApplyPayment(o).Confirmation?
    ensures OrderInv(id, ApplyPayment(o).order, book)
    ensures ApplyPayment(o).order.status == InDelivery
    ensures o.seller.Some? ==> !Released(book)
  {
    if o.seller.Some? && IsPayable(o.status) {
      TransitionKeepsLog(o, PaidEvent, Paid, None);
      TransitionKeepsLog(Transition(o, PaidEvent, Paid), InDeliveryEvent, InDelivery, None);
    }
    StatusChange(id, o, ApplyPayment(o).order, book);
  }

  lemma CreditKeeps(id: OrderId, o: Order, book: seq<Entry>, n: nat)
    requires OrderInv(id, o, book) && o.seller.Some? && o.status == InDelivery
    requires n < |o.payments| && !o.payments[n].paid
    ensures OrderInv(id, o.(payments := o.payments[n := ConfirmPayment(o.payments[n])]),
                     book + [HeldEntry(id, Txid(id, n), o.seller.value, o.total)])
  {
    var s := o.seller.value;
    var e := HeldEntry(id, Txid(id, n), s, o.total);
    var p := o.(payments := o.payments[n := ConfirmPayment(o.payments[n])]);
    PaidTotalUpdate(o.payments, n, ConfirmPayment(o.payments[n]));
    TallyAppend(book, e);
    assert PaymentInv(o, o.payments[n]);
    forall q | q in p.payments ensures PaymentInv(p, q) {
      assert q == p.payments[n] || PaymentInv(o, q);
    }
    forall x | x in book + [e] ensures RowInv(id, p, s, x) {
      assert x == e || RowInv(id, o, s, x);
    }
    forall m: nat | m < |p.payments|
      ensures Sum(book + [e], HeldCreditsOf(Txid(id, m))) == if p.payments[m].paid then 1 else 0
    {
      SumAppend(book, e, HeldCreditsOf(Txid(id, m)));
    }
  }

  lemma TopupKeeps(id: OrderId, o: Order, book: seq<Entry>, n: nat)
    requires OrderInv(id, o, book) && o.seller.None? && o.status == InDelivery
    requires n < |o.payments| && !o.payments[n].paid
    ensures OrderInv(id, o.(payments := o.payments[n := ConfirmPayment(o.payments[n])], status := Completed),
                     book + [Entry(o.buyer, Some(id), Some(Txid(id, n)), Credit, Available, WalletTopup, o.total)])
  {
    var e := Entry(o.buyer, Some(id), Some(Txid(id, n)), Credit, Available, WalletTopup, o.total);
    var p := o.(payments := o.payments[n := ConfirmPayment(o.payments[n])], status := Completed);
    assert PaymentInv(o, o.payments[n]);
    forall q | q in p.payments ensures PaymentInv(p, q) {
      assert q == p.payments[n] || PaymentInv(o, q);
    }
    forall x | x in book + [e] ensures TopupRowInv(id, p, x) {
      assert x == e || TopupRowInv(id, o, x);
    }
    SumAppend(book, e, EscrowWeight);
    forall m: nat | m < |p.payments|
      ensures Sum(book + [e], TopupsOf(Txid(id, m))) == if p.payments[m].paid then 1 else 0
    {
      SumAppend(book, e, TopupsOf(Txid(id, m)));
    }
  }

  lemma WebhookKeeps(id: OrderId, o: Order, book: seq<Entry>, n: nat)
    requires OrderInv(id, o, book) && n < |o.payments|
    requires ConfirmByWebhook(o, book, Txid(id, n)).Posting?
    ensures var p := ConfirmByWebhook(o, book, Txid(id, n)); OrderInv(id, p.order, book + p.entries)
  {
    var t := Txid(id, n);
    var o1 := ApplyPayment(o).order;
    ApplyKeeps(id, o, book);
    assert PaymentInv(o, o.payments[n]);
    HeldCreditCount(book, t);
    TopupCount(book, t);
    if o.payments[n].paid {
      assert o1.payments[n := o1.payments[n]] == o1.payments;
      assert book + [] == book;
    } else if o.seller.Some? {
      CreditKeeps(id, o1, book, n);
    } else {
      TopupKeeps(id, o1, book, n);
    }
  }

  lemma ExpireKeeps(id: OrderId, o: Order, book: seq<Entry>)
    requires OrderInv(id, o, book)
    ensures OrderInv(id, o.(payments := ExpirePending(o.payments)), book)
  {
    var p := o.(payments := ExpirePending(o.payments));
    PaidTotalExpire(o.payments);
    forall i | 0 <= i < |o.payments|
      ensures PaymentInv(p, p.payments[i]) && p.payments[i].paid == o.payments[i].paid
    {
      assert PaymentInv(o, o.payments[i]);
    }
    PaymentsChange(id, o, p, book);
  }

  lemma BuyerDebitKeeps(id: OrderId, o: Order, book: seq<Entry>, t: Txid, amount: nat)
    requires OrderInv(id, o, book) && o.seller.Some?
    ensures OrderInv(id, o, book + [Entry(o.buyer, Some(id), Some(t), Debit, Available, WalletPayment, amount)])
  {
    var e := Entry(o.buyer, Some(id), Some(t), Debit, Available, WalletPayment, amount);
    TallyAppend(book, e);
    forall x | x in book + [e] ensures RowInv(id, o, o.seller.value, x) {
      assert x == e || RowInv(id, o, o.seller.value, x);
    }
    forall m: nat | m < |o.payments|
      ensures Sum(book + [e], HeldCreditsOf(Txid(id, m))) == if o.payments[m].paid then 1 else 0
    {
      SumAppend(book, e, HeldCreditsOf(Txid(id, m)));
    }
  }

  lemma WalletKeeps(id: OrderId, o: Order, book: seq<Entry>)
    requires OrderInv(id, o, book) && o.seller.Some?
    requires WalletPosting(id, o, o.seller.value, book).Posting?
    ensures var p := WalletPosting(id, o, o.seller.value, book); OrderInv(id, p.order, book + p.entries)
    ensures |WalletPosting(id, o, o.seller.value, book).entries| == 2
  {
    hide OrderInv, HasHeldCredit;
    var s := o.seller.value;
    var n := |o.payments|;
    var t := Txid(id, n);
    var o1 := o.(payments := ExpirePending(o.payments));
    ExpireKeeps(id, o, book);
    var o2 := o1.(payments := o1.payments + [Payment(Wallet, Pending, o.total, false)]);
    ChargeKeeps(id, o1, book, Wallet);
    var o3 := ApplyPayment(o2).order;
    ApplyKeeps(id, o2, book);
    var e := Entry(o.buyer, Some(id), Some(t), Debit, Available, WalletPayment, o.total);
    BuyerDebitKeeps(id, o3, book, t, o.total);
    Uncredited(id, o3, book + [e], n);
    CreditKeeps(id, o3, book + [e], n);
    var p := WalletPosting(id, o, s, book);
    assert o3.payments[n := ConfirmPayment(o3.payments[n])] == p.order.payments;
    assert book + p.entries == (book + [e]) + [HeldEntry(id, t, s, o.total)];
  }

  // ----- release -----

  lemma EarnKeeps(id: OrderId, o: Order, book: seq<Entry>, active: bool)
    requires OrderInv(id, o, book) && o.seller.Some? && Released(book)
    ensures OrderInv(id, EarnCommission(o, active), book)
  {
    var p := EarnCommission(o, active);
    forall q | q in p.payments ensures PaymentInv(p, q) {
      assert PaymentInv(o, q);
    }
    forall x | x in book ensures RowInv(id, p, o.seller.value, x) {
      assert RowInv(id, o, o.seller.value, x);
    }
    if o.commissions != [] {
      assert o.commissions[0] in o.commissions;
    }
  }

  lemma MoveTally(id: OrderId, book: seq<Entry>, p: ReleaseRead)
    requires p.Plan? && p.order.payments != []
    ensures var t := TallyOf(book);
            TallyOf(book + MoveRows(id, p)) == t.(held := t.held - p.held, escrow := t.escrow - p.held,
              released := t.released + p.held, releases := t.releases + 1)
    ensures Released(book + MoveRows(id, p))
  {
    var rows := MoveRows(id, p);
    TallyAppend(book, rows[0]);
    TallyAppend(book + [rows[0]], rows[1]);
    assert book + [rows[0]] + [rows[1]] == book + rows;
  }

  lemma DebitTally(id: OrderId, book: seq<Entry>, p: ReleaseRead, source: Source, amount: nat)
    requires p.Plan? && p.order.payments != [] && (source.Fee? || source.Payout?)
    ensures var t := TallyOf(book);
            TallyOf(book + DebitRows(id, p, source, amount)) ==
              if source.Fee? then t.(fees := t.fees + amount, sellerSide := t.sellerSide - amount)
              else t.(payouts := t.payouts + amount, sellerSide := t.sellerSide - amount)
    ensures Released(book + DebitRows(id, p, source, amount)) == Released(book)
  {
    var rows := DebitRows(id, p, source, amount);
    if rows == [] {
      assert book + rows == book;
    } else {
      TallyAppend(book, rows[0]);
    }
  }

  /** What the rows of a release do to the sums of the book. */
  lemma ReleaseTally(id: OrderId, book: seq<Entry>, p: ReleaseRead, fee: nat, paidOut: nat)
    requires p.Plan? && p.order.payments != []
    ensures var t := TallyOf(book);
            var es := MoveRows(id, p) + DebitRows(id, p, Fee, fee) + DebitRows(id, p, Payout, paidOut);
            && TallyOf(book + es) == t.(
                 held := t.held - p.held, escrow := t.escrow - p.held, fees := t.fees + fee,
                 payouts := t.payouts + paidOut, released := t.released + p.held, releases := t.releases + 1,
                 sellerSide := t.sellerSide - fee - paidOut)
            && Released(book + es)
  {
    var moves, fees, payouts := MoveRows(id, p), DebitRows(id, p, Fee, fee), DebitRows(id, p, Payout, paidOut);
    MoveTally(id, book, p);
    DebitTally(id, book + moves, p, Fee, fee);
    DebitTally(id, book + moves + fees, p, Payout, paidOut);
    assert book + moves + fees + payouts == book + (moves + fees + payouts);
  }

  lemma ReleaseRowShapes(id: OrderId, p: ReleaseRead, s: Settings)
    requires p.Plan? && p.order.payments != []
    ensures forall e :: e in ReleaseEntries(id, p, s) ==>
      && e.user == p.owner && e.order == Some(id) && !IsHeldCredit(e) && !IsBuyerSide(e) && !e.source.Refund?
      && (e.state.Held? ==> e.source.OrderPayment?) && !e.state.Reversed?
      && (e.state.Available? ==> IsRelease(e) || (e.kind.Debit? && (e.source.Fee? || e.source.Payout?)))
  {
  }

  /** The rows of a release belong to the seller and confirm no payment. */
  lemma ReleaseRows(id: OrderId, o: Order, book: seq<Entry>, p: ReleaseRead, s: Settings)
    requires o.seller.Some? && RowsInv(id, o, o.seller.value, book) && CreditedOnce(id, o, book)
    requires p.Plan? && p.order.payments != [] && p.owner == o.seller.value
    ensures RowsInv(id, o, o.seller.value, book + ReleaseEntries(id, p, s))
    ensures CreditedOnce(id, o, book + ReleaseEntries(id, p, s))
  {
    var es := ReleaseEntries(id, p, s);
    ReleaseRowShapes(id, p, s);
    forall x | x in book + es ensures RowInv(id, o, o.seller.value, x) {
      assert x in es || RowInv(id, o, o.seller.value, x);
    }
    forall m: nat | m < |o.payments|
      ensures Sum(book + es, HeldCreditsOf(Txid(id, m))) == if o.payments[m].paid then 1 else 0
    {
      SumConcat(book, es, HeldCreditsOf(Txid(id, m)));
      SumZero(es, HeldCreditsOf(Txid(id, m)));
    }
  }

  /** A release that spends exactly what is held keeps the invariant. */
  lemma ReleaseRowsKeep(id: OrderId, o: Order, book: seq<Entry>, p: ReleaseRead, s: Settings)
    requires OrderInv(id, o, book) && o.seller.Some? && o.status == Completed && !Released(book)
    requires p.Plan? && p.order.payments != [] && p.order.attribution == o.attribution
    requires p.owner == o.seller.value && 0 < p.held && p.held == Sum(book, HeldWeight)
    ensures OrderInv(id, o, book + ReleaseEntries(id, p, s))
    ensures Released(book + ReleaseEntries(id, p, s))
  {
    ReleaseTally(id, book, p, FeeAmount(p, s), PaidOut(p, s));
    ReleaseRows(id, o, book, p, s);
  }

  /** A plan read from a book that is in order names the seller and everything held. */
  lemma PlanIsSound(id: OrderId, o: Order, book: seq<Entry>, ignoreDispute: bool)
    requires OrderInv(id, o, book) && ReadRelease(o, book, ignoreDispute).Plan?
    ensures o.seller.Some? && !Released(book) && o.status == Completed && o.payments != []
    ensures var p := ReadRelease(o, book, ignoreDispute);
            p.order == o && p.owner == o.seller.value && 0 < p.held && p.held == Sum(book, HeldWeight)
  {
    var c := FirstHeldCredit(book).value;
    if o.seller.Some? {
      assert RowInv(id, o, o.seller.value, c);
    }
  }

  lemma NoteKeeps(id: OrderId, o: Order, book: seq<Entry>)
    requires OrderInv(id, o, book)
    ensures OrderInv(id, Annotate(o), book)
  {
    if o.seller.Some? {
      LogAppend(o.events, Event(Note, Some(o.status), Some(o.status)));
    }
    StatusChange(id, o, Annotate(o), book);
  }

  lemma ReleaseKeeps(id: OrderId, o: Order, book: seq<Entry>, ignoreDispute: bool, s: Settings, seller: Option<User>,
      active: bool, providerOk: bool)
    requires OrderInv(id, o, book)
    requires Release(id, o, book, ignoreDispute, s, seller, active, providerOk).Posting?
    ensures var p := Release(id, o, book, ignoreDispute, s, seller, active, providerOk);
            OrderInv(id, p.order, book + p.entries)
  {
    var p := ReadRelease(o, book, ignoreDispute);
    PlanIsSound(id, o, book, ignoreDispute);
    NoteKeeps(id, o, book);
    ReleaseRowsKeep(id, Annotate(o), book, p, s);
    EarnKeeps(id, Annotate(o), book + ReleaseEntries(id, p, s), active);
  }

  // ----- refunds -----

  /** Nothing has been earned before a release, so there is nothing to reverse. */
  lemma NothingToReverse(id: OrderId, o: Order, book: seq<Entry>, p: Order)
    requires OrderInv(id, o, book) && (o.seller.Some? ==> !Released(book))
    requires p.commissions == o.commissions && p.attribution == o.attribution
    ensures ReverseCommission(p) == p
  {
  }

  lemma MarkRefundedPaid(o: Order)
    requires o.payments != []
    ensures PaidTotal(MarkRefunded(o).payments) == PaidTotal(o.payments)
    ensures forall i :: 0 <= i < |o.payments| ==> MarkRefunded(o).payments[i].paid == o.payments[i].paid
  {
    var last := |o.payments| - 1;
    PaidTotalUpdate(o.payments, last, o.payments[last].(status := PaymentRefunded));
  }

  /** The order row of a refund or chargeback, before its ledger rows are booked. */
  ghost function RefundedOrder(o: Order): Order
    requires o.payments != []
  {
    Transition(MarkRefunded(o), RefundedEvent, Orders.Refunded)
  }

  lemma RefundedOrderKeeps(id: OrderId, o: Order, book: seq<Entry>)
    requires OrderInv(id, o, book) && o.payments != []
    ensures OrderInv(id, RefundedOrder(o), book)
  {
    var p := RefundedOrder(o);
    MarkRefundedPaid(o);
    forall i | 0 <= i < |p.payments| ensures PaymentInv(p, p.payments[i]) {
      assert PaymentInv(o, o.payments[i]);
    }
    if o.seller.Some? {
      LogAppend(o.events, Event(RefundedEvent, Some(o.status), Some(Orders.Refunded)));
      forall x | x in book ensures RowInv(id, p, o.seller.value, x) {
        assert RowInv(id, o, o.seller.value, x);
      }
    } else {
      forall x | x in book ensures TopupRowInv(id, p, x) {
        assert TopupRowInv(id, o, x);
      }
    }
  }

  /** Rows of refunds and chargebacks: none of them confirms, releases or tops up anything. */
  ghost predicate IsRefundRow(o: Order, e: Entry) {
    && e.source.Refund?
    && match e.state
       case Held => e.kind.Debit? && e.user == LedgerOwner(o)
       case Available => e.user == if e.kind.Credit? then o.buyer else LedgerOwner(o)
       case Reversed => e.kind.Credit? && e.user == LedgerOwner(o)
  }

  /** Booking a refund row keeps every per-row and per-payment fact; the sums are left to the caller. */
  lemma RefundRowsKeepRows(id: OrderId, o: Order, book: seq<Entry>, es: seq<Entry>)
    requires OrderInv(id, o, book)
    requires forall e :: e in es ==> IsRefundRow(o, e)
    ensures o.seller.Some? ==> RowsInv(id, o, o.seller.value, book + es) && CreditedOnce(id, o, book + es)
    ensures o.seller.Some? ==> (CommissionInv(o, book + es) <== CommissionInv(o, book))
    ensures o.seller.None? ==> TopupInv(id, o, book + es)
  {
    if o.seller.Some? {
      forall x | x in book + es ensures RowInv(id, o, o.seller.value, x) {
        assert x in es || RowInv(id, o, o.seller.value, x);
      }
      if Released(book) {
        var r :| r in book && IsRelease(r);
        assert r in book + es;
      }
    } else {
      forall x | x in book + es ensures TopupRowInv(id, o, x) {
        assert x in es || TopupRowInv(id, o, x);
      }
      SumConcat(book, es, EscrowWeight);
      RefundEscrow(o, es);
    }
    forall m: nat | m < |o.payments|
      ensures Sum(book + es, HeldCreditsOf(Txid(id, m))) == Sum(book, HeldCreditsOf(Txid(id, m)))
      ensures Sum(book + es, TopupsOf(Txid(id, m))) == Sum(book, TopupsOf(Txid(id, m)))
    {
      SumConcat(book, es, HeldCreditsOf(Txid(id, m)));
      SumZero(es, HeldCreditsOf(Txid(id, m)));
      SumConcat(book, es, TopupsOf(Txid(id, m)));
      SumZero(es, TopupsOf(Txid(id, m)));
    }
  }

  lemma {:induction false} RefundEscrow(o: Order, es: seq<Entry>)
    requires forall e :: e in es ==> IsRefundRow(o, e)
    ensures Sum(es, EscrowWeight) <= 0
  {
    if es != [] {
      RefundEscrow(o, es[..|es| - 1]);
      assert IsRefundRow(o, es[|es| - 1]);
    }
  }

  /** What one refund row does to the sums. */
  ghost function AfterRefundRow(t: Tally, e: Entry): Tally {
    if e.state.Held? then
      t.(held := t.held - e.amount, escrow := t.escrow - e.amount, heldRefunds := t.heldRefunds + e.amount,
        sellerSide := t.sellerSide - e.amount)
    else if IsBuyerSide(e) then t
    else t.(sellerSide := t.sellerSide + Signed(e))
  }

  lemma RefundRowTally(o: Order, book: seq<Entry>, e: Entry)
    requires IsRefundRow(o, e)
    ensures TallyOf(book + [e]) == AfterRefundRow(TallyOf(book), e)
    ensures Released(book + [e]) == Released(book)
  {
    TallyAppend(book, e);
  }

  /** A full refund takes the payment out of the held money, whatever is left there. */
  lemma FullRefundTally(id: OrderId, o: Order, book: seq<Entry>)
    requires o.payments != []
    ensures var t, amount := TallyOf(book), o.payments[|o.payments| - 1].amount;
            TallyOf(book + FullRefund(id, o).entries) == t.(held := t.held - amount, escrow := t.escrow - amount,
              heldRefunds := t.heldRefunds + amount)
    ensures Released(book + FullRefund(id, o).entries) == Released(book)
  {
    hide TallyOf, Released;
    var es := FullRefund(id, o).entries;
    var b1 := book + [es[0]];
    RefundRowTally(o, book, es[0]);
    var b2 := if |es| == 3 then b1 + [es[1]] else b1;
    if |es| == 3 {
      RefundRowTally(o, b1, es[1]);
    }
    RefundRowTally(o, b2, es[|es| - 1]);
    assert b2 + [es[|es| - 1]] == book + es;
  }

  lemma FullRefundKeeps(id: OrderId, o: Order, book: seq<Entry>)
    requires OrderInv(id, o, book) && o.payments != []
    requires o.seller.Some? ==> !Released(book)
    ensures var p := FullRefund(id, o); OrderInv(id, p.order, book + p.entries)
  {
    var p := FullRefund(id, o);
    var q := RefundedOrder(o);
    RefundedOrderKeeps(id, o, book);
    NothingToReverse(id, o, book, q);
    RefundRowsKeepRows(id, q, book, p.entries);
    FullRefundTally(id, o, book);
  }

  lemma ChargebackKeeps(id: OrderId, o: Order, book: seq<Entry>)
    requires OrderInv(id, o, book) && o.payments != []
    requires Released(book)
    ensures var p := Chargeback(id, o); OrderInv(id, p.order, book + p.entries)
  {
    var p := Chargeback(id, o);
    RefundedOrderKeeps(id, o, book);
    RefundRowsKeepRows(id, p.order, book, p.entries);
    if o.seller.Some? {
      RefundRowTally(o, book, p.entries[0]);
      RefundRowTally(o, book + [p.entries[0]], p.entries[1]);
      assert book + [p.entries[0]] + [p.entries[1]] == book + p.entries;
    }
  }

  lemma PartialKeeps(id: OrderId, o: Order, book: seq<Entry>, amount: int, providerOk: bool)
    requires OrderInv(id, o, book)
    requires RefundPartially(id, o, book, amount, providerOk).Posting?
    ensures var p := RefundPartially(id, o, book, amount, providerOk); OrderInv(id, p.order, book + p.entries)
  {
    var p := RefundPartially(id, o, book, amount, providerOk);
    NoteKeeps(id, o, book);
    NothingToReverse(id, o, book, Annotate(o));
    RefundRowsKeepRows(id, p.order, book, p.entries);
    if o.seller.Some? {
      RefundRowTally(o, book, p.entries[0]);
      RefundRowTally(o, book + [p.entries[0]], p.entries[1]);
      assert book + [p.entries[0]] + [p.entries[1]] == book + p.entries;
    }
  }
}
