/** How an order may differ between an earlier and a later moment of a run. */
module Evolution {
  import opened Wrappers
  import opened Ledger
  import opened Orders
  import opened Settlement
  import opened Market
  import opened OrderInvariant
  import opened OrderPostings

  /** The two rows of a manual chargeback. */
  predicate IsChargebackRow(e: Entry) {
    e.source.Refund? && ((e.state.Available? && e.kind.Debit?) || (e.state.Reversed? && e.kind.Credit?))
  }

  ghost predicate Evolves(o: Order, b: seq<Entry>, p: Order, c: seq<Entry>) {
    && p.buyer == o.buyer && p.seller == o.seller && p.total == o.total
    && p.delivery == o.delivery && p.attribution == o.attribution
    && b <= c && o.events <= p.events
    && |o.payments| <= |p.payments|
    && (forall n :: 0 <= n < |o.payments| && o.payments[n].paid ==> p.payments[n].paid)
    && (o.status == Orders.Refunded ==> p.status == Orders.Refunded)
    && MeasureOf(p) <= MeasureOf(o)
    && (p.status != o.status ==> MeasureOf(p) < MeasureOf(o))
    && (o.dispute.Some? ==> p.dispute.Some?)
    && (Released(b) ==> forall e :: e in c[|b|..] ==> IsChargebackRow(e))
    && (o.status == Orders.Refunded && !Released(b) ==> !Released(c))
  }

  lemma EvolvesReflexive(o: Order, b: seq<Entry>)
    ensures Evolves(o, b, o, b)
  {
  }

  lemma EvolvesTransitive(o: Order, b: seq<Entry>, p: Order, c: seq<Entry>, q: Order, d: seq<Entry>)
    requires Evolves(o, b, p, c) && Evolves(p, c, q, d)
    ensures Evolves(o, b, q, d)
  {
    if Released(b) {
      var r :| r in b && IsRelease(r);
      assert r in c;
      forall e | e in d[|b|..] ensures IsChargebackRow(e) {
        assert d[|b|..] == c[|b|..] + d[|c|..];
      }
    }
    assert forall n :: 0 <= n < |o.payments| && o.payments[n].paid ==> p.payments[n].paid;
  }

  /** A legal move of one order: its invariant and its history are kept, and the rows are its own. */
  ghost predicate OrderStep(id: OrderId, o: Order, b: seq<Entry>, p: Order, es: seq<Entry>) {
    && OrderInv(id, p, b + es)
    && Evolves(o, b, p, b + es)
    && (forall e :: e in es ==> e.order == Some(id))
  }

  lemma Suffix(b: seq<Entry>, es: seq<Entry>)
    ensures b <= b + es && (b + es)[|b|..] == es
    ensures Released(b + es) <==> Released(b) || Released(es)
  {
    if Released(b) {
      var r :| r in b && IsRelease(r);
      assert r in b + es;
    }
    if Released(es) {
      var r :| r in es && IsRelease(r);
      assert r in b + es;
    }
  }

  // ----- the moves -----

  /** A change of status, with what it needs to be legal. */
  lemma StatusStep(id: OrderId, o: Order, b: seq<Entry>, p: Order)
    requires OrderInv(id, o, b) && OnlyStatus(o, p) && StatusInv(p) && p.expiresAt == o.expiresAt
    requires o.seller.Some? ==> LogInv(p)
    requires o.status == Orders.Refunded <==> p.status == Orders.Refunded
    requires o.seller.Some? && Released(b) ==> p.status in {Completed, Disputed, Orders.Refunded}
    requires o.events <= p.events && (o.dispute.Some? ==> p.dispute.Some?)
    requires MeasureOf(p) <= MeasureOf(o) && (p.status != o.status ==> MeasureOf(p) < MeasureOf(o))
    ensures OrderStep(id, o, b, p, [])
  {
    StatusChange(id, o, p, b);
    assert b + [] == b;
  }

  /** A logged change of status from a status in which nothing has been released. */
  lemma TransitionStep(id: OrderId, o: Order, b: seq<Entry>, kind: EventKind, to: Status)
    requires OrderInv(id, o, b) && o.dispute.None?
    requires to != o.status && to != Orders.Refunded && o.status != Orders.Refunded
    requires to != Paid && to != Disputed
    requires Measure(to, false) < MeasureOf(o)
    requires o.status in {Completed, Disputed} ==> to == Completed
    ensures OrderStep(id, o, b, Transition(o, kind, to), [])
  {
    if o.seller.Some? {
      TransitionKeepsLog(o, kind, to, None);
    }
    StatusStep(id, o, b, Transition(o, kind, to));
  }

  lemma CancelStep(id: OrderId, o: Order, b: seq<Entry>, buyer: UserId)
    requires OrderInv(id, o, b) && Cancel(o, buyer).Done?
    ensures OrderStep(id, o, b, Cancel(o, buyer).order, [])
  {
    TransitionStep(id, o, b, CancelledEvent, Cancelled);
  }

  lemma ExpireStep(id: OrderId, o: Order, b: seq<Entry>, now: int)
    requires OrderInv(id, o, b)
    ensures OrderStep(id, o, b, Expire(o, now), [])
  {
    if Expire(o, now) == o {
      assert b + [] == b;
    } else {
      TransitionStep(id, o, b, CancelledEvent, Cancelled);
    }
  }

  lemma EvidenceStep(id: OrderId, o: Order, b: seq<Entry>, actor: UserId, admin: bool)
    requires OrderInv(id, o, b) && AddEvidence(o, actor, admin).Done?
    ensures OrderStep(id, o, b, AddEvidence(o, actor, admin).order, [])
  {
    LogAppend(o.events, Event(Note, None, None));
    StatusStep(id, o, b, AddEvidence(o, actor, admin).order);
  }

  lemma DeliverStep(id: OrderId, o: Order, b: seq<Entry>, actor: UserId, admin: bool)
    requires OrderInv(id, o, b) && MarkDelivered(o, actor, admin).Done?
    ensures OrderStep(id, o, b, MarkDelivered(o, actor, admin).order, [])
  {
    TransitionStep(id, o, b, DeliveredEvent, Delivered);
  }

  lemma AutoDeliverStep(id: OrderId, o: Order, b: seq<Entry>, stocked: bool)
    requires OrderInv(id, o, b) && AfterPayment(o, stocked).Done?
    ensures OrderStep(id, o, b, AfterPayment(o, stocked).order, [])
  {
    if AutoDeliver(o) == o {
      assert b + [] == b;
    } else {
      TransitionStep(id, o, b, DeliveredEvent, Delivered);
    }
  }

  lemma ReceiptStep(id: OrderId, o: Order, b: seq<Entry>, buyer: UserId)
    requires OrderInv(id, o, b) && ConfirmReceipt(o, buyer).Done?
    ensures OrderStep(id, o, b, ConfirmReceipt(o, buyer).order, [])
  {
    TransitionStep(id, o, b, CompletedEvent, Completed);
  }

  lemma AutoCompleteStep(id: OrderId, o: Order, b: seq<Entry>)
    requires OrderInv(id, o, b)
    ensures OrderStep(id, o, b, AutoComplete(o), [])
  {
    if AutoComplete(o) == o {
      assert b + [] == b;
    } else {
      TransitionStep(id, o, b, CompletedEvent, Completed);
    }
  }

  lemma DisputeStep(id: OrderId, o: Order, b: seq<Entry>, buyer: UserId)
    requires OrderInv(id, o, b) && OpenDispute(o, buyer).Done?
    ensures OrderStep(id, o, b, OpenDispute(o, buyer).order, [])
  {
    if o.seller.Some? {
      TransitionKeepsLog(o, DisputedEvent, Disputed, Some(Open));
    }
    StatusStep(id, o, b, OpenDispute(o, buyer).order);
  }

  /** An admin completes a disputed order before releasing or splitting its money. */
  lemma CompleteStep(id: OrderId, o: Order, b: seq<Entry>)
    requires OrderInv(id, o, b) && DisputeIsOpen(o) && o.status == Disputed
    ensures OrderStep(id, o, b, Transition(o, Note, Completed), [])
  {
    if o.seller.Some? {
      TransitionKeepsLog(o, Note, Completed, o.dispute);
    }
    StatusStep(id, o, b, Transition(o, Note, Completed));
  }

  lemma FinalizeStep(id: OrderId, o: Order, b: seq<Entry>, d: DisputeStatus)
    requires OrderInv(id, o, b) && o.dispute.Some? && o.status != Disputed
    ensures OrderStep(id, o, b, o.(dispute := Some(d)), [])
  {
    StatusStep(id, o, b, o.(dispute := Some(d)));
  }

  lemma ChargeStep(id: OrderId, o: Order, b: seq<Entry>, providerOk: bool)
    requires OrderInv(id, o, b) && CreateCharge(o, providerOk).Done?
    ensures OrderStep(id, o, b, CreateCharge(o, providerOk).order, [])
  {
    assert b + [] == b;
    if CreateCharge(o, providerOk).order != o {
      ChargeKeeps(id, o, b, Efi);
    }
  }

  lemma ApplyChangesLittle(o: Order)
    requires ApplyPayment(o).Confirmation?
    ensures var p := ApplyPayment(o).order;
            && o.events <= p.events && p == o.(status := p.status, events := p.events)
            && o.status in {Created, AwaitingPayment, Paid, InDelivery} && (o.status != Paid ==> p.status == InDelivery)
            && (p.status == InDelivery ==> 5 == MeasureOf(p) <= MeasureOf(o) && (o.status != InDelivery ==> 5 < MeasureOf(o)))
  {
  }

  lemma WebhookStep(id: OrderId, o: Order, b: seq<Entry>, n: nat)
    requires OrderInv(id, o, b) && n < |o.payments|
    requires ConfirmByWebhook(o, b, Txid(id, n)).Posting?
    ensures var p := ConfirmByWebhook(o, b, Txid(id, n)); OrderStep(id, o, b, p.order, p.entries)
  {
    hide OrderInv, ApplyPayment, Released, HasHeldCredit, HasTopup;
    WebhookKeeps(id, o, b, n);
    ApplyKeeps(id, o, b);
    ApplyChangesLittle(o);
    NothingReleased(id, o, b);
    Suffix(b, ConfirmByWebhook(o, b, Txid(id, n)).entries);
  }

  /** Top-ups are never released; they have no seller to release to. */
  lemma NothingReleased(id: OrderId, o: Order, b: seq<Entry>)
    requires OrderInv(id, o, b)
    ensures o.seller.None? ==> !Released(b)
  {
  }

  lemma PayableUnreleased(id: OrderId, o: Order, b: seq<Entry>)
    requires OrderInv(id, o, b) && o.seller.Some? && o.status in {Created, AwaitingPayment, Paid, InDelivery}
    ensures !Released(b) && o.status != Paid
  {
  }

  lemma WalletStep(id: OrderId, o: Order, b: seq<Entry>)
    requires OrderInv(id, o, b) && o.seller.Some?
    requires WalletPosting(id, o, o.seller.value, b).Posting?
    ensures var p := WalletPosting(id, o, o.seller.value, b); OrderStep(id, o, b, p.order, p.entries)
  {
    hide OrderInv, ApplyPayment, Released, HasHeldCredit;
    var o1 := o.(payments := ExpirePending(o.payments) + [Payment(Wallet, Confirmed, o.total, true)]);
    WalletKeeps(id, o, b);
    ApplyChangesLittle(o1);
    PayableUnreleased(id, o, b);
    Suffix(b, WalletPosting(id, o, o.seller.value, b).entries);
  }

  lemma EarnChangesLittle(o: Order, active: bool)
    ensures EarnCommission(o, active) == o.(commissions := EarnCommission(o, active).commissions)
  {
  }

  lemma ReleaseStep(id: OrderId, o: Order, b: seq<Entry>, ignoreDispute: bool, s: Settings, seller: Option<User>,
      active: bool, providerOk: bool)
    requires OrderInv(id, o, b)
    requires Release(id, o, b, ignoreDispute, s, seller, active, providerOk).Posting?
    ensures var p := Release(id, o, b, ignoreDispute, s, seller, active, providerOk);
            OrderStep(id, o, b, p.order, p.entries)
  {
    var p := ReadRelease(o, b, ignoreDispute);
    PlanIsSound(id, o, b, ignoreDispute);
    ReleaseKeeps(id, o, b, ignoreDispute, s, seller, active, providerOk);
    ReleaseRowShapes(id, p, s);
    EarnChangesLittle(Annotate(o), active);
  }

  lemma ReverseChangesLittle(o: Order)
    ensures ReverseCommission(o) == o.(commissions := ReverseCommission(o).commissions)
  {
  }

  lemma RefundedOrderEvolves(o: Order, b: seq<Entry>, es: seq<Entry>)
    requires o.payments != [] && !Released(es)
    requires Released(b) ==> forall e :: e in es ==> IsChargebackRow(e)
    ensures Evolves(o, b, RefundedOrder(o), b + es)
  {
    MarkRefundedPaid(o);
    Suffix(b, es);
  }

  lemma ChargebackStep(id: OrderId, o: Order, b: seq<Entry>)
    requires OrderInv(id, o, b) && o.payments != [] && Released(b)
    ensures var p := Chargeback(id, o); OrderStep(id, o, b, p.order, p.entries)
  {
    ChargebackKeeps(id, o, b);
    RefundedOrderEvolves(o, b, Chargeback(id, o).entries);
  }

  lemma FullRefundStep(id: OrderId, o: Order, b: seq<Entry>)
    requires OrderInv(id, o, b) && o.payments != [] && !Released(b)
    ensures var p := FullRefund(id, o); OrderStep(id, o, b, p.order, p.entries)
  {
    FullRefundKeeps(id, o, b);
    NothingToReverse(id, o, b, RefundedOrder(o));
    RefundedOrderEvolves(o, b, FullRefund(id, o).entries);
  }

  lemma RefundStep(id: OrderId, o: Order, b: seq<Entry>, actor: Option<UserId>, providerOk: bool)
    requires OrderInv(id, o, b)
    requires RefundOrder(id, o, b, actor, providerOk).0.Posting?
    ensures var p := RefundOrder(id, o, b, actor, providerOk).0; OrderStep(id, o, b, p.order, p.entries)
    ensures RefundOrder(id, o, b, actor, providerOk).0.order.status == Orders.Refunded
    ensures RefundOrder(id, o, b, actor, providerOk).0.order.dispute == o.dispute
  {
    if Released(b) {
      ChargebackStep(id, o, b);
    } else {
      FullRefundStep(id, o, b);
      NothingToReverse(id, o, b, RefundedOrder(o));
    }
  }

  lemma PartialStep(id: OrderId, o: Order, b: seq<Entry>, amount: int, providerOk: bool)
    requires OrderInv(id, o, b)
    requires RefundPartially(id, o, b, amount, providerOk).Posting?
    ensures var p := RefundPartially(id, o, b, amount, providerOk); OrderStep(id, o, b, p.order, p.entries)
    ensures RefundPartially(id, o, b, amount, providerOk).order.status == o.status
    ensures RefundPartially(id, o, b, amount, providerOk).order.dispute == o.dispute
  {
    PartialKeeps(id, o, b, amount, providerOk);
    ReverseChangesLittle(Annotate(o));
    Suffix(b, RefundPartially(id, o, b, amount, providerOk).entries);
  }
}
