/** What can come between the read and the commit of a release: a lost answer, a dispute, a full refund. */
module ReleaseInFlight {
  import opened Wrappers
  import opened Ledger
  import opened Orders
  import opened Settlement
  import opened OrderInvariant
  import opened OrderPostings
  import opened ConcurrentRelease

  lemma OneMove(f: Setting, r: Race, moves: seq<Move>, m: Move)
    ensures Run(f, r, moves + [m]) == Next(f, Run(f, r, moves), m)
  {
    assert (moves + [m])[..|moves|] == moves;
  }

  lemma ThreeMoves(f: Setting, r: Race, a: Move, b: Move, c: Move)
    ensures Run(f, r, [a, b, c]) == Next(f, Next(f, Next(f, r, a), b), c)
  {
    hide Next;
    OneMove(f, r, [], a);
    OneMove(f, r, [a], b);
    OneMove(f, r, [a, b], c);
    assert [] + [a] == [a] && [a] + [b] == [a, b] && [a, b] + [c] == [a, b, c];
  }

  lemma ReadFacts(o: Order, b: seq<Entry>, ignoreDispute: bool)
    requires ReadRelease(o, b, ignoreDispute).Plan?
    ensures var p := ReadRelease(o, b, ignoreDispute);
            && p.order == o && o.status == Completed && o.payments != [] && (ignoreDispute || !DisputeIsOpen(o))
            && !Released(b)
  {
  }

  /** The first two moves of a call that finds everything in order. */
  lemma ReadsPlan(f: Setting, o: Order, b: seq<Entry>)
    requires ReadRelease(o, b, false).Plan?
    ensures Next(f, Next(f, Race(o, b, [], []), Begin(false)), Read(0)) ==
            Race(o, b, [Planned(false, ReadRelease(o, b, false))], [])
  {
    hide ReadRelease;
    var begun := Next(f, Race(o, b, [], []), Begin(false));
    assert begun == Race(o, b, [Reading(false)], []);
  }

  // ----- a lost answer -----

  /** One call whose answer is lost ends with an error and writes nothing; but the provider has paid, and the money is
      still held and can still be refunded. */
  lemma LostAnswerPaysUnrecorded(f: Setting, o: Order, b: seq<Entry>, actor: Option<UserId>)
    requires OrderInv(f.id, o, b) && ReadRelease(o, b, false).Plan? && Asks(f, ReadRelease(o, b, false))
    ensures var end := Run(f, Race(o, b, [], []), [Begin(false), Read(0), SendMoney(0, AnswerLost)]);
            && end.calls == [Finished(Err(ProviderFailed))] && end.order == o && end.book == b
            && Sum(end.book, PayoutWeight) == 0 < PaidBy(end.requests)
            && PaidBy(end.requests) == PayoutAmount(ReadRelease(o, b, false), f.settings)
            && (actor != Some(o.buyer) ==> RefundOrder(f.id, end.order, end.book, actor, true).0.Posting?)
  {
    hide PayoutAmount, ReadRelease, FullRefund, Released, OrderInv, Run, Next, Sum, PaidBy;
    var p := ReadRelease(o, b, false);
    PlanIsSound(f.id, o, b, false);
    BeforeRelease(f.id, o, b);
    NotRefunded(f.id, o, b);
    ThreeMoves(f, Race(o, b, [], []), Begin(false), Read(0), SendMoney(0, AnswerLost));
    ReadsPlan(f, o, b);
    LosesAnswer(f, o, b, p);
    var request := Request(f.id, PayoutAmount(p, f.settings));
    PaidOnce([request], request);
    RefundedRow(f.id, o);
  }

  lemma LosesAnswer(f: Setting, o: Order, b: seq<Entry>, p: ReleaseRead)
    requires p.Plan? && p.order.payments != [] && Asks(f, p)
    ensures Next(f, Race(o, b, [Planned(false, p)], []), SendMoney(0, AnswerLost)) ==
            Race(o, b, [Finished(Err(ProviderFailed))], [Request(f.id, PayoutAmount(p, f.settings))])
  {
    hide PayoutAmount;
  }

  lemma NotRefunded(id: OrderId, o: Order, b: seq<Entry>)
    requires OrderInv(id, o, b) && o.status != Orders.Refunded && o.payments != []
    ensures !o.payments[|o.payments| - 1].status.PaymentRefunded?
  {
    assert PaymentInv(o, o.payments[|o.payments| - 1]);
  }

  // ----- a dispute opened meanwhile -----

  /** A call that holds a plan read an order that could be released: completed, and undisputed or told to ignore it. */
  predicate ReadProperly(c: Call) {
    c.Planned? || c.Sent? ==>
      c.plan.Plan? && c.plan.order.status == Completed && c.plan.order.payments != []
      && (c.ignoreDispute || !DisputeIsOpen(c.plan.order))
  }

  lemma {:induction false} PlansReadProperly(f: Setting, r: Race, moves: seq<Move>)
    requires forall c :: c in r.calls ==> ReadProperly(c)
    ensures forall c :: c in Run(f, r, moves).calls ==> ReadProperly(c)
  {
    if moves != [] {
      var init, m := moves[..|moves| - 1], moves[|moves| - 1];
      PlansReadProperly(f, r, init);
      StepReadsProperly(f, Run(f, r, init), m);
    }
  }

  lemma StepReadsProperly(f: Setting, r: Race, m: Move)
    requires forall c :: c in r.calls ==> ReadProperly(c)
    ensures forall c :: c in Next(f, r, m).calls ==> ReadProperly(c)
  {
    hide PayoutAmount, ReadRelease, CommitRelease, CashOut;
    if m.Read? && m.call < |r.calls| && r.calls[m.call].Reading? {
      assert r.calls[m.call] in r.calls;
      if ReadRelease(r.order, r.book, r.calls[m.call].ignoreDispute).Plan? {
        ReadFacts(r.order, r.book, r.calls[m.call].ignoreDispute);
      }
    } else if m.SendMoney? && m.call < |r.calls| {
      assert r.calls[m.call] in r.calls;
    }
  }

  /** In a run that is not released yet but disputed, the next commit of a call releases the order nevertheless exactly
      when that call got past its cash-out with a plan read before the dispute was opened, or was told to ignore it. */
  lemma CommitReleasesDisputedIff(f: Setting, o: Order, b: seq<Entry>, moves: seq<Move>, i: nat)
    requires var r := Run(f, Race(o, b, [], []), moves);
             !Released(r.book) && DisputeIsOpen(r.order) && i < |r.calls|
    ensures var r := Run(f, Race(o, b, [], []), moves);
            Released(Next(f, r, Commit(i)).book) <==>
              r.calls[i].Sent? && r.calls[i].plan.Plan? && (r.calls[i].ignoreDispute || !DisputeIsOpen(r.calls[i].plan.order))
  {
    PlansReadProperly(f, Race(o, b, [], []), moves);
    hide Run, Released, Next;
    CommitReleasesIff(f, Run(f, Race(o, b, [], []), moves), i);
  }

  lemma CommitReleasesIff(f: Setting, r: Race, i: nat)
    requires !Released(r.book) && i < |r.calls| && ReadProperly(r.calls[i])
    ensures Released(Next(f, r, Commit(i)).book) <==> r.calls[i].Sent?
  {
    hide Released, FeeAmount, PayoutAmount, EarnCommission, ReleaseEntries;
    if r.calls[i].Sent? {
      ReleaseRowsTally(f, r.book, r.calls[i].plan);
    }
  }

  /** It happens: a dispute opened after the read does not stop the release. */
  lemma DisputeInFlight(f: Setting, o: Order, b: seq<Entry>)
    requires o.dispute.None? && ReadRelease(o, b, false).Plan? && CashOutPasses(f, ReadRelease(o, b, false))
    ensures var disputed := Transition(o, DisputedEvent, Disputed).(dispute := Some(Open));
            var end := Run(f, Race(o, b, [], []), [Begin(false), Read(0), Touch(Disputed, Some(Open), disputed.events),
                                                  SendMoney(0, Accepted), Commit(0)]);
            end.order.status == Disputed && DisputeIsOpen(end.order) && Released(end.book)
            && OpenDispute(o, o.buyer) == Done(disputed)
  {
    hide Released, ReadRelease, Run, SendStep, CommitStep, ReadStep;
    var p, start := ReadRelease(o, b, false), Race(o, b, [], []);
    ReadFacts(o, b, false);
    ReadsPlan(f, o, b);
    var events := Transition(o, DisputedEvent, Disputed).events;
    var first := [Begin(false), Read(0), Touch(Disputed, Some(Open), events)];
    ThreeMoves(f, start, first[0], first[1], first[2]);
    var touched := Race(o.(status := Disputed, dispute := Some(Open), events := events), b, [Planned(false, p)], []);
    assert Run(f, start, first) == touched;
    OneMove(f, start, first, SendMoney(0, Accepted));
    OneMove(f, start, first + [SendMoney(0, Accepted)], Commit(0));
    assert first + [SendMoney(0, Accepted)] + [Commit(0)] ==
           [Begin(false), Read(0), Touch(Disputed, Some(Open), events), SendMoney(0, Accepted), Commit(0)];
    GoesThrough(f, touched, p);
  }

  lemma GoesThrough(f: Setting, r: Race, p: ReleaseRead)
    requires p.Plan? && p.order.payments != [] && CashOutPasses(f, p) && !Released(r.book) && r.calls == [Planned(false, p)]
    ensures var end := Next(f, Next(f, r, SendMoney(0, Accepted)), Commit(0));
            Released(end.book) && end.order.status == r.order.status && end.order.dispute == r.order.dispute
  {
    hide Released, FeeAmount, PayoutAmount, ReleaseEntries, HasCommission;
    var sent := Next(f, r, SendMoney(0, Accepted));
    assert sent.calls == [Sent(false, p)] && sent.order == r.order && sent.book == r.book;
    ReleaseRowsTally(f, r.book, p);
  }

  predicate CashOutPasses(f: Setting, p: ReleaseRead)
    requires p.Plan?
  {
    CashOut(f.settings, f.seller, PayoutAmount(p, f.settings), true).Ok?
  }

  // ----- a full refund meanwhile -----

  /** Around a full refund of an order that can be released: the commit of a release that read before the refund releases
      the refunded order and leaves the escrow short by the refunded payment; one that reads after it is refused. */
  lemma RefundedIsReleasedIffReadBefore(id: OrderId, o: Order, b: seq<Entry>, actor: Option<UserId>, ignoreDispute: bool,
      s: Settings, active: bool, before: bool)
    requires OrderInv(id, o, b) && ReadRelease(o, b, ignoreDispute).Plan?
    requires RefundOrder(id, o, b, actor, true).0.Posting?
    ensures var refund := RefundOrder(id, o, b, actor, true).0;
            var p := if before then ReadRelease(o, b, ignoreDispute)
                     else ReadRelease(refund.order, b + refund.entries, ignoreDispute);
            && refund.order.status == Orders.Refunded && (p.Plan? <==> before)
            && (p.Plan? ==>
                  && p.order.payments != []
                  && var c := CommitRelease(id, refund.order, b + refund.entries, p, s, active);
                  && c.Posting? && c.order.status == Orders.Refunded
                  && Released(b + refund.entries + c.entries)
                  && Sum(b + refund.entries + c.entries, HeldWeight) == -(o.payments[|o.payments| - 1].amount as int))
  {
    hide Released, EarnCommission, ReadRelease, FullRefund, OrderInv, CommitRelease, Sum;
    PlanIsSound(id, o, b, ignoreDispute);
    NotRefunded(id, o, b);
    RefundedRow(id, o);
    var refund := FullRefund(id, o);
    assert RefundOrder(id, o, b, actor, true).0 == refund;
    if before {
      ReadFacts(o, b, ignoreDispute);
      CommitAfterRefund(id, o, b, ReadRelease(o, b, ignoreDispute), s, active);
    } else if ReadRelease(refund.order, b + refund.entries, ignoreDispute).Plan? {
      ReadFacts(refund.order, b + refund.entries, ignoreDispute);
    }
  }

  lemma CommitAfterRefund(id: OrderId, o: Order, b: seq<Entry>, p: ReleaseRead, s: Settings, active: bool)
    requires p.Plan? && p.order == o && o.payments != [] && !Released(b) && p.held == Sum(b, HeldWeight)
    ensures FullRefund(id, o).Posting?
    ensures var refund := FullRefund(id, o);
            var c := CommitRelease(id, refund.order, b + refund.entries, p, s, active);
            && c.Posting? && c.order.status == Orders.Refunded && Released(b + refund.entries + c.entries)
            && Sum(b + refund.entries + c.entries, HeldWeight) == -(o.payments[|o.payments| - 1].amount as int)
  {
    RefundedRow(id, o);
    FullRefundTally(id, o, b);
    hide Released, FullRefund, FeeAmount, PayoutAmount, HasCommission;
    ReleaseTally(id, b + FullRefund(id, o).entries, p, FeeAmount(p, s), PaidOut(p, s));
  }

  lemma RefundedRow(id: OrderId, o: Order)
    requires o.payments != []
    ensures FullRefund(id, o).Posting? && FullRefund(id, o).order.status == Orders.Refunded
  {
  }
}
