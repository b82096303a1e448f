/** Whose spendable balance each call moves, and by how much: for everyone, success or failure. */
module Balances {
  import opened Wrappers
  import opened Ledger
  import opened Orders
  import opened Settlement
  import opened Market
  import opened OrderInvariant
  import opened OrderPostings
  import opened MarketInvariant
  import opened Theorems
  import opened ReleaseConditions
  import A = Attribution

  // ----- the table -----

  predicate PaysFromWallet(db: Db, id: OrderId, user: UserId) {
    && id in db.orders && db.orders[id].buyer == user && IsPayable(db.orders[id].status) && db.orders[id].seller.Some?
    && 0 < db.orders[id].total <= Spendable(db.ledger, user)
  }

  /** A job that confirms the charge of a top-up for the first time. */
  predicate ConfirmsTopup(db: Db, event: EventId) {
    && event in db.webhooks && !db.webhooks[event].processed && db.webhooks[event].paid
    && db.webhooks[event].txid.Some? && Issued(db, db.webhooks[event].txid.value)
    && var t := db.webhooks[event].txid.value;
    && db.orders[t.order].seller.None? && !db.orders[t.order].payments[t.n].paid
    && db.orders[t.order].status in {Created, AwaitingPayment, InDelivery}
  }

  /** What the platform keeps of a refund to a wallet: 30 cents of small amounts, as far as they go. */
  function RefundFee(amount: nat): nat { if amount < 2500 then Min(amount, 30) else 0 }

  function RefundGain(db: Db, id: OrderId, actor: Option<UserId>, providerOk: bool, u: UserId): int {
    if id !in db.orders || actor == Some(db.orders[id].buyer) || db.orders[id].payments == [] then 0
    else
      var o := db.orders[id];
      var payment := o.payments[|o.payments| - 1];
      if Released(BookOf(db.ledger, id)) then (if u == LedgerOwner(o) then -(payment.amount as int) else 0)
      else if payment.status.PaymentRefunded? || !payment.provider.Wallet? then 0
      else if u == o.buyer then payment.amount - RefundFee(payment.amount)
      else 0
  }

  /** A release leaves the seller's share in the balance, unless it is paid out at once. */
  ghost function ReleaseGain(db: Db, id: OrderId, held: int, providerOk: bool, u: UserId): int {
    if CanRelease(db, id, held, providerOk) && db.settings.splitEnabled && db.orders[id].seller == Some(u)
    then A.SellerShare(db.orders[id].attribution.value.feeFinal, held)
    else 0
  }

  predicate Resolvable(db: Db, id: OrderId) {
    && id in db.orders && db.orders[id].dispute in {Some(Open), Some(Review)}
    && db.orders[id].status != Cancelled && db.orders[id].status != Orders.Refunded
  }

  /** Part of what is held can go back to the buyer. */
  ghost predicate CanRefundPart(db: Db, id: OrderId, amount: int, providerOk: bool) {
    && id in db.orders && db.orders[id].seller.Some? && db.orders[id].payments != []
    && 0 < amount < db.orders[id].payments[|db.orders[id].payments| - 1].amount
    && !Released(BookOf(db.ledger, id)) && amount <= HeldBalance(db, id) && providerOk
  }

  ghost function ResolveGain(db: Db, id: OrderId, admin: UserId, how: Resolution, refundOk: bool, cashOutOk: bool, u: UserId)
    : int
  {
    match how
    case RefundBuyer =>
      if id in db.orders && db.orders[id].dispute in {Some(Open), Some(Review)} && db.orders[id].status != Orders.Refunded
      then RefundGain(db, id, Some(admin), refundOk, u) else 0
    case ReleaseSeller =>
      if Resolvable(db, id) then ReleaseGain(db, id, HeldBalance(db, id), cashOutOk, u) else 0
    case SplitBetween(amount) =>
      if Resolvable(db, id) && CanRefundPart(db, id, amount, refundOk)
      then ReleaseGain(db, id, HeldBalance(db, id) - amount, cashOutOk, u) else 0
  }

  predicate PayoutAdmitted(db: Db, user: UserId, cost: int, accountAgeMs: int, providerOk: bool) {
    && user in db.users && !db.users[user].payoutBlocked && 5 * 24 * 60 * 60 * 1000 <= accountAgeMs
    && cost <= Spendable(db.ledger, user) && providerOk
  }

  ghost function Gain(db: Db, s: Step, u: UserId): int {
    match s
    case DoProcessWebhook(event, _) =>
      if ConfirmsTopup(db, event) && u == db.orders[db.webhooks[event].txid.value.order].buyer
      then db.orders[db.webhooks[event].txid.value.order].total else 0
    case DoPayWithBalance(id, user, _) =>
      if PaysFromWallet(db, id, user) && u == user then -(db.orders[id].total as int) else 0
    case DoReleaseOrder(id, providerOk) =>
      if MayRelease(db, id, false) then ReleaseGain(db, id, HeldBalance(db, id), providerOk, u) else 0
    case DoRefundOrder(id, actor, providerOk) => RefundGain(db, id, actor, providerOk, u)
    case DoResolveDispute(id, admin, how, refundOk, cashOutOk) =>
      ResolveGain(db, id, admin, how, refundOk, cashOutOk, u)
    case DoUserPayout(user, cents, instant, age, providerOk) =>
      var cost := cents + if instant then 100 else 0;
      if PayoutAdmitted(db, user, cost, age, providerOk) && u == user then -cost else 0
    case DoAdjustBalance(user, amount) => if user in db.users && u == user then amount else 0
    case _ => 0
  }

  // ----- sums -----

  lemma Gains(l: seq<Entry>, es: seq<Entry>, u: UserId)
    ensures Spendable(l + es, u) == Spendable(l, u) + Sum(es, AvailableWeight(u))
  {
    SumConcat(l, es, AvailableWeight(u));
  }

  lemma SumTwo(a: Entry, b: Entry, w: Entry -> int)
    ensures Sum([a] + [b], w) == w(a) + w(b)
  {
    SumConcat([a], [b], w);
    SumOne(a, w);
    SumOne(b, w);
  }

  lemma SumRelease(id: OrderId, p: ReleaseRead, s: Settings, u: UserId)
    requires p.Plan? && p.order.payments != []
    ensures Sum(ReleaseEntries(id, p, s), AvailableWeight(u)) ==
              if u == p.owner && s.splitEnabled then PayoutAmount(p, s) else 0
  {
    var w := AvailableWeight(u);
    var moves, fees := MoveRows(id, p), DebitRows(id, p, Fee, FeeAmount(p, s));
    var payouts := DebitRows(id, p, Payout, PaidOut(p, s));
    SumConcat(moves + fees, payouts, w);
    SumConcat(moves, fees, w);
    SumTwo(moves[0], moves[1], w);
    SumDebit(id, p, Fee, FeeAmount(p, s), u);
    SumDebit(id, p, Payout, PaidOut(p, s), u);
  }

  lemma SumDebit(id: OrderId, p: ReleaseRead, source: Source, amount: nat, u: UserId)
    requires p.Plan? && p.order.payments != []
    ensures Sum(DebitRows(id, p, source, amount), AvailableWeight(u)) == if u == p.owner then -(amount as int) else 0
  {
    if amount > 0 {
      SumOne(DebitRows(id, p, source, amount)[0], AvailableWeight(u));
    }
  }

  lemma SumFullRefund(id: OrderId, o: Order, u: UserId)
    requires o.payments != []
    ensures var payment := o.payments[|o.payments| - 1];
            FullRefund(id, o).Posting?
            && Sum(FullRefund(id, o).entries, AvailableWeight(u)) ==
                 if payment.provider.Wallet? && u == o.buyer then payment.amount - RefundFee(payment.amount) else 0
  {
    hide ReverseCommission;
    var es, w := FullRefund(id, o).entries, AvailableWeight(u);
    if |es| == 3 {
      assert es == [es[0]] + [es[1]] + [es[2]];
      SumConcat([es[0]] + [es[1]], [es[2]], w);
      SumOne(es[2], w);
    } else {
      assert es == [es[0]] + [es[1]];
    }
    SumTwo(es[0], es[1], w);
  }

  // ----- the calls -----

  lemma RefundMovesBalance(db: Db, id: OrderId, actor: Option<UserId>, providerOk: bool, u: UserId)
    ensures Spendable(RefundWhole(db, id, actor, providerOk).db.ledger, u) ==
              Spendable(db.ledger, u) + RefundGain(db, id, actor, providerOk, u)
  {
    hide FullRefund, Chargeback, Spendable, BookOf, Released, RefundWhole;
    RefundLedger(db, id, actor, providerOk);
    if id in db.orders && db.orders[id].payments != [] {
      var o := db.orders[id];
      SumFullRefund(id, o, u);
      SumChargeback(id, o, u);
      Gains(db.ledger, FullRefund(id, o).entries, u);
      Gains(db.ledger, Chargeback(id, o).entries, u);
    }
  }

  lemma RefundLedger(db: Db, id: OrderId, actor: Option<UserId>, providerOk: bool)
    ensures var later := RefundWhole(db, id, actor, providerOk).db;
            if id !in db.orders || actor == Some(db.orders[id].buyer) || db.orders[id].payments == []
            then later.ledger == db.ledger
            else
              var o := db.orders[id];
              var payment := o.payments[|o.payments| - 1];
              && FullRefund(id, o).Posting? && Chargeback(id, o).Posting?
              && later.ledger ==
                   if Released(BookOf(db.ledger, id)) then db.ledger + Chargeback(id, o).entries
                   else if payment.status.PaymentRefunded? || (!payment.provider.Wallet? && !providerOk) then db.ledger
                   else db.ledger + FullRefund(id, o).entries
  {
    hide BookOf, Released, ReverseCommission;
  }

  lemma SumChargeback(id: OrderId, o: Order, u: UserId)
    requires o.payments != []
    ensures Chargeback(id, o).Posting?
    ensures Sum(Chargeback(id, o).entries, AvailableWeight(u)) ==
              if u == LedgerOwner(o) then -(o.payments[|o.payments| - 1].amount as int) else 0
  {
    var es := Chargeback(id, o).entries;
    SumTwo(es[0], es[1], AvailableWeight(u));
  }

  lemma PartialMovesNothing(db: Db, id: OrderId, amount: int, providerOk: bool, u: UserId)
    ensures Spendable(RefundPart(db, id, amount, providerOk).db.ledger, u) == Spendable(db.ledger, u)
  {
    hide Spendable, ReverseCommission, Released;
    if id in db.orders {
      var p := RefundPartially(id, db.orders[id], BookOf(db.ledger, id), amount, providerOk);
      if p.Posting? {
        Gains(db.ledger, p.entries, u);
        SumTwo(p.entries[0], p.entries[1], AvailableWeight(u));
      }
    }
  }

  lemma ReleaseMovesBalance(db: Db, id: OrderId, ignoreDispute: bool, providerOk: bool, u: UserId)
    requires Inv(db)
    ensures Spendable(ReleaseOrder(db, id, ignoreDispute, providerOk).db.ledger, u) == Spendable(db.ledger, u)
              + if MayRelease(db, id, ignoreDispute) then ReleaseGain(db, id, HeldBalance(db, id), providerOk, u) else 0
  {
    hide ReleaseOrder, Inv, OrderInv, Spendable, ReadRelease, ReleaseEntries, Released, FeeAmount, CashOut, PayoutAmount;
    ReleasesIff(db, id, ignoreDispute, providerOk);
    if MayRelease(db, id, ignoreDispute) && CanRelease(db, id, HeldBalance(db, id), providerOk) {
      var o, book := db.orders[id], BookOf(db.ledger, id);
      var p := ReadRelease(o, book, ignoreDispute);
      OrderHolds(db, id);
      PlansIff(id, o, book, ignoreDispute);
      PlanIsSound(id, o, book, ignoreDispute);
      AdmissionAgrees(db, o, p, providerOk);
      PlannedOutcome(db, id, ignoreDispute, providerOk);
      Gains(db.ledger, ReleaseEntries(id, p, db.settings), u);
      SumRelease(id, p, db.settings, u);
    }
  }

  lemma WebhookMovesBalance(db: Db, event: EventId, stocked: bool, u: UserId)
    requires Inv(db)
    ensures Spendable(ProcessWebhook(db, event, stocked).db.ledger, u) ==
              Spendable(db.ledger, u) + Gain(db, DoProcessWebhook(event, stocked), u)
  {
    hide Inv, OrderInv, Spendable, ConfirmByWebhook, FollowUp;
    if event in db.webhooks && db.webhooks[event].txid.Some? && Issued(db, db.webhooks[event].txid.value) {
      var t := db.webhooks[event].txid.value;
      var o, book := db.orders[t.order], BookOf(db.ledger, t.order);
      OrderHolds(db, t.order);
      ConfirmationRows(t.order, o, book, t.n, u);
      var p := ConfirmByWebhook(o, book, t);
      if p.Posting? {
        Gains(db.ledger, p.entries, u);
        var seen := db.(webhooks := db.webhooks[event := db.webhooks[event].(processed := true)]);
        FollowUpMovesNothing(WithOrder(seen, t.order, p.order, p.entries), t.order, ApplyPayment(o).applied, stocked);
      }
    }
  }

  lemma FollowUpMovesNothing(db: Db, id: OrderId, applied: bool, stocked: bool)
    ensures FollowUp(db, id, applied, stocked).db.ledger == db.ledger
  {
  }

  /** Only a first confirmation of a top-up credits a balance. */
  lemma ConfirmationRows(id: OrderId, o: Order, book: seq<Entry>, n: nat, u: UserId)
    requires OrderInv(id, o, book) && n < |o.payments|
    ensures var p := ConfirmByWebhook(o, book, Txid(id, n));
            && (p.Posting? <==> o.status in {Created, AwaitingPayment, InDelivery})
            && (p.Posting? ==>
                  Sum(p.entries, AvailableWeight(u)) ==
                    (if o.seller.None? && !o.payments[n].paid && u == o.buyer then o.total else 0))
  {
    TopupCount(book, Txid(id, n));
    assert PaymentInv(o, o.payments[n]);
    var p := ConfirmByWebhook(o, book, Txid(id, n));
    hide OrderInv, ApplyPayment;
    if p.Posting? && p.entries != [] {
      SumOne(p.entries[0], AvailableWeight(u));
    }
  }

  lemma WalletMovesBalance(db: Db, id: OrderId, user: UserId, stocked: bool, u: UserId)
    requires Inv(db)
    ensures Spendable(PayWithBalance(db, id, user, stocked).db.ledger, u) ==
              Spendable(db.ledger, u) + Gain(db, DoPayWithBalance(id, user, stocked), u)
  {
    hide Inv, OrderInv, Spendable, FollowUp, WalletPosting;
    if PaysFromWallet(db, id, user) {
      var o, book := db.orders[id], BookOf(db.ledger, id);
      var p := WalletPosting(id, o, o.seller.value, book);
      WalletRows(id, o, o.seller.value, book, u);
      Gains(db.ledger, p.entries, u);
      FollowUpMovesNothing(WithOrder(db, id, p.order, p.entries), id, true, stocked);
    }
  }

  lemma WalletRows(id: OrderId, o: Order, seller: UserId, book: seq<Entry>, u: UserId)
    requires IsPayable(o.status)
    ensures WalletPosting(id, o, seller, book).Posting?
    ensures Sum(WalletPosting(id, o, seller, book).entries, AvailableWeight(u)) ==
              if u == o.buyer then -(o.total as int) else 0
  {
    hide HasHeldCredit;
    var es := WalletPosting(id, o, seller, book).entries;
    if |es| == 1 {
      SumOne(es[0], AvailableWeight(u));
      assert es == [es[0]];
    } else {
      assert es == [es[0]] + [es[1]];
      SumTwo(es[0], es[1], AvailableWeight(u));
    }
  }

  lemma PayoutMovesBalance(db: Db, user: UserId, amount: nat, instant: bool, age: int, providerOk: bool, u: UserId)
    ensures var r := UserPayout(db, user, amount, instant, age, providerOk);
            var cost := amount + if instant then 100 else 0;
            Spendable(r.db.ledger, u) == Spendable(db.ledger, u)
              - (if PayoutAdmitted(db, user, cost, age, providerOk) && u == user then cost else 0)
  {
    hide UserPayout, Spendable;
    var w := AvailableWeight(u);
    var main, fee := PayoutEntry(user, Payout, amount), PayoutEntry(user, Fee, 100);
    PayoutLedger(db, user, amount, instant, age, providerOk);
    if instant {
      SumTwo(main, fee, w);
      Gains(db.ledger, [main] + [fee], u);
    } else {
      SumOne(main, w);
      Gains(db.ledger, [main], u);
    }
  }

  lemma PayoutLedger(db: Db, user: UserId, amount: nat, instant: bool, age: int, providerOk: bool)
    ensures var r := UserPayout(db, user, amount, instant, age, providerOk);
            var main, fee := PayoutEntry(user, Payout, amount), PayoutEntry(user, Fee, 100);
            var cost := amount + if instant then 100 else 0;
            r.db.ledger ==
              if !PayoutAdmitted(db, user, cost, age, providerOk) then db.ledger
              else if instant then db.ledger + ([main] + [fee])
              else db.ledger + [main]
  {
    hide Spendable;
    assert [PayoutEntry(user, Payout, amount)] + [] == [PayoutEntry(user, Payout, amount)];
  }

  lemma AdjustmentMovesBalance(db: Db, user: UserId, amount: int, u: UserId)
    ensures Spendable(AdjustBalance(db, user, amount).db.ledger, u) ==
              Spendable(db.ledger, u) + if user in db.users && u == user then amount else 0
  {
    if user in db.users && amount != 0 {
      var r := AdjustBalance(db, user, amount).db;
      SumOne(r.ledger[|db.ledger|], AvailableWeight(u));
      Gains(db.ledger, [r.ledger[|db.ledger|]], u);
    }
  }

  lemma CompletionMovesNothing(db: Db, id: OrderId)
    requires id in db.orders
    ensures CompleteDisputed(db, id).ledger == db.ledger && CompleteDisputed(db, id).settings == db.settings
    ensures CompleteDisputed(db, id).users == db.users
    ensures id in CompleteDisputed(db, id).orders
    ensures CompleteDisputed(db, id).orders[id] == db.orders[id].(status := Completed,
              events := CompleteDisputed(db, id).orders[id].events)
  {
  }

  /** Who gains at a release depends on little of the database. */
  lemma SameGain(a: Db, b: Db, id: OrderId, held: int, providerOk: bool, u: UserId)
    requires id in a.orders && id in b.orders && a.settings == b.settings && a.users == b.users
    requires a.orders[id].seller == b.orders[id].seller && a.orders[id].attribution == b.orders[id].attribution
    requires a.orders[id].payments == b.orders[id].payments
    requires Released(BookOf(a.ledger, id)) <==> Released(BookOf(b.ledger, id))
    ensures ReleaseGain(a, id, held, providerOk, u) == ReleaseGain(b, id, held, providerOk, u)
  {
  }

  lemma ReleaseResolutionLedger(db: Db, s: Step)
    requires s.DoResolveDispute? && s.how.ReleaseSeller?
    ensures Next(db, s).db.ledger ==
              if Resolvable(db, s.id) then ReleaseOrder(CompleteDisputed(db, s.id), s.id, true, s.cashOutOk).db.ledger
              else db.ledger
  {
    hide ReleaseOrder, CompleteDisputed;
    if Resolvable(db, s.id) {
      CompletionMovesNothing(db, s.id);
      ReleaseKeepsOrder(CompleteDisputed(db, s.id), s.id, s.cashOutOk);
      assert db.ledger + [] == db.ledger;
      var r := ReleaseOrder(CompleteDisputed(db, s.id), s.id, true, s.cashOutOk).db;
      assert r.ledger + [] == r.ledger;
    }
  }

  lemma ReleaseKeepsOrder(db: Db, id: OrderId, providerOk: bool)
    requires id in db.orders
    ensures id in ReleaseOrder(db, id, true, providerOk).db.orders
  {
    hide Release;
  }

  lemma ReleaseResolutionMovesBalance(db: Db, s: Step, u: UserId)
    requires Inv(db) && s.DoResolveDispute? && s.how.ReleaseSeller?
    ensures Spendable(Next(db, s).db.ledger, u) ==
              Spendable(db.ledger, u) + ResolveGain(db, s.id, s.user, s.how, s.refundOk, s.cashOutOk, u)
  {
    hide Inv, OrderInv, Spendable, ReleaseOrder, CompleteDisputed, ReleaseGain, Next;
    ReleaseResolutionLedger(db, s);
    if Resolvable(db, s.id) {
      CompleteDisputedKeeps(db, s.id);
      CompletionMovesNothing(db, s.id);
      var a := CompleteDisputed(db, s.id);
      ReleaseMovesBalance(a, s.id, true, s.cashOutOk, u);
      SameGain(a, db, s.id, HeldBalance(db, s.id), s.cashOutOk, u);
    }
  }

  lemma PartialOutcome(db: Db, id: OrderId, amount: int, providerOk: bool)
    requires Inv(db) && id in db.orders
    ensures var r := RefundPart(db, id, amount, providerOk);
            && (r.reply.Err? ==> r.db == db)
            && id in r.db.orders && r.db.settings == db.settings && r.db.users == db.users
            && r.db.orders[id].seller == db.orders[id].seller && r.db.orders[id].attribution == db.orders[id].attribution
            && r.db.orders[id].payments == db.orders[id].payments && r.db.orders[id].status == db.orders[id].status
            && (db.orders[id].seller.Some? ==> (r.reply.Ok? <==> CanRefundPart(db, id, amount, providerOk)))
            && (r.reply.Ok? ==> HeldBalance(r.db, id) == HeldBalance(db, id) - amount)
            && (Released(BookOf(r.db.ledger, id)) <==> Released(BookOf(db.ledger, id)))
  {
    var o, book := db.orders[id], BookOf(db.ledger, id);
    var p := RefundPartially(id, o, book, amount, providerOk);
    OrderHolds(db, id);
    if o.seller.Some? {
      HeldIsEscrow(id, o, book);
    }
    hide Inv, OrderInv, Released, Sum, ReverseCommission;
    if p.Posting? {
      OtherBooks(db.ledger, p.entries, id);
      PartialRows(id, o, book, amount);
    }
  }

  lemma HeldIsEscrow(id: OrderId, o: Order, book: seq<Entry>)
    requires OrderInv(id, o, book) && o.seller.Some?
    ensures Sum(book, HeldWeight) == Sum(book, EscrowWeight)
  {
  }

  lemma PartialRows(id: OrderId, o: Order, book: seq<Entry>, amount: nat)
    requires o.payments != []
    ensures var es := [RefundRow(id, o, LedgerOwner(o), Debit, Held, amount)]
                      + [RefundRow(id, o, LedgerOwner(o), Credit, Reversed, amount)];
            && Sum(book + es, HeldWeight) == Sum(book, HeldWeight) - amount
            && (Released(book + es) <==> Released(book))
            && ReverseCommission(Annotate(o)).seller == o.seller
            && ReverseCommission(Annotate(o)).attribution == o.attribution
            && ReverseCommission(Annotate(o)).payments == o.payments && ReverseCommission(Annotate(o)).status == o.status
  {
    var a := RefundRow(id, o, LedgerOwner(o), Debit, Held, amount);
    var b := RefundRow(id, o, LedgerOwner(o), Credit, Reversed, amount);
    SumConcat(book, [a] + [b], HeldWeight);
    SumTwo(a, b, HeldWeight);
    if Released(book) {
      var r :| r in book && IsRelease(r);
      assert r in book + ([a] + [b]);
    }
  }

  lemma SplitLedger(db: Db, s: Step)
    requires Inv(db) && s.DoResolveDispute? && s.how.SplitBetween?
    ensures Next(db, s).db.ledger ==
              if !Resolvable(db, s.id) || s.how.amount <= 0 then db.ledger
              else
                var r := RefundPart(CompleteDisputed(db, s.id), s.id, s.how.amount, s.refundOk);
                if r.reply.Err? then r.db.ledger else ReleaseOrder(r.db, s.id, true, s.cashOutOk).db.ledger
  {
    hide ReleaseOrder, CompleteDisputed, RefundPart, Inv;
    if Resolvable(db, s.id) {
      CompleteDisputedKeeps(db, s.id);
      CompletionMovesNothing(db, s.id);
      PartialOutcome(CompleteDisputed(db, s.id), s.id, s.how.amount, s.refundOk);
      var b := RefundPart(CompleteDisputed(db, s.id), s.id, s.how.amount, s.refundOk).db;
      ReleaseKeepsOrder(b, s.id, s.cashOutOk);
      var r := ReleaseOrder(b, s.id, true, s.cashOutOk).db;
      assert r.ledger + [] == r.ledger;
    }
  }

  lemma SplitMoves(a: Db, id: OrderId, amount: int, refundOk: bool, cashOutOk: bool, u: UserId)
    requires Inv(a) && id in a.orders && a.orders[id].status == Completed && RefundPart(a, id, amount, refundOk).reply.Ok?
    ensures var later := ReleaseOrder(RefundPart(a, id, amount, refundOk).db, id, true, cashOutOk).db;
            Spendable(later.ledger, u) ==
              Spendable(a.ledger, u) + ReleaseGain(a, id, HeldBalance(a, id) - amount, cashOutOk, u)
  {
    hide Inv, Spendable, ReleaseOrder, ReleaseGain, RefundPart, Released;
    var b := RefundPart(a, id, amount, refundOk).db;
    PartialOutcome(a, id, amount, refundOk);
    PartialMovesNothing(a, id, amount, refundOk, u);
    RefundPartKeeps(a, id, amount, refundOk);
    ReleaseMovesBalance(b, id, true, cashOutOk, u);
    SameGain(b, a, id, HeldBalance(a, id) - amount, cashOutOk, u);
  }

  lemma SplitMovesBalance(db: Db, s: Step, u: UserId)
    requires Inv(db) && s.DoResolveDispute? && s.how.SplitBetween?
    ensures Spendable(Next(db, s).db.ledger, u) ==
              Spendable(db.ledger, u) + ResolveGain(db, s.id, s.user, s.how, s.refundOk, s.cashOutOk, u)
  {
    hide Inv, OrderInv, Spendable, ReleaseOrder, CompleteDisputed, ReleaseGain, Next, RefundPart, Released, CanRefundPart;
    SplitLedger(db, s);
    var amount, held := s.how.amount, HeldBalance(db, s.id) - s.how.amount;
    if Resolvable(db, s.id) {
      CompleteDisputedKeeps(db, s.id);
      CompletionMovesNothing(db, s.id);
      var a := CompleteDisputed(db, s.id);
      var r := RefundPart(a, s.id, amount, s.refundOk);
      PartialOutcome(a, s.id, amount, s.refundOk);
      SamePart(a, db, s.id, amount, s.refundOk);
      if db.orders[s.id].seller.None? {
        NoPartNoGain(db, s.id, amount, held, s.refundOk, s.cashOutOk, u);
      }
      if r.reply.Ok? && 0 < amount {
        SplitMoves(a, s.id, amount, s.refundOk, s.cashOutOk, u);
        SameGain(a, db, s.id, held, s.cashOutOk, u);
      }
    }
  }

  lemma SamePart(a: Db, b: Db, id: OrderId, amount: int, providerOk: bool)
    requires id in a.orders && id in b.orders && a.ledger == b.ledger
    requires a.orders[id].seller == b.orders[id].seller && a.orders[id].payments == b.orders[id].payments
    ensures CanRefundPart(a, id, amount, providerOk) <==> CanRefundPart(b, id, amount, providerOk)
    ensures CanRefundPart(a, id, amount, providerOk) ==> 0 < amount
  {
  }

  /** Orders without a seller have no part of this. */
  lemma NoPartNoGain(db: Db, id: OrderId, amount: int, held: int, refundOk: bool, cashOutOk: bool, u: UserId)
    requires id in db.orders && db.orders[id].seller.None?
    ensures !CanRefundPart(db, id, amount, refundOk) && ReleaseGain(db, id, held, cashOutOk, u) == 0
  {
  }

  lemma RefundResolutionMovesBalance(db: Db, s: Step, u: UserId)
    requires Inv(db) && s.DoResolveDispute? && s.how.RefundBuyer?
    ensures Spendable(Next(db, s).db.ledger, u) ==
              Spendable(db.ledger, u) + ResolveGain(db, s.id, s.user, s.how, s.refundOk, s.cashOutOk, u)
  {
    hide Inv, OrderInv, Spendable, RefundWhole, RefundGain;
    RefundMovesBalance(db, s.id, Some(s.user), s.refundOk, u);
    if s.id in db.orders {
      RefundKeepsOrder(db, s.id, Some(s.user), s.refundOk);
      var r := RefundWhole(db, s.id, Some(s.user), s.refundOk).db;
      assert r.ledger + [] == r.ledger;
    }
  }

  lemma RefundKeepsOrder(db: Db, id: OrderId, actor: Option<UserId>, providerOk: bool)
    requires id in db.orders
    ensures id in RefundWhole(db, id, actor, providerOk).db.orders
  {
    hide RefundOrder;
  }

  lemma ResolutionMovesBalance(db: Db, s: Step, u: UserId)
    requires Inv(db) && s.DoResolveDispute?
    ensures Spendable(Next(db, s).db.ledger, u) ==
              Spendable(db.ledger, u) + ResolveGain(db, s.id, s.user, s.how, s.refundOk, s.cashOutOk, u)
  {
    hide Inv, Spendable, Next, ResolveGain;
    match s.how
    case RefundBuyer => RefundResolutionMovesBalance(db, s, u);
    case ReleaseSeller => ReleaseResolutionMovesBalance(db, s, u);
    case SplitBetween(_) => SplitMovesBalance(db, s, u);
  }

  lemma OtherCallsMoveNothing(db: Db, s: Step)
    requires IsOrderCall(s) || s.DoCreateOrder? || s.DoTopUp? || s.DoCreatePixCharge? || s.DoRegisterWebhook?
      || s.DoPlatformPayout? || s.DoSetUser? || s.DoSetPartner? || s.DoSetSettings?
    ensures Next(db, s).db.ledger == db.ledger
  {
    hide NewOrder, Cancel, Expire, AddEvidence, MarkDelivered, ConfirmReceipt, AutoComplete, OpenDispute, CreateCharge;
    assert db.ledger + [] == db.ledger;
  }

  ghost predicate MovesByTheTable(db: Db, s: Step, u: UserId) {
    Spendable(Next(db, s).db.ledger, u) == Spendable(db.ledger, u) + Gain(db, s, u)
  }

  lemma SettlementMovesBalance(db: Db, s: Step, u: UserId)
    requires Inv(db) && (s.DoReleaseOrder? || s.DoRefundOrder? || s.DoResolveDispute?)
    ensures MovesByTheTable(db, s, u)
  {
    hide Inv, Spendable, ReleaseOrder, RefundWhole, ResolveDispute, ReleaseGain, RefundGain, ResolveGain;
    match s
    case DoReleaseOrder(id, providerOk) => ReleaseMovesBalance(db, id, false, providerOk, u);
    case DoRefundOrder(id, actor, providerOk) => RefundMovesBalance(db, id, actor, providerOk, u);
    case DoResolveDispute(_, _, _, _, _) => ResolutionMovesBalance(db, s, u);
  }

  lemma MoneyMovesBalance(db: Db, s: Step, u: UserId)
    requires Inv(db) && (s.DoProcessWebhook? || s.DoPayWithBalance? || s.DoUserPayout? || s.DoAdjustBalance?)
    ensures MovesByTheTable(db, s, u)
  {
    hide Inv, Spendable, ProcessWebhook, PayWithBalance, UserPayout, AdjustBalance, PaysFromWallet, ConfirmsTopup;
    match s
    case DoProcessWebhook(event, stocked) => WebhookMovesBalance(db, event, stocked, u);
    case DoPayWithBalance(id, user, stocked) => WalletMovesBalance(db, id, user, stocked, u);
    case DoUserPayout(user, cents, instant, age, providerOk) =>
      PayoutMovesBalance(db, user, cents, instant, age, providerOk, u);
    case DoAdjustBalance(user, amount) => AdjustmentMovesBalance(db, user, amount, u);
  }

  /** Every call moves everyone's spendable balance by exactly what the table says. */
  lemma BalancesMoveByTheTable(db: Db, s: Step, u: UserId)
    requires IsReachable(db)
    ensures MovesByTheTable(db, s, u)
  {
    ReachableInv(db);
    hide Inv, IsReachable;
    match s
    case DoReleaseOrder(_, _) => SettlementMovesBalance(db, s, u);
    case DoRefundOrder(_, _, _) => SettlementMovesBalance(db, s, u);
    case DoResolveDispute(_, _, _, _, _) => SettlementMovesBalance(db, s, u);
    case DoProcessWebhook(_, _) => MoneyMovesBalance(db, s, u);
    case DoPayWithBalance(_, _, _) => MoneyMovesBalance(db, s, u);
    case DoUserPayout(_, _, _, _, _) => MoneyMovesBalance(db, s, u);
    case DoAdjustBalance(_, _) => MoneyMovesBalance(db, s, u);
    case _ =>
      hide Next, Spendable;
      OtherCallsMoveNothing(db, s);
  }

  /** Paid from the wallet: that payment is the latest, and the order is in delivery or delivered. */
  lemma PaidFromWallet(db: Db, id: OrderId, user: UserId, stocked: bool)
    requires PaysFromWallet(db, id, user)
    ensures var later := PayWithBalance(db, id, user, stocked).db;
            && id in later.orders
            && var o := later.orders[id];
            && o.buyer == user && o.status in {InDelivery, Delivered} && o.seller == db.orders[id].seller
            && o.payments != []
            && o.payments[|o.payments| - 1] == Payment(Wallet, PaymentStatus.Confirmed, db.orders[id].total, true)
  {
    hide HoldPayment;
    var o := db.orders[id];
    var p := WalletPosting(id, o, o.seller.value, BookOf(db.ledger, id));
    FollowUpKeepsPayments(WithOrder(db, id, p.order, p.entries), id, stocked);
    hide FollowUp;
  }

  lemma FollowUpKeepsPayments(db: Db, id: OrderId, stocked: bool)
    requires id in db.orders && db.orders[id].status == InDelivery
    ensures var later := FollowUp(db, id, true, stocked).db;
            && id in later.orders && later.orders[id].status in {InDelivery, Delivered}
            && later.orders[id] == db.orders[id].(status := later.orders[id].status, events := later.orders[id].events)
  {
  }

  lemma NotReleasedBeforeReceipt(id: OrderId, o: Order, book: seq<Entry>)
    requires OrderInv(id, o, book) && o.seller.Some? && o.status in {InDelivery, Delivered}
    ensures !Released(book)
  {
  }

  lemma WalletRefundAccepted(db: Db, id: OrderId, actor: Option<UserId>, providerOk: bool, total: nat)
    requires id in db.orders && !Released(BookOf(db.ledger, id)) && db.orders[id].payments != []
    requires actor != Some(db.orders[id].buyer)
    requires var ps := db.orders[id].payments; ps[|ps| - 1] == Payment(Wallet, PaymentStatus.Confirmed, total, true)
    ensures RefundWhole(db, id, actor, providerOk).reply.Ok?
    ensures forall u :: RefundGain(db, id, actor, providerOk, u) ==
                          if u == db.orders[id].buyer then total - RefundFee(total) else 0
  {
    hide Released, ReverseCommission;
  }

  /** Paying from the wallet and being refunded in full costs the buyer the refund fee and nothing else. */
  lemma PayAndRefundCostsTheFee(db: Db, id: OrderId, user: UserId, stocked: bool, actor: Option<UserId>, providerOk: bool)
    requires IsReachable(db) && PaysFromWallet(db, id, user) && actor != Some(user)
    ensures var paid := PayWithBalance(db, id, user, stocked).db;
            var back := RefundWhole(paid, id, actor, providerOk);
            && back.reply.Ok?
            && Spendable(back.db.ledger, user) == Spendable(db.ledger, user) - RefundFee(db.orders[id].total)
            && forall u :: u != user ==> Spendable(back.db.ledger, u) == Spendable(db.ledger, u)
  {
    hide Inv, OrderInv, IsReachable, Spendable, RefundGain, PayWithBalance, RefundWhole, Released;
    var paid := PayWithBalance(db, id, user, stocked).db;
    ReachableInv(db);
    PayWithBalanceKeeps(db, id, user, stocked);
    PaidFromWallet(db, id, user, stocked);
    var o := paid.orders[id];
    OrderHolds(paid, id);
    NotReleasedBeforeReceipt(id, o, BookOf(paid.ledger, id));
    WalletRefundAccepted(paid, id, actor, providerOk, db.orders[id].total);
    forall u ensures Spendable(RefundWhole(paid, id, actor, providerOk).db.ledger, u) ==
                       Spendable(db.ledger, u) - if u == user then RefundFee(db.orders[id].total) else 0 {
      WalletMovesBalance(db, id, user, stocked, u);
      RefundMovesBalance(paid, id, actor, providerOk, u);
    }
  }
}
