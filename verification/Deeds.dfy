/** What each call may and must do to an order and to the ledger, as a table that is read before the call: the deeds of
    the call, from its guards; and what each deed writes. Nothing here refers to how the services compute it. */
module Deeds {
  import opened Wrappers
  import opened Ledger
  import opened Orders
  import opened Settlement
  import opened Market
  import opened Theorems
  import opened ReleaseConditions
  import opened Balances

  datatype Deed =
    | Charging
    | Cancelling
    | Confirming(n: nat)
    | ToppingUp(n: nat)
    | PayingByWallet
    | Delivering
    | Completing
    | Disputing
    | GivingEvidence
    | Releasing(held: nat, fee: nat, paidOut: nat, earns: bool)
    | Refunding(afterRelease: bool)
    | RefundingPart(amount: nat)
    | Settling
    | Closing(outcome: DisputeStatus)

  // ----- what a deed writes to its order -----

  function Moved(o: Order, kind: EventKind, to: Status): Order {
    o.(status := to, events := o.events + [Event(kind, Some(o.status), Some(to))])
  }

  function Noted(o: Order, status: Status): Order {
    o.(events := o.events + [Event(Note, Some(status), Some(status))])
  }

  predicate Unpaid(o: Order) { o.status == Created || o.status == AwaitingPayment }

  /** An unpaid order is logged as paid and as in delivery. */
  function PaidFor(o: Order): Order {
    if Unpaid(o) then Moved(Moved(o, PaidEvent, Paid), InDeliveryEvent, InDelivery) else o
  }

  function WithPayment(o: Order, n: nat, status: PaymentStatus, paid: bool): Order
    requires n < |o.payments|
  {
    o.(payments := o.payments[n := o.payments[n].(status := status, paid := paid)])
  }

  /** A wallet payment ends the pending charges, leaves the other payments alone, and adds its own. */
  function WalletPayments(ps: seq<Payment>, total: nat): seq<Payment> {
    seq(|ps|, i requires 0 <= i < |ps| => if ps[i].status == Pending then ps[i].(status := Expired) else ps[i])
    + [Payment(Wallet, PaymentStatus.Confirmed, total, true)]
  }

  function Written(o: Order, d: Deed): Order {
    match d
    case Charging => o.(payments := o.payments + [Payment(Efi, Pending, o.total, false)])
    case Cancelling => Moved(o, CancelledEvent, Cancelled)
    case Confirming(n) => if n < |o.payments| then WithPayment(PaidFor(o), n, PaymentStatus.Confirmed, true) else o
    case ToppingUp(n) =>
      if n < |o.payments| then WithPayment(PaidFor(o), n, PaymentStatus.Confirmed, true).(status := Completed) else o
    case PayingByWallet => PaidFor(o).(payments := WalletPayments(o.payments, o.total))
    case Delivering => Moved(o, DeliveredEvent, Delivered)
    case Completing => Moved(o, CompletedEvent, Completed)
    case Disputing => Moved(o, DisputedEvent, Disputed).(dispute := Some(Open))
    case GivingEvidence => o.(events := o.events + [Event(Note, None, None)])
    case Releasing(_, _, _, earns) =>
      if earns && o.attribution.Some? && o.attribution.value.partner.Some? then
        Noted(o, Completed).(commissions :=
          o.commissions + [Commission(Earned, o.attribution.value.partner.value, o.attribution.value.commission)])
      else Noted(o, Completed)
    case Refunding(_) =>
      var last := |o.payments| - 1;
      if last < 0 then o
      else WithPayment(Moved(o, RefundedEvent, Orders.Refunded), last, PaymentRefunded, o.payments[last].paid)
    case RefundingPart(_) => Noted(o, o.status)
    case Settling => if o.status == Completed then o else Moved(o, Note, Completed)
    case Closing(outcome) => o.(dispute := Some(outcome))
  }

  // ----- what a deed writes to the ledger -----

  function Row(id: OrderId, n: int, user: UserId, kind: Kind, state: State, source: Source, amount: nat): seq<Entry> {
    if n < 0 then [] else [Entry(user, Some(id), Some(Txid(id, n)), kind, state, source, amount)]
  }

  function Owner(o: Order): UserId { if o.seller.Some? then o.seller.value else o.buyer }

  function BackToWallet(amount: nat): nat { amount - RefundFee(amount) }

  /** The rows, in their order; `last` is the latest payment. */
  function Books(id: OrderId, o: Order, d: Deed): seq<Entry> {
    var last, owner := |o.payments| - 1, Owner(o);
    match d
    case Confirming(n) =>
      if n < |o.payments| && !o.payments[n].paid then Row(id, n, owner, Credit, Held, OrderPayment, o.total) else []
    case ToppingUp(n) => Row(id, n, o.buyer, Credit, Available, WalletTopup, o.total)
    case PayingByWallet =>
      Row(id, |o.payments|, o.buyer, Debit, Available, WalletPayment, o.total)
      + Row(id, |o.payments|, owner, Credit, Held, OrderPayment, o.total)
    case Releasing(held, fee, paidOut, _) =>
      Row(id, last, owner, Debit, Held, OrderPayment, held)
      + Row(id, last, owner, Credit, Available, OrderPayment, held)
      + (if fee > 0 then Row(id, last, owner, Debit, Available, Fee, fee) else [])
      + (if paidOut > 0 then Row(id, last, owner, Debit, Available, Payout, paidOut) else [])
    case Refunding(afterRelease) =>
      if last < 0 then []
      else
        var amount := o.payments[last].amount;
        Row(id, last, owner, Debit, if afterRelease then Available else Held, Refund, amount)
        + (if !afterRelease && o.payments[last].provider == Wallet
           then Row(id, last, o.buyer, Credit, Available, Refund, BackToWallet(amount)) else [])
        + Row(id, last, owner, Credit, Reversed, Refund, amount)
    case RefundingPart(amount) =>
      Row(id, last, owner, Debit, Held, Refund, amount) + Row(id, last, owner, Credit, Reversed, Refund, amount)
    case _ => []
  }

  // ----- which deeds a call does -----

  function Only(b: bool, d: Deed): seq<Deed> { if b then [d] else [] }

  predicate HasPendingCharge(o: Order) { exists i :: 0 <= i < |o.payments| && o.payments[i].status == Pending }

  /** Manual delivery waits for the seller; automatic delivery needs stock. */
  predicate DeliversAtOnce(o: Order, stocked: bool) {
    o.delivery != Some(Manual) && (o.delivery == Some(Auto) ==> stocked)
  }

  /** A job that confirms this payment: not done yet, reported as paid, on an order that is unpaid or in delivery. */
  predicate Confirms(db: Db, event: EventId, id: OrderId) {
    && event in db.webhooks && !db.webhooks[event].processed && db.webhooks[event].paid
    && db.webhooks[event].txid.Some? && db.webhooks[event].txid.value.order == id
    && id in db.orders && db.webhooks[event].txid.value.n < |db.orders[id].payments|
    && (Unpaid(db.orders[id]) || db.orders[id].status == InDelivery)
  }

  function ConfirmDeeds(o: Order, n: nat, stocked: bool): seq<Deed>
    requires n < |o.payments|
  {
    if o.seller.None? && !o.payments[n].paid then [ToppingUp(n)]
    else [Confirming(n)] + Only(Unpaid(o) && DeliversAtOnce(o, stocked), Delivering)
  }

  predicate IsActive(db: Db, o: Order) {
    && o.attribution.Some? && o.attribution.value.partner.Some? && 0 < o.attribution.value.commission
    && var partner := o.attribution.value.partner.value;
    (partner in db.partners ==> db.partners[partner])
  }

  /** The fee agreed at checkout, as far as the held money goes; the rest is the seller's. */
  ghost function ReleaseDeeds(db: Db, id: OrderId, held: int, providerOk: bool): seq<Deed> {
    if !CanRelease(db, id, held, providerOk) then []
    else
      var o := db.orders[id];
      var fee := Min(Max(o.attribution.value.feeFinal, 0), held);
      [Releasing(held, fee, if db.settings.splitEnabled then 0 else held - fee, IsActive(db, o))]
  }

  ghost predicate CanRefund(db: Db, id: OrderId, actor: Option<UserId>, providerOk: bool) {
    && id in db.orders && actor != Some(db.orders[id].buyer) && db.orders[id].payments != []
    && var last := db.orders[id].payments[|db.orders[id].payments| - 1];
    (Released(BookOf(db.ledger, id)) || (last.status != PaymentRefunded && (last.provider == Wallet || providerOk)))
  }

  ghost function RefundDeeds(db: Db, id: OrderId, actor: Option<UserId>, providerOk: bool): seq<Deed> {
    if CanRefund(db, id, actor, providerOk) then [Refunding(Released(BookOf(db.ledger, id)))] else []
  }

  ghost function ResolveDeeds(db: Db, id: OrderId, admin: UserId, how: Resolution, refundOk: bool, cashOutOk: bool)
    : seq<Deed>
  {
    match how
    case RefundBuyer =>
      if id in db.orders && db.orders[id].dispute in {Some(Open), Some(Review)} && db.orders[id].status != Orders.Refunded
        && CanRefund(db, id, Some(admin), refundOk)
      then RefundDeeds(db, id, Some(admin), refundOk) + [Closing(Resolved)] else []
    case ReleaseSeller =>
      if !Resolvable(db, id) then []
      else
        [Settling]
        + ReleaseDeeds(db, id, HeldBalance(db, id), cashOutOk)
        + Only(CanRelease(db, id, HeldBalance(db, id), cashOutOk)
               || (db.orders[id].payments != [] && Released(BookOf(db.ledger, id))), Closing(Rejected))
    case SplitBetween(amount) =>
      if !Resolvable(db, id) || amount <= 0 then []
      else if !CanRefundPart(db, id, amount, refundOk) then [Settling]
      else
        [Settling, RefundingPart(amount)]
        + ReleaseDeeds(db, id, HeldBalance(db, id) - amount, cashOutOk)
        + Only(CanRelease(db, id, HeldBalance(db, id) - amount, cashOutOk), Closing(Resolved))
  }

  predicate ByTheSeller(o: Order, user: UserId, admin: bool) {
    o.status == InDelivery && o.delivery == Some(Manual) && (admin || o.seller == Some(user))
  }

  /** What a call does to an order that exists. */
  ghost function DeedsOf(db: Db, s: Step, id: OrderId): seq<Deed>
    requires id in db.orders
  {
    var o := db.orders[id];
    match s
    case DoCreatePixCharge(on, user, providerOk) =>
      Only(on == id && user == o.buyer && Unpaid(o) && !HasPendingCharge(o) && providerOk, Charging)
    case DoProcessWebhook(event, stocked) =>
      if Confirms(db, event, id) then ConfirmDeeds(o, db.webhooks[event].txid.value.n, stocked) else []
    case DoPayWithBalance(on, user, stocked) =>
      if on == id && PaysFromWallet(db, id, user)
      then [PayingByWallet] + Only(DeliversAtOnce(o, stocked), Delivering) else []
    case DoCancelOrder(on, user) => Only(on == id && user == o.buyer && Unpaid(o), Cancelling)
    case DoExpireOrder(on, now) =>
      Only(on == id && Unpaid(o) && o.expiresAt.Some? && o.expiresAt.value <= now, Cancelling)
    case DoAddDeliveryEvidence(on, user, admin) => Only(on == id && ByTheSeller(o, user, admin), GivingEvidence)
    case DoMarkOrderDelivered(on, user, admin) => Only(on == id && ByTheSeller(o, user, admin), Delivering)
    case DoConfirmOrderReceipt(on, user) => Only(on == id && user == o.buyer && o.status == Delivered, Completing)
    case DoAutoCompleteOrder(on) => Only(on == id && o.status == Delivered && o.dispute.None?, Completing)
    case DoOpenOrderDispute(on, user) =>
      Only(on == id && user == o.buyer && o.status in {Delivered, Completed} && o.dispute.None?, Disputing)
    case DoReleaseOrder(on, providerOk) =>
      if on == id && MayRelease(db, id, false) then ReleaseDeeds(db, id, HeldBalance(db, id), providerOk) else []
    case DoRefundOrder(on, actor, providerOk) => if on == id then RefundDeeds(db, id, actor, providerOk) else []
    case DoResolveDispute(on, admin, how, refundOk, cashOutOk) =>
      if on == id then ResolveDeeds(db, id, admin, how, refundOk, cashOutOk) else []
    case _ => []
  }

  // ----- several deeds in turn -----

  function After(o: Order, ds: seq<Deed>): Order
    decreases |ds|
  {
    if ds == [] then o else After(Written(o, ds[0]), ds[1..])
  }

  function AllBooks(id: OrderId, o: Order, ds: seq<Deed>): seq<Entry>
    decreases |ds|
  {
    if ds == [] then [] else Books(id, o, ds[0]) + AllBooks(id, Written(o, ds[0]), ds[1..])
  }

  lemma {:induction false} MoreDeeds(id: OrderId, o: Order, ds: seq<Deed>, more: seq<Deed>)
    ensures After(o, ds + more) == After(After(o, ds), more)
    ensures AllBooks(id, o, ds + more) == AllBooks(id, o, ds) + AllBooks(id, After(o, ds), more)
    decreases |ds|
  {
    hide Written, Books;
    if ds == [] {
      assert ds + more == more;
    } else {
      MoreDeeds(id, Written(o, ds[0]), ds[1..], more);
      assert (ds + more)[1..] == ds[1..] + more && (ds + more)[0] == ds[0];
    }
  }

  lemma OneDeed(id: OrderId, o: Order, d: Deed)
    ensures After(o, [d]) == Written(o, d) && AllBooks(id, o, [d]) == Books(id, o, d)
  {
    hide Written, Books;
    var ds := [d];
    assert |ds[1..]| == 0;
    assert After(Written(o, d), ds[1..]) == Written(o, d) && AllBooks(id, Written(o, d), ds[1..]) == [];
  }
}
