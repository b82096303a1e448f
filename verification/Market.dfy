/** The whole database, and every service call as a function from database to database. */
module Market {
  import opened Wrappers
  import opened Ledger
  import opened Orders
  import opened Settlement
  import A = Attribution

  type EventId = nat

  /** A stored provider event: the txid it names, whether its payload reports a payment, and processedAt. */
  datatype WebhookEvent = WebhookEvent(txid: Option<Txid>, paid: bool, processed: bool)

  datatype PayoutScope = ToUser(user: UserId) | ToPlatform

  datatype PayoutRow = PayoutRow(scope: PayoutScope, sent: bool, amount: nat)

  datatype Db = Db(
    orders: map<OrderId, Order>,
    ledger: seq<Entry>,
    webhooks: map<EventId, WebhookEvent>,
    users: map<UserId, User>,
    partners: map<PartnerId, bool>,
    payouts: seq<PayoutRow>,
    settings: Settings)

  datatype Response = Response(db: Db, reply: Reply)

  function Empty(): Db { Db(map[], [], map[], map[], map[], [], Settings(false, 0)) }

  // ----- reading and writing one order -----

  function WithOrder(db: Db, id: OrderId, o: Order, entries: seq<Entry>): Db {
    db.(orders := db.orders[id := o], ledger := db.ledger + entries)
  }

  function Save(db: Db, id: OrderId, a: Attempt): Response {
    match a
    case Failed(e) => Response(db, Err(e))
    case Done(o) => Response(WithOrder(db, id, o, []), Ok)
  }

  function Post(db: Db, id: OrderId, p: Posting): Response {
    match p
    case Refused(e) => Response(db, Err(e))
    case NoChange => Response(db, Ok)
    case Posting(o, entries) => Response(WithOrder(db, id, o, entries), Ok)
  }

  function SellerRow(db: Db, o: Order): Option<User> {
    if o.seller.Some? && o.seller.value in db.users then Some(db.users[o.seller.value]) else None
  }

  /** A partner whose row is not there counts as active. */
  function PartnerActive(db: Db, o: Order): bool {
    if o.attribution.Some? && o.attribution.value.partner.Some? && o.attribution.value.partner.value in db.partners
    then db.partners[o.attribution.value.partner.value]
    else true
  }

  // ----- checkout and payment -----

  /** What checkout read from the listing and its stock, the coupon and the partner. */
  datatype Checkout = Checkout(
    published: bool,
    available: nat,
    seller: UserId,
    unitPrice: nat,
    quantity: nat,
    delivery: DeliveryType,
    feeBps: int,
    discountBps: Option<nat>,
    discountCents: Option<nat>,
    partner: Option<(PartnerId, A.Bps)>)

  function TermsOf(c: Checkout): A.Terms {
    A.Terms(c.unitPrice * c.quantity, c.feeBps, c.discountBps, c.discountCents,
      if c.partner.Some? then Some(c.partner.value.1) else None)
  }

  function NewOrder(buyer: UserId, c: Checkout, expiresAt: int): Order {
    var t := A.CalculateTotals(TermsOf(c));
    var attribution := Attribution(if c.partner.Some? then Some(c.partner.value.0) else None,
      c.unitPrice * c.quantity, t.discountApplied, t.feeBase, t.feeFinal, t.commission);
    var o := Order(buyer, Some(c.seller), Created, t.finalTotal, Some(c.delivery), Some(expiresAt),
      Some(attribution), [], None, [Event(CreatedEvent, None, Some(Created))], []);
    Transition(o, AwaitingPaymentEvent, AwaitingPayment)
  }

  function CreateOrder(db: Db, id: OrderId, buyer: UserId, c: Checkout, expiresAt: int): Response {
    if !c.published then Response(db, Err(BadRequest))
    else if c.delivery == Auto && c.available < c.quantity then Response(db, Err(BadRequest))
    else if id in db.orders then Response(db, Err(Conflict))
    else Response(WithOrder(db, id, NewOrder(buyer, c, expiresAt), []), Ok)
  }

  /** A wallet top-up is an order without seller, items or log, with a Pix charge of its own. */
  function TopUp(db: Db, id: OrderId, user: UserId, amount: nat, expiresAt: int, providerOk: bool): Response {
    if id in db.orders then Response(db, Err(Conflict))
    else
      var o := Order(user, None, Created, amount, None, Some(expiresAt), None, [], None, [], []);
      var a := CreateCharge(o, providerOk);
      if a.Failed? then Response(WithOrder(db, id, o, []), Err(a.error))
      else Response(WithOrder(db, id, a.order, []), Ok)
  }

  function CreateCharge(o: Order, providerOk: bool): Attempt {
    if !IsPayable(o.status) then Failed(BadRequest)
    else if HasPending(o.payments) then Done(o)
    else if !providerOk then Failed(ProviderFailed)
    else Done(o.(payments := o.payments + [Payment(Efi, Pending, o.total, false)]))
  }

  function CreatePixCharge(db: Db, id: OrderId, payer: UserId, providerOk: bool): Response {
    if id !in db.orders then Response(db, Err(NotFound))
    else if db.orders[id].buyer != payer then Response(db, Err(Forbidden))
    else Save(db, id, CreateCharge(db.orders[id], providerOk))
  }

  function RegisterWebhook(db: Db, event: EventId, txid: Option<Txid>, paid: bool): Response {
    if event in db.webhooks then Response(db, Ok)
    else Response(db.(webhooks := db.webhooks[event := WebhookEvent(txid, paid, false)]), Ok)
  }

  predicate Issued(db: Db, t: Txid) { t.order in db.orders && t.n < |db.orders[t.order].payments| }

  /** The transaction of a webhook job: one order row and the rows it appends. */
  function ConfirmByWebhook(o: Order, book: seq<Entry>, t: Txid): Posting
    requires t.n < |o.payments|
  {
    var c := ApplyPayment(o);
    if c.NotPayable? then Refused(BadRequest)
    else
      var payment := o.payments[t.n];
      var o1 := c.order.(payments := c.order.payments[t.n := ConfirmPayment(payment)]);
      if o.seller.Some? then Posting(o1, HoldPayment(t.order, t, o.seller.value, payment.amount, book))
      else if HasTopup(book, t) then Posting(o1, [])
      else Posting(o1.(status := Completed),
        [Entry(o.buyer, Some(t.order), Some(t), Credit, Available, WalletTopup, payment.amount)])
  }

  /** What follows a committed confirmation; only a failed reservation makes the call fail. */
  function FollowUp(db: Db, id: OrderId, applied: bool, stocked: bool): Response {
    if !applied || id !in db.orders then Response(db, Ok) else Save(db, id, AfterPayment(db.orders[id], stocked))
  }

  function ProcessWebhook(db: Db, event: EventId, stocked: bool): Response {
    if event !in db.webhooks then Response(db, Ok)
    else
      var e := db.webhooks[event];
      var seen := db.(webhooks := db.webhooks[event := e.(processed := true)]);
      if e.processed then Response(db, Ok)
      else if !e.paid then Response(seen, Ok)
      else if e.txid.None? || !Issued(db, e.txid.value) then Response(db, Err(NotFound))
      else
        var t := e.txid.value;
        var o := db.orders[t.order];
        var p := ConfirmByWebhook(o, BookOf(db.ledger, t.order), t);
        if !p.Posting? then Response(db, Err(BadRequest))
        else FollowUp(WithOrder(seen, t.order, p.order, p.entries), t.order, ApplyPayment(o).applied, stocked)
  }

  function Spendable(l: seq<Entry>, u: UserId): int { Sum(l, AvailableWeight(u)) }

  /** Paying with the wallet: the pending charges expire, a confirmed payment is added, the money is held. */
  function WalletPosting(id: OrderId, o: Order, seller: UserId, book: seq<Entry>): Posting {
    var t := Txid(id, |o.payments|);
    var c := ApplyPayment(o.(payments := ExpirePending(o.payments) + [Payment(Wallet, Confirmed, o.total, true)]));
    var debit := [Entry(o.buyer, Some(id), Some(t), Debit, Available, WalletPayment, o.total)];
    if c.NotPayable? then Refused(BadRequest)
    else Posting(c.order, debit + HoldPayment(id, t, seller, o.total, book + debit))
  }

  function PayWithBalance(db: Db, id: OrderId, user: UserId, stocked: bool): Response {
    if id !in db.orders then Response(db, Err(NotFound))
    else
      var o := db.orders[id];
      if o.buyer != user then Response(db, Err(Forbidden))
      else if !IsPayable(o.status) then Response(db, Err(BadRequest))
      else if o.total == 0 then Response(db, Err(BadRequest))
      else if o.seller.None? then Response(db, Err(BadRequest))
      else if Spendable(db.ledger, user) < o.total then Response(db, Err(BadRequest))
      else
        var p := WalletPosting(id, o, o.seller.value, BookOf(db.ledger, id));
        if !p.Posting? then Response(db, Err(BadRequest))
        else FollowUp(WithOrder(db, id, p.order, p.entries), id, true, stocked)
  }

  // ----- order life -----

  function CancelOrder(db: Db, id: OrderId, buyer: UserId): Response {
    if id !in db.orders then Response(db, Err(NotFound)) else Save(db, id, Cancel(db.orders[id], buyer))
  }

  function ExpireOrder(db: Db, id: OrderId, now: int): Response {
    if id !in db.orders then Response(db, Ok) else Save(db, id, Done(Expire(db.orders[id], now)))
  }

  function AddDeliveryEvidence(db: Db, id: OrderId, actor: UserId, admin: bool): Response {
    if id !in db.orders then Response(db, Err(NotFound)) else Save(db, id, AddEvidence(db.orders[id], actor, admin))
  }

  function MarkOrderDelivered(db: Db, id: OrderId, actor: UserId, admin: bool): Response {
    if id !in db.orders then Response(db, Err(NotFound)) else Save(db, id, MarkDelivered(db.orders[id], actor, admin))
  }

  function ConfirmOrderReceipt(db: Db, id: OrderId, buyer: UserId): Response {
    if id !in db.orders then Response(db, Err(NotFound)) else Save(db, id, ConfirmReceipt(db.orders[id], buyer))
  }

  function AutoCompleteOrder(db: Db, id: OrderId): Response {
    if id !in db.orders then Response(db, Ok) else Save(db, id, Done(AutoComplete(db.orders[id])))
  }

  function OpenOrderDispute(db: Db, id: OrderId, buyer: UserId): Response {
    if id !in db.orders then Response(db, Err(NotFound)) else Save(db, id, OpenDispute(db.orders[id], buyer))
  }

  // ----- settlement -----

  function ReleaseOrder(db: Db, id: OrderId, ignoreDispute: bool, providerOk: bool): Response {
    if id !in db.orders then Response(db, Err(NotFound))
    else
      var o := db.orders[id];
      Post(db, id, Release(id, o, BookOf(db.ledger, id), ignoreDispute, db.settings, SellerRow(db, o),
        PartnerActive(db, o), providerOk))
  }

  function BlockUser(users: map<UserId, User>, u: UserId): map<UserId, User> {
    if u in users then users[u := users[u].(payoutBlocked := true)] else users
  }

  function RefundWhole(db: Db, id: OrderId, actor: Option<UserId>, providerOk: bool): Response {
    if id !in db.orders then Response(db, Err(NotFound))
    else
      var o := db.orders[id];
      var (p, block) := RefundOrder(id, o, BookOf(db.ledger, id), actor, providerOk);
      var r := Post(db, id, p);
      if block && o.seller.Some? then Response(r.db.(users := BlockUser(r.db.users, o.seller.value)), r.reply) else r
  }

  function RefundPart(db: Db, id: OrderId, amount: int, providerOk: bool): Response {
    if id !in db.orders then Response(db, Err(NotFound))
    else Post(db, id, RefundPartially(id, db.orders[id], BookOf(db.ledger, id), amount, providerOk))
  }

  // ----- disputes -----

  datatype Resolution = RefundBuyer | ReleaseSeller | SplitBetween(amount: int)

  /** The first transaction of a release or partial resolution: the order counts as completed. */
  function CompleteDisputed(db: Db, id: OrderId): Db
    requires id in db.orders
  {
    if db.orders[id].status == Completed then db
    else WithOrder(db, id, Transition(db.orders[id], Note, Completed), [])
  }

  function Finalize(db: Db, id: OrderId, d: DisputeStatus): Response
    requires id in db.orders
  {
    Response(WithOrder(db, id, db.orders[id].(dispute := Some(d)), []), Ok)
  }

  /** Each transaction commits on its own: a later failure does not undo an earlier one. */
  function ResolveDispute(db: Db, id: OrderId, admin: UserId, how: Resolution, refundOk: bool, cashOutOk: bool)
    : (r: Response)
  {
    if id !in db.orders || db.orders[id].dispute.None? then Response(db, Err(NotFound))
    else
      var o := db.orders[id];
      if !DisputeIsOpen(o) then Response(db, Err(BadRequest))
      else match how
        case RefundBuyer =>
          if o.status == Orders.Refunded then Response(db, Err(BadRequest))
          else
            var r := RefundWhole(db, id, Some(admin), refundOk);
            if r.reply.Err? then r else Finalize(r.db, id, Resolved)
        case ReleaseSeller =>
          if o.status == Cancelled || o.status == Orders.Refunded then Response(db, Err(BadRequest))
          else
            var r := ReleaseOrder(CompleteDisputed(db, id), id, true, cashOutOk);
            if r.reply.Err? then r else Finalize(r.db, id, Rejected)
        case SplitBetween(amount) =>
          if amount <= 0 then Response(db, Err(BadRequest))
          else if o.status == Cancelled || o.status == Orders.Refunded then Response(db, Err(BadRequest))
          else
            var r := RefundPart(CompleteDisputed(db, id), id, amount, refundOk);
            if r.reply.Err? then r
            else
              var q := ReleaseOrder(r.db, id, true, cashOutOk);
              if q.reply.Err? then q else Finalize(q.db, id, Resolved)
  }

  // ----- money leaving, and administration -----

  const MIN_ACCOUNT_AGE_MS := 5 * 24 * 60 * 60 * 1000
  const INSTANT_FEE_CENTS := 100

  function PayoutEntry(user: UserId, source: Source, amount: nat): Entry {
    Entry(user, None, None, Debit, Available, source, amount)
  }

  function UserPayout(db: Db, user: UserId, amount: nat, instant: bool, accountAgeMs: int, providerOk: bool): Response {
    var fee := if instant then INSTANT_FEE_CENTS else 0;
    if user !in db.users then Response(db, Err(BadRequest))
    else if db.users[user].payoutBlocked then Response(db, Err(Forbidden))
    else if accountAgeMs < MIN_ACCOUNT_AGE_MS then Response(db, Err(Forbidden))
    else if amount + fee > Spendable(db.ledger, user) then Response(db, Err(BadRequest))
    else if !providerOk then
      Response(db.(payouts := db.payouts + [PayoutRow(ToUser(user), false, amount)]), Err(ProviderFailed))
    else
      Response(db.(
        payouts := db.payouts + [PayoutRow(ToUser(user), true, amount)],
        ledger := db.ledger + ([PayoutEntry(user, Payout, amount)]
          + if fee > 0 then [PayoutEntry(user, Fee, fee)] else [])), Ok)
  }

  /** What has been sent to the platform's own account. */
  function PlatformSent(ps: seq<PayoutRow>): nat {
    if ps == [] then 0
    else
      var p := ps[|ps| - 1];
      PlatformSent(ps[..|ps| - 1]) + (if p.scope.ToPlatform? && p.sent then p.amount else 0)
  }

  function PlatformPayout(db: Db, amount: nat, providerOk: bool): Response {
    var available := Max(Sum(db.ledger, AvailableFeeWeight) - PlatformSent(db.payouts), 0);
    if amount > available then Response(db, Err(BadRequest))
    else if !providerOk then
      Response(db.(payouts := db.payouts + [PayoutRow(ToPlatform, false, amount)]), Err(ProviderFailed))
    else Response(db.(payouts := db.payouts + [PayoutRow(ToPlatform, true, amount)]), Ok)
  }

  function AdjustBalance(db: Db, user: UserId, amount: int): Response {
    if user !in db.users then Response(db, Err(NotFound))
    else if amount == 0 then Response(db, Err(BadRequest))
    else
      var row := if amount > 0
        then Entry(user, None, None, Credit, Available, ManualAdjustment, amount)
        else Entry(user, None, None, Debit, Available, ManualAdjustment, -amount);
      Response(db.(ledger := db.ledger + [row]), Ok)
  }

  // ----- runs -----

  /** One service call, with what it is told from outside: clock, stock and provider. */
  datatype Step =
    | DoCreateOrder(id: OrderId, buyer: UserId, checkout: Checkout, expiresAt: int)
    | DoTopUp(id: OrderId, user: UserId, cents: nat, expiresAt: int, providerOk: bool)
    | DoCreatePixCharge(id: OrderId, user: UserId, providerOk: bool)
    | DoRegisterWebhook(event: EventId, txid: Option<Txid>, paid: bool)
    | DoProcessWebhook(event: EventId, stocked: bool)
    | DoPayWithBalance(id: OrderId, user: UserId, stocked: bool)
    | DoCancelOrder(id: OrderId, user: UserId)
    | DoExpireOrder(id: OrderId, now: int)
    | DoAddDeliveryEvidence(id: OrderId, user: UserId, admin: bool)
    | DoMarkOrderDelivered(id: OrderId, user: UserId, admin: bool)
    | DoConfirmOrderReceipt(id: OrderId, user: UserId)
    | DoAutoCompleteOrder(id: OrderId)
    | DoOpenOrderDispute(id: OrderId, user: UserId)
    | DoReleaseOrder(id: OrderId, providerOk: bool)
    | DoRefundOrder(id: OrderId, actor: Option<UserId>, providerOk: bool)
    | DoResolveDispute(id: OrderId, user: UserId, how: Resolution, refundOk: bool, cashOutOk: bool)
    | DoUserPayout(user: UserId, cents: nat, instant: bool, accountAgeMs: int, providerOk: bool)
    | DoPlatformPayout(cents: nat, providerOk: bool)
    | DoAdjustBalance(user: UserId, amount: int)
    | DoSetUser(user: UserId, row: User)
    | DoSetPartner(partner: PartnerId, active: bool)
    | DoSetSettings(settings: Settings)

  /** The calls of the order service: each writes one order row and no money. */
  predicate IsOrderCall(s: Step) {
    || s.DoCancelOrder? || s.DoExpireOrder? || s.DoAddDeliveryEvidence? || s.DoMarkOrderDelivered?
    || s.DoConfirmOrderReceipt? || s.DoAutoCompleteOrder? || s.DoOpenOrderDispute?
  }

  function Next(db: Db, s: Step): Response {
    match s
    case DoCreateOrder(id, buyer, checkout, expiresAt) => CreateOrder(db, id, buyer, checkout, expiresAt)
    case DoTopUp(id, user, cents, expiresAt, providerOk) => TopUp(db, id, user, cents, expiresAt, providerOk)
    case DoCreatePixCharge(id, user, providerOk) => CreatePixCharge(db, id, user, providerOk)
    case DoRegisterWebhook(event, txid, paid) => RegisterWebhook(db, event, txid, paid)
    case DoProcessWebhook(event, stocked) => ProcessWebhook(db, event, stocked)
    case DoPayWithBalance(id, user, stocked) => PayWithBalance(db, id, user, stocked)
    case DoCancelOrder(id, user) => CancelOrder(db, id, user)
    case DoExpireOrder(id, now) => ExpireOrder(db, id, now)
    case DoAddDeliveryEvidence(id, user, admin) => AddDeliveryEvidence(db, id, user, admin)
    case DoMarkOrderDelivered(id, user, admin) => MarkOrderDelivered(db, id, user, admin)
    case DoConfirmOrderReceipt(id, user) => ConfirmOrderReceipt(db, id, user)
    case DoAutoCompleteOrder(id) => AutoCompleteOrder(db, id)
    case DoOpenOrderDispute(id, user) => OpenOrderDispute(db, id, user)
    case DoReleaseOrder(id, providerOk) => ReleaseOrder(db, id, false, providerOk)
    case DoRefundOrder(id, actor, providerOk) => RefundWhole(db, id, actor, providerOk)
    case DoResolveDispute(id, user, how, refundOk, cashOutOk) => ResolveDispute(db, id, user, how, refundOk, cashOutOk)
    case DoUserPayout(user, cents, instant, age, providerOk) => UserPayout(db, user, cents, instant, age, providerOk)
    case DoPlatformPayout(cents, providerOk) => PlatformPayout(db, cents, providerOk)
    case DoAdjustBalance(user, amount) => AdjustBalance(db, user, amount)
    case DoSetUser(user, row) => Response(db.(users := db.users[user := row]), Ok)
    case DoSetPartner(partner, active) => Response(db.(partners := db.partners[partner := active]), Ok)
    case DoSetSettings(settings) => Response(db.(settings := settings), Ok)
  }

  /** A run: any finite list of service calls, each ending before the next begins. */
  function Run(db: Db, steps: seq<Step>): Db {
    if steps == [] then db else Next(Run(db, steps[..|steps| - 1]), steps[|steps| - 1]).db
  }
}
