/** The ledger moves: holding, releasing, refunding and charging back the money of an order. */
module Settlement {
  import opened Wrappers
  import opened Ledger
  import opened Orders
  import A = Attribution

  const REFUND_FEE_THRESHOLD_CENTS := 2500
  const REFUND_FEE_CENTS := 30

  datatype User = User(hasPixKey: bool, payoutBlocked: bool)

  datatype Settings = Settings(splitEnabled: bool, platformFeeBps: int)

  /** What a settlement transaction writes: the order row and the rows it appends to the ledger. */
  datatype Posting = Refused(error: Error) | NoChange | Posting(order: Order, entries: seq<Entry>)

  // ----- holding a confirmed payment -----

  function HeldEntry(id: OrderId, t: Txid, seller: UserId, amount: nat): Entry {
    Entry(seller, Some(id), Some(t), Credit, Held, OrderPayment, amount)
  }

  /** Idempotent per payment: a held credit already there is kept. */
  function HoldPayment(id: OrderId, t: Txid, seller: UserId, amount: nat, book: seq<Entry>): seq<Entry> {
    if HasHeldCredit(book, t) then [] else [HeldEntry(id, t, seller, amount)]
  }

  // ----- release -----

  /** What the read phase of a release decides; a plan keeps the order row it read. */
  datatype ReleaseRead =
    | ReadRefused(error: Error)
    | AlreadyReleased
    | Plan(order: Order, held: nat, owner: UserId)

  function LatestPayment(id: OrderId, o: Order): Txid
    requires o.payments != []
  {
    Txid(id, |o.payments| - 1)
  }

  function ReadRelease(o: Order, book: seq<Entry>, ignoreDispute: bool): ReleaseRead {
    if o.status != Completed then ReadRefused(BadRequest)
    else if !ignoreDispute && DisputeIsOpen(o) then ReadRefused(BadRequest)
    else if o.payments == [] then ReadRefused(BadRequest)
    else if Released(book) then AlreadyReleased
    else
      var credit := FirstHeldCredit(book);
      var balance := Sum(book, EscrowWeight);
      if credit.None? then ReadRefused(BadRequest)
      else if balance <= 0 then ReadRefused(BadRequest)
      else Plan(o, balance, credit.value.user)
  }

  function FeeFor(p: ReleaseRead, s: Settings): (feeFinal: int)
    requires p.Plan?
  {
    var fallback := Min(Max(A.RoundBps(p.held * s.platformFeeBps), 0), p.held);
    if p.order.attribution.Some? then p.order.attribution.value.feeFinal else fallback
  }

  function FeeAmount(p: ReleaseRead, s: Settings): (fee: nat)
    requires p.Plan?
    ensures fee <= p.held
  {
    A.FeeTaken(FeeFor(p, s), p.held)
  }

  function PayoutAmount(p: ReleaseRead, s: Settings): (payout: nat)
    requires p.Plan?
    ensures FeeAmount(p, s) + payout == p.held
  {
    A.SellerShare(FeeFor(p, s), p.held)
  }

  /** In cash-out mode the seller needs an unblocked Pix key, and the provider must take the transfer. */
  function CashOut(s: Settings, seller: Option<User>, payout: nat, providerOk: bool): Reply {
    if s.splitEnabled then Ok
    else if seller.None? || !seller.value.hasPixKey then Err(BadRequest)
    else if seller.value.payoutBlocked then Err(Forbidden)
    else if payout > 0 && !providerOk then Err(ProviderFailed)
    else Ok
  }

  function ReleaseRow(id: OrderId, p: ReleaseRead, kind: Kind, state: State, source: Source, amount: nat): Entry
    requires p.Plan? && p.order.payments != []
  {
    Entry(p.owner, Some(id), Some(LatestPayment(id, p.order)), kind, state, source, amount)
  }

  /** Everything held becomes available. */
  function MoveRows(id: OrderId, p: ReleaseRead): seq<Entry>
    requires p.Plan? && p.order.payments != []
  {
    [ReleaseRow(id, p, Debit, Held, OrderPayment, p.held)]
    + [ReleaseRow(id, p, Credit, Available, OrderPayment, p.held)]
  }

  /** A debit of the released money, left out when it is zero. */
  function DebitRows(id: OrderId, p: ReleaseRead, source: Source, amount: nat): seq<Entry>
    requires p.Plan? && p.order.payments != []
  {
    if amount > 0 then [ReleaseRow(id, p, Debit, Available, source, amount)] else []
  }

  /** What leaves the ledger when the seller is paid by Pix at once. */
  function PaidOut(p: ReleaseRead, s: Settings): nat
    requires p.Plan?
  {
    if s.splitEnabled then 0 else PayoutAmount(p, s)
  }

  function ReleaseEntries(id: OrderId, p: ReleaseRead, s: Settings): seq<Entry>
    requires p.Plan? && p.order.payments != []
  {
    MoveRows(id, p) + DebitRows(id, p, Fee, FeeAmount(p, s)) + DebitRows(id, p, Payout, PaidOut(p, s))
  }

  predicate HasCommission(cs: seq<Commission>, kind: CommissionKind, partner: PartnerId) {
    exists c :: c in cs && c.kind == kind && c.partner == partner
  }

  predicate OwesCommission(o: Order) {
    o.attribution.Some? && o.attribution.value.partner.Some? && o.attribution.value.commission > 0
  }

  function EarnCommission(o: Order, partnerActive: bool): Order {
    if OwesCommission(o) && partnerActive && !HasCommission(o.commissions, Earned, o.attribution.value.partner.value)
    then o.(commissions := o.commissions
      + [Commission(Earned, o.attribution.value.partner.value, o.attribution.value.commission)])
    else o
  }

  function ReverseCommission(o: Order): Order {
    if OwesCommission(o)
      && HasCommission(o.commissions, Earned, o.attribution.value.partner.value)
      && !HasCommission(o.commissions, Reversal, o.attribution.value.partner.value)
    then o.(commissions := o.commissions
      + [Commission(Reversal, o.attribution.value.partner.value, -o.attribution.value.commission)])
    else o
  }

  /** The commit phase looks for a release again, and trusts the plan for everything else. */
  function CommitRelease(id: OrderId, now: Order, book: seq<Entry>, p: ReleaseRead, s: Settings, partnerActive: bool)
    : Posting
    requires p.Plan? && p.order.payments != []
  {
    if Released(book) then NoChange
    else
      var noted := now.(events := now.events + [Event(Note, Some(Completed), Some(Completed))]);
      Posting(EarnCommission(noted, partnerActive), ReleaseEntries(id, p, s))
  }

  /** A whole release call that nothing interrupts. */
  function Release(id: OrderId, o: Order, book: seq<Entry>, ignoreDispute: bool, s: Settings, seller: Option<User>,
      partnerActive: bool, providerOk: bool): Posting
  {
    var p := ReadRelease(o, book, ignoreDispute);
    match p
    case ReadRefused(e) => Refused(e)
    case AlreadyReleased => NoChange
    case Plan(_, _, _) =>
      var sent := CashOut(s, seller, PayoutAmount(p, s), providerOk);
      if sent.Err? then Refused(sent.error) else CommitRelease(id, o, book, p, s, partnerActive)
  }

  // ----- refunds -----

  /** Small refunds carry a fee. */
  function RefundAmount(amount: nat): nat {
    if amount < REFUND_FEE_THRESHOLD_CENTS then Max(amount - REFUND_FEE_CENTS, 0) else amount
  }

  function LedgerOwner(o: Order): UserId { if o.seller.Some? then o.seller.value else o.buyer }

  function MarkRefunded(o: Order): Order
    requires o.payments != []
  {
    var last := |o.payments| - 1;
    o.(payments := o.payments[last := o.payments[last].(status := PaymentRefunded)])
  }

  function RefundRow(id: OrderId, o: Order, user: UserId, kind: Kind, state: State, amount: nat): Entry
    requires o.payments != []
  {
    Entry(user, Some(id), Some(LatestPayment(id, o)), kind, state, Refund, amount)
  }

  /** After a release the money is taken back from the available balance. */
  function Chargeback(id: OrderId, o: Order): Posting
    requires o.payments != []
  {
    var amount := o.payments[|o.payments| - 1].amount;
    Posting(Transition(MarkRefunded(o), RefundedEvent, Orders.Refunded),
      [RefundRow(id, o, LedgerOwner(o), Debit, Available, amount)]
      + [RefundRow(id, o, LedgerOwner(o), Credit, Reversed, amount)])
  }

  function FullRefund(id: OrderId, o: Order): Posting
    requires o.payments != []
  {
    var payment := o.payments[|o.payments| - 1];
    Posting(ReverseCommission(Transition(MarkRefunded(o), RefundedEvent, Orders.Refunded)),
      [RefundRow(id, o, LedgerOwner(o), Debit, Held, payment.amount)]
      + (if payment.provider.Wallet?
         then [RefundRow(id, o, o.buyer, Credit, Available, RefundAmount(payment.amount))] else [])
      + [RefundRow(id, o, LedgerOwner(o), Credit, Reversed, payment.amount)])
  }

  /** The second result says whether the seller's payouts are blocked as well. */
  function RefundOrder(id: OrderId, o: Order, book: seq<Entry>, actor: Option<UserId>, providerOk: bool): (Posting, bool) {
    if actor == Some(o.buyer) then (Refused(Forbidden), false)
    else if o.payments == [] then (Refused(BadRequest), false)
    else
      var payment := o.payments[|o.payments| - 1];
      if Released(book) then (Chargeback(id, o), true)
      else if payment.status.PaymentRefunded? then (NoChange, false)
      else if !payment.provider.Wallet? && !providerOk then (Refused(ProviderFailed), false)
      else (FullRefund(id, o), false)
  }

  function RefundPartially(id: OrderId, o: Order, book: seq<Entry>, amount: int, providerOk: bool): Posting {
    if amount <= 0 then Refused(BadRequest)
    else if o.payments == [] then Refused(BadRequest)
    else if amount >= o.payments[|o.payments| - 1].amount then Refused(BadRequest)
    else if Released(book) then Refused(BadRequest)
    else if amount > Sum(book, EscrowWeight) then Refused(BadRequest)
    else if !providerOk then Refused(ProviderFailed)
    else
      Posting(ReverseCommission(Annotate(o)),
        [RefundRow(id, o, LedgerOwner(o), Debit, Held, amount)]
        + [RefundRow(id, o, LedgerOwner(o), Credit, Reversed, amount)])
  }
}
