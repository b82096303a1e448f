/** An order row with the rows that hang off it, and the order state machine. */
module Orders {
  import opened Wrappers
  import opened Ledger

  type PartnerId = nat

  datatype Status =
    | Created | AwaitingPayment | Paid | InDelivery | Delivered
    | Completed | Cancelled | Disputed | Refunded

  datatype EventKind =
    | CreatedEvent | AwaitingPaymentEvent | PaidEvent | InDeliveryEvent | DeliveredEvent
    | CompletedEvent | CancelledEvent | RefundedEvent | DisputedEvent | Note

  /** A log row; a plain note carries no status pair. */
  datatype Event = Event(kind: EventKind, from: Option<Status>, to: Option<Status>)

  datatype DisputeStatus = Open | Review | Resolved | Rejected

  datatype DeliveryType = Auto | Manual

  datatype Provider = Efi | Wallet

  datatype PaymentStatus = Pending | Confirmed | Expired | PaymentRefunded | PaymentFailed

  /** `paid` records that paidAt was set: the payment has been confirmed at some time. */
  datatype Payment = Payment(provider: Provider, status: PaymentStatus, amount: nat, paid: bool)

  datatype Attribution = Attribution(
    partner: Option<PartnerId>,
    originalTotal: int,
    discount: int,
    feeBase: int,
    feeFinal: int,
    commission: int)

  datatype CommissionKind = Earned | Reversal

  datatype Commission = Commission(kind: CommissionKind, partner: PartnerId, amount: int)

  datatype Order = Order(
    buyer: UserId,
    seller: Option<UserId>,
    status: Status,
    total: nat,
    delivery: Option<DeliveryType>,
    expiresAt: Option<int>,
    attribution: Option<Attribution>,
    payments: seq<Payment>,
    dispute: Option<DisputeStatus>,
    events: seq<Event>,
    commissions: seq<Commission>)

  datatype Attempt = Failed(error: Error) | Done(order: Order)

  // ----- writing the status together with its log row -----

  function Transition(o: Order, kind: EventKind, to: Status): Order {
    o.(status := to, events := o.events + [Event(kind, Some(o.status), Some(to))])
  }

  function Annotate(o: Order): Order {
    o.(events := o.events + [Event(Note, Some(o.status), Some(o.status))])
  }

  predicate IsPayable(s: Status) { s == Created || s == AwaitingPayment }

  predicate IsResolved(d: DisputeStatus) { d == Resolved || d == Rejected }

  predicate DisputeIsOpen(o: Order) { o.dispute.Some? && !IsResolved(o.dispute.value) }

  // ----- the transactions of the order service -----

  function Cancel(o: Order, buyer: UserId): Attempt {
    if o.buyer != buyer then Failed(Forbidden)
    else if !IsPayable(o.status) then Failed(BadRequest)
    else Done(Transition(o, CancelledEvent, Cancelled))
  }

  function ConfirmReceipt(o: Order, buyer: UserId): Attempt {
    if o.buyer != buyer then Failed(Forbidden)
    else if o.status != Delivered then Failed(BadRequest)
    else Done(Transition(o, CompletedEvent, Completed))
  }

  function OpenDispute(o: Order, buyer: UserId): Attempt {
    if o.buyer != buyer then Failed(Forbidden)
    else if o.status != Delivered && o.status != Completed then Failed(BadRequest)
    else if o.dispute.Some? then Failed(BadRequest)
    else Done(Transition(o, DisputedEvent, Disputed).(dispute := Some(Open)))
  }

  function AddEvidence(o: Order, actor: UserId, admin: bool): Attempt {
    if o.status != InDelivery then Failed(BadRequest)
    else if o.delivery != Some(Manual) then Failed(BadRequest)
    else if !admin && o.seller != Some(actor) then Failed(Forbidden)
    else Done(o.(events := o.events + [Event(Note, None, None)]))
  }

  function MarkDelivered(o: Order, actor: UserId, admin: bool): Attempt {
    if o.status != InDelivery then Failed(BadRequest)
    else if o.delivery != Some(Manual) then Failed(BadRequest)
    else if !admin && o.seller != Some(actor) then Failed(Forbidden)
    else Done(Transition(o, DeliveredEvent, Delivered))
  }

  datatype Confirmation = NotPayable | Confirmation(order: Order, applied: bool)

  function ApplyPayment(o: Order): Confirmation {
    if o.status == Paid || o.status == InDelivery then Confirmation(o, false)
    else if !IsPayable(o.status) then NotPayable
    else Confirmation(Transition(Transition(o, PaidEvent, Paid), InDeliveryEvent, InDelivery), true)
  }

  function Expire(o: Order, now: int): Order {
    if o.expiresAt.None? || !IsPayable(o.status) || o.expiresAt.value > now then o
    else Transition(o, CancelledEvent, Cancelled)
  }

  function AutoComplete(o: Order): Order {
    if o.status != Delivered || o.dispute.Some? then o
    else Transition(o, CompletedEvent, Completed)
  }

  /** Runs when every item is delivered automatically; an order without items counts. */
  function AutoDeliver(o: Order): Order {
    if o.delivery == Some(Manual) || o.status != InDelivery then o
    else Transition(o, DeliveredEvent, Delivered)
  }

  /** After a first confirmation: units are reserved for automatic items, and that can fail. */
  function AfterPayment(o: Order, stocked: bool): Attempt {
    if o.delivery == Some(Auto) && !stocked then Failed(Conflict) else Done(AutoDeliver(o))
  }

  // ----- payments -----

  /** What has ever been confirmed on these payments. */
  function PaidTotal(ps: seq<Payment>): nat {
    if ps == [] then 0
    else PaidTotal(ps[..|ps| - 1]) + (if ps[|ps| - 1].paid then ps[|ps| - 1].amount else 0)
  }

  lemma PaidTotalAppend(ps: seq<Payment>, p: Payment)
    ensures PaidTotal(ps + [p]) == PaidTotal(ps) + (if p.paid then p.amount else 0)
  {
    assert (ps + [p])[..|ps|] == ps;
  }

  lemma {:induction false} PaidTotalUpdate(ps: seq<Payment>, n: nat, p: Payment)
    requires n < |ps|
    ensures PaidTotal(ps[n := p])
         == PaidTotal(ps) - (if ps[n].paid then ps[n].amount else 0) + (if p.paid then p.amount else 0)
  {
    var last := |ps| - 1;
    if n == last {
      assert ps[n := p][..last] == ps[..last];
    } else {
      assert ps[n := p][..last] == ps[..last][n := p];
      PaidTotalUpdate(ps[..last], n, p);
    }
  }

  function ExpirePending(ps: seq<Payment>): (r: seq<Payment>)
    ensures |r| == |ps|
    ensures forall i :: 0 <= i < |ps| ==> r[i] == if ps[i].status.Pending? then ps[i].(status := Expired) else ps[i]
  {
    if ps == [] then []
    else
      var p := ps[|ps| - 1];
      ExpirePending(ps[..|ps| - 1]) + [if p.status.Pending? then p.(status := Expired) else p]
  }

  lemma {:induction false} PaidTotalExpire(ps: seq<Payment>)
    ensures PaidTotal(ExpirePending(ps)) == PaidTotal(ps)
  {
    if ps != [] {
      var p := ps[|ps| - 1];
      PaidTotalExpire(ps[..|ps| - 1]);
      PaidTotalAppend(ExpirePending(ps[..|ps| - 1]), if p.status.Pending? then p.(status := Expired) else p);
    }
  }

  predicate HasPending(ps: seq<Payment>) { exists p :: p in ps && p.status.Pending? }

  /** Confirming sets the status and paidAt, and leaves a confirmed payment alone. */
  function ConfirmPayment(p: Payment): Payment {
    if p.status.Confirmed? then p else p.(status := Confirmed, paid := true)
  }

  // ----- the event log read back -----

  datatype Trace = Broken | At(status: Option<Status>)

  /** Follow the log: each status pair must start where the previous one ended. */
  function Replay(log: seq<Event>): Trace {
    if log == [] then At(None)
    else
      var before := Replay(log[..|log| - 1]);
      var e := log[|log| - 1];
      if before.Broken? then Broken
      else if e.to.None? then before
      else if e.from == before.status then At(e.to)
      else Broken
  }

  /** How many log rows record an actual change of status. */
  function Changes(log: seq<Event>): nat {
    if log == [] then 0
    else
      var e := log[|log| - 1];
      Changes(log[..|log| - 1]) + (if e.from.Some? && e.to.Some? && e.from != e.to then 1 else 0)
  }

  lemma LogAppend(log: seq<Event>, e: Event)
    ensures Replay(log + [e]) ==
              if Replay(log).Broken? then Broken
              else if e.to.None? then Replay(log)
              else if e.from == Replay(log).status then At(e.to)
              else Broken
    ensures Changes(log + [e]) == Changes(log) + (if e.from.Some? && e.to.Some? && e.from != e.to then 1 else 0)
  {
    assert (log + [e])[..|log|] == log;
  }

  /** How many status changes an order can still make. */
  function Measure(s: Status, disputed: bool): nat {
    match s
    case Created => 8
    case AwaitingPayment => 7
    case Paid => 6
    case InDelivery => 5
    case Delivered => 4
    case Completed => if disputed then 1 else 3
    case Disputed => 2
    case Cancelled => 1
    case Refunded => 0
  }

  function MeasureOf(o: Order): nat { Measure(o.status, o.dispute.Some?) }

  /** The log of an order with a seller: replaying it gives the status, and it never holds too many changes. */
  predicate LogInv(o: Order) {
    && o.events != [] && o.events[0] == Event(CreatedEvent, None, Some(Created))
    && Replay(o.events) == At(Some(o.status))
    && Changes(o.events) + MeasureOf(o) <= 8
  }

  /** What replaying means: a status row starts from the status that the row before it ended with. */
  lemma {:induction false} ReplayChains(log: seq<Event>, i: nat, j: nat)
    requires Replay(log).At? && i < j < |log|
    requires log[i].to.Some? && log[j].to.Some?
    requires forall k :: i < k < j ==> log[k].to.None?
    ensures log[j].from == log[i].to
  {
    var init := log[..|log| - 1];
    if j < |init| {
      ReplayChains(init, i, j);
    } else {
      ReplayLast(init, i);
    }
  }

  lemma {:induction false} ReplayLast(log: seq<Event>, i: nat)
    requires Replay(log).At? && i < |log| && log[i].to.Some?
    requires forall k :: i < k < |log| ==> log[k].to.None?
    ensures Replay(log).status == log[i].to
  {
    if i < |log| - 1 {
      ReplayLast(log[..|log| - 1], i);
    }
  }

  lemma TransitionKeepsLog(o: Order, kind: EventKind, to: Status, dispute: Option<DisputeStatus>)
    requires LogInv(o)
    requires o.status != to ==> Measure(to, dispute.Some?) < MeasureOf(o)
    requires o.status == to ==> Measure(to, dispute.Some?) <= MeasureOf(o)
    ensures LogInv(Transition(o, kind, to).(dispute := dispute))
  {
    LogAppend(o.events, Event(kind, Some(o.status), Some(to)));
  }
}
