/** The append-only ledger: its rows, and the sums that are taken over it. */
module Ledger {
  import opened Wrappers

  type UserId = nat
  type OrderId = nat

  /** A payment is named by the order it was issued for and its position among that order's payments. */
  datatype Txid = Txid(order: OrderId, n: nat)

  datatype Kind = Credit | Debit
  datatype State = Held | Available | Reversed
  datatype Source = OrderPayment | Refund | Fee | Payout | WalletTopup | WalletPayment | ManualAdjustment

  datatype Entry = Entry(
    user: UserId,
    order: Option<OrderId>,
    payment: Option<Txid>,
    kind: Kind,
    state: State,
    source: Source,
    amount: nat)

  function Signed(e: Entry): int {
    var amount: int := e.amount;
    if e.kind.Debit? then -amount else amount
  }

  /** The sum of a weight over a list of rows, oldest row first. */
  function Sum(l: seq<Entry>, w: Entry -> int): int {
    if l == [] then 0 else Sum(l[..|l| - 1], w) + w(l[|l| - 1])
  }

  lemma SumAppend(l: seq<Entry>, e: Entry, w: Entry -> int)
    ensures Sum(l + [e], w) == Sum(l, w) + w(e)
  {
    assert (l + [e])[..|l|] == l;
  }

  lemma {:induction false} SumConcat(a: seq<Entry>, b: seq<Entry>, w: Entry -> int)
    ensures Sum(a + b, w) == Sum(a, w) + Sum(b, w)
  {
    if b == [] {
      assert a + b == a;
    } else {
      var c, e := b[..|b| - 1], b[|b| - 1];
      assert a + b == (a + c) + [e];
      SumAppend(a + c, e, w);
      SumConcat(a, c, w);
    }
  }

  /** Weights that agree on every row give equal sums. */
  lemma {:induction false} SumEqual(l: seq<Entry>, v: Entry -> int, w: Entry -> int)
    requires forall e :: e in l ==> v(e) == w(e)
    ensures Sum(l, v) == Sum(l, w)
  {
    if l != [] {
      SumEqual(l[..|l| - 1], v, w);
    }
  }

  /** A weight that splits into two splits its sum. */
  lemma {:induction false} SumSplit(l: seq<Entry>, u: Entry -> int, v: Entry -> int, w: Entry -> int)
    requires forall e :: e in l ==> u(e) == v(e) + w(e)
    ensures Sum(l, u) == Sum(l, v) + Sum(l, w)
  {
    if l != [] {
      SumSplit(l[..|l| - 1], u, v, w);
    }
  }

  lemma {:induction false} SumZero(l: seq<Entry>, w: Entry -> int)
    requires forall e :: e in l ==> w(e) == 0
    ensures Sum(l, w) == 0
  {
    if l != [] {
      SumZero(l[..|l| - 1], w);
    }
  }

  // ----- the rows of one order -----

  /** The rows booked to an order, in ledger order. */
  function BookOf(l: seq<Entry>, o: OrderId): (book: seq<Entry>)
    ensures forall e :: e in book ==> e in l && e.order == Some(o)
  {
    if l == [] then []
    else
      var rest := BookOf(l[..|l| - 1], o);
      if l[|l| - 1].order == Some(o) then rest + [l[|l| - 1]] else rest
  }

  lemma {:induction false} BookOfConcat(a: seq<Entry>, b: seq<Entry>, o: OrderId)
    ensures BookOf(a + b, o) == BookOf(a, o) + BookOf(b, o)
  {
    if b == [] {
      assert a + b == a;
      assert BookOf(a, o) + BookOf(b, o) == BookOf(a, o);
    } else {
      var c, e := b[..|b| - 1], b[|b| - 1];
      assert (a + b)[..|a + b| - 1] == a + c;
      BookOfConcat(a, c, o);
      assert BookOf(a, o) + (BookOf(c, o) + [e]) == (BookOf(a, o) + BookOf(c, o)) + [e];
    }
  }

  lemma {:induction false} BookOfOwn(l: seq<Entry>, o: OrderId)
    requires forall e :: e in l ==> e.order == Some(o)
    ensures BookOf(l, o) == l
  {
    if l != [] {
      BookOfOwn(l[..|l| - 1], o);
    }
  }

  lemma {:induction false} BookOfOther(l: seq<Entry>, o: OrderId)
    requires forall e :: e in l ==> e.order != Some(o)
    ensures BookOf(l, o) == []
  {
    if l != [] {
      BookOfOther(l[..|l| - 1], o);
    }
  }

  /** A weight that ignores the rows of other orders has the same sum over the ledger and the book. */
  lemma {:induction false} SumOverBook(l: seq<Entry>, o: OrderId, w: Entry -> int)
    requires forall e :: e in l && e.order != Some(o) ==> w(e) == 0
    ensures Sum(l, w) == Sum(BookOf(l, o), w)
  {
    if l != [] {
      var c, e := l[..|l| - 1], l[|l| - 1];
      SumOverBook(c, o, w);
      if e.order == Some(o) {
        SumAppend(BookOf(c, o), e, w);
      }
    }
  }

  // ----- what is summed -----

  function HeldWeight(e: Entry): int { if e.state.Held? then Signed(e) else 0 }

  /** The rows a release adds up: held rows of the payment and of refunds. */
  function EscrowWeight(e: Entry): int {
    if e.state.Held? && (e.source.OrderPayment? || e.source.Refund?) then Signed(e) else 0
  }

  function HeldCreditWeight(e: Entry): int { if IsHeldCredit(e) then e.amount else 0 }

  function HeldRefundWeight(e: Entry): int {
    if e.state.Held? && e.kind.Debit? && e.source.Refund? then e.amount else 0
  }

  function FeeWeight(e: Entry): int { if e.source.Fee? then e.amount else 0 }

  function PayoutWeight(e: Entry): int { if e.source.Payout? then e.amount else 0 }

  function ReleaseWeight(e: Entry): int { if IsRelease(e) then e.amount else 0 }

  function ReleaseCount(e: Entry): int { if IsRelease(e) then 1 else 0 }

  function AvailableFeeWeight(e: Entry): int { if e.source.Fee? && e.state.Available? then e.amount else 0 }

  /** Money the buyer's own wallet paid in, or got back, for an order. */
  predicate IsBuyerSide(e: Entry) {
    e.state.Available? && (e.source.WalletPayment? || (e.source.Refund? && e.kind.Credit?))
  }

  function SellerSideWeight(e: Entry): int { if IsBuyerSide(e) then 0 else Signed(e) }

  function BuyerSideWeight(e: Entry): int { if IsBuyerSide(e) then Signed(e) else 0 }

  function OwnedWeight(u: UserId): Entry -> int {
    (e: Entry) => if e.user == u then Signed(e) else 0
  }

  function HeldCreditsOf(t: Txid): Entry -> int {
    (e: Entry) => if IsHeldCredit(e) && e.payment == Some(t) then 1 else 0
  }

  function TopupsOf(t: Txid): Entry -> int {
    (e: Entry) => if e.source.WalletTopup? && e.payment == Some(t) then 1 else 0
  }

  /** A user's spendable balance. */
  function AvailableWeight(u: UserId): Entry -> int {
    (e: Entry) => if e.user == u && e.state.Available? then Signed(e) else 0
  }

  /** Debits an administrator forces on a user: manual chargebacks and negative adjustments. */
  predicate IsForced(e: Entry) {
    e.state.Available? && e.kind.Debit? && (e.source.Refund? || e.source.ManualAdjustment?)
  }

  function ForcedWeight(u: UserId): Entry -> int {
    (e: Entry) => if e.user == u && IsForced(e) then Signed(e) else 0
  }

  function UnforcedWeight(u: UserId): Entry -> int {
    (e: Entry) => if e.user == u && e.state.Available? && !IsForced(e) then Signed(e) else 0
  }

  // ----- which rows the guards look for -----

  predicate IsHeldCredit(e: Entry) { e.kind.Credit? && e.state.Held? && e.source.OrderPayment? }

  predicate IsRelease(e: Entry) { e.kind.Credit? && e.state.Available? && e.source.OrderPayment? }

  predicate Released(book: seq<Entry>) { exists e :: e in book && IsRelease(e) }

  predicate HasHeldCredit(book: seq<Entry>, t: Txid) {
    exists e :: e in book && IsHeldCredit(e) && e.payment == Some(t)
  }

  predicate HasTopup(book: seq<Entry>, t: Txid) {
    exists e :: e in book && e.source.WalletTopup? && e.payment == Some(t)
  }

  /** The first held credit a release finds, whose owner it pays. */
  function FirstHeldCredit(book: seq<Entry>): (r: Option<Entry>)
    ensures r.Some? ==> r.value in book && r.value.kind.Credit? && r.value.state.Held?
    ensures r.None? ==> forall e :: e in book && EscrowWeight(e) != 0 ==> e.kind.Debit?
  {
    if book == [] then None
    else
      var earlier := FirstHeldCredit(book[..|book| - 1]);
      var e := book[|book| - 1];
      if earlier.Some? then earlier
      else if e.state.Held? && (e.source.OrderPayment? || e.source.Refund?) && e.kind.Credit? then Some(e)
      else None
  }
}
