/** The services as they run: methods that read and write the tables of one database in place. */
module Services {
  import opened Wrappers
  import opened Ledger
  import opened Orders
  import opened Settlement
  import M = Market
  import opened OrderInvariant
  import I = MarketInvariant
  import T = Theorems
  import A = Attribution

  lemma OneMoreRow(l: seq<Entry>, e: Entry, id: OrderId)
    ensures Sum(BookOf(l + [e], id), EscrowWeight) ==
              Sum(BookOf(l, id), EscrowWeight) + (if e.order == Some(id) then EscrowWeight(e) else 0)
    ensures FirstHeldCredit(BookOf(l + [e], id)) ==
              if FirstHeldCredit(BookOf(l, id)).None? && e.order == Some(id)
                && e.state.Held? && (e.source.OrderPayment? || e.source.Refund?) && e.kind.Credit?
              then Some(e)
              else FirstHeldCredit(BookOf(l, id))
  {
    var book := BookOf(l, id);
    assert (l + [e])[..|l|] == l && (book + [e])[..|book|] == book;
  }

  lemma NoRows(id: OrderId)
    ensures Sum(BookOf([], id), EscrowWeight) == 0 && FirstHeldCredit(BookOf([], id)).None?
  {
  }

  class Marketplace {
    var orders: map<OrderId, Order>
    var ledger: seq<Entry>
    var webhooks: map<M.EventId, M.WebhookEvent>
    var users: map<UserId, User>
    var partners: map<PartnerId, bool>
    var payouts: seq<M.PayoutRow>
    var settings: Settings

    /** The contents of all tables, as one value. */
    function View(): M.Db
      reads this
    {
      M.Db(orders, ledger, webhooks, users, partners, payouts, settings)
    }

    /** Everything that holds of a marketplace between two calls. */
    ghost predicate Valid()
      reads this
    {
      I.Inv(View())
    }

    constructor ()
      ensures View() == M.Empty() && Valid()
    {
      I.EmptyInv();
      orders, ledger, webhooks := map[], [], map[];
      users, partners, payouts := map[], map[], [];
      settings := Settings(false, 0);
    }

    // ----- queries -----

    /** findFirst: is there an available credit of the order's payment? */
    method FindRelease(id: OrderId) returns (found: bool)
      ensures found == Released(BookOf(ledger, id))
    {
      found := false;
      var i := 0;
      while i < |ledger|
        invariant 0 <= i <= |ledger|
        invariant found == Released(BookOf(ledger[..i], id))
      {
        assert ledger[..i + 1][..i] == ledger[..i];
        if ledger[i].order == Some(id) {
          TallyAppend(BookOf(ledger[..i], id), ledger[i]);
          if IsRelease(ledger[i]) {
            found := true;
          }
        }
        i := i + 1;
      }
      assert ledger[..i] == ledger;
    }

    /** findMany and reduce: the signed held rows of the order, and the first credit among them. */
    method HeldBalance(id: OrderId) returns (balance: int, credit: Option<Entry>)
      ensures balance == Sum(BookOf(ledger, id), EscrowWeight)
      ensures credit == FirstHeldCredit(BookOf(ledger, id))
    {
      NoRows(id);
      hide Sum, BookOf, FirstHeldCredit;
      balance, credit := 0, None;
      var i := 0;
      assert ledger[..0] == [];
      while i < |ledger|
        invariant 0 <= i <= |ledger|
        invariant balance == Sum(BookOf(ledger[..i], id), EscrowWeight)
        invariant credit == FirstHeldCredit(BookOf(ledger[..i], id))
      {
        var e := ledger[i];
        assert ledger[..i + 1] == ledger[..i] + [e];
        OneMoreRow(ledger[..i], e, id);
        if e.order == Some(id) {
          if e.state.Held? && (e.source.OrderPayment? || e.source.Refund?) {
            if e.kind.Debit? {
              balance := balance - e.amount;
            } else {
              balance := balance + e.amount;
              if credit.None? {
                credit := Some(e);
              }
            }
          }
        }
        i := i + 1;
      }
      assert ledger[..i] == ledger;
    }

    /** groupBy type and reduce: what the user can spend. */
    method AvailableBalance(user: UserId) returns (balance: int)
      ensures balance == M.Spendable(ledger, user)
    {
      balance := 0;
      var i := 0;
      while i < |ledger|
        invariant 0 <= i <= |ledger|
        invariant balance == Sum(ledger[..i], AvailableWeight(user))
      {
        var e := ledger[i];
        assert ledger[..i + 1] == ledger[..i] + [e];
        SumAppend(ledger[..i], e, AvailableWeight(user));
        if e.user == user && e.state.Available? {
          if e.kind.Debit? {
            balance := balance - e.amount;
          } else {
            balance := balance + e.amount;
          }
        }
        i := i + 1;
      }
      assert ledger[..i] == ledger;
    }

    // ----- writes shared by the services -----

    /** order.update with its log row. */
    method MoveOrder(id: OrderId, kind: EventKind, to: Status)
      requires id in orders
      modifies this`orders
      ensures orders == old(orders)[id := Transition(old(orders)[id], kind, to)]
    {
      var from := orders[id].status;
      orders := orders[id := orders[id].(status := to)];
      orders := orders[id := orders[id].(events := orders[id].events + [Event(kind, Some(from), Some(to))])];
    }

    method CreateHeldEntry(id: OrderId, t: Txid, seller: UserId, amount: nat)
      modifies this`ledger
      ensures ledger == old(ledger) + HoldPayment(id, t, seller, amount, BookOf(old(ledger), id))
    {
      var existing := false;
      var i := 0;
      while i < |ledger|
        invariant 0 <= i <= |ledger|
        invariant existing == HasHeldCredit(BookOf(ledger[..i], id), t)
      {
        var e := ledger[i];
        ghost var book := BookOf(ledger[..i], id);
        assert ledger[..i + 1][..i] == ledger[..i];
        if e.order == Some(id) {
          assert forall x :: x in book + [e] <==> x in book || x == e;
          if e.payment == Some(t) && e.kind.Credit? && e.state.Held? && e.source.OrderPayment? {
            existing := true;
          }
        }
        i := i + 1;
      }
      assert ledger[..i] == ledger;
      if !existing {
        ledger := ledger + [Entry(seller, Some(id), Some(t), Credit, Held, OrderPayment, amount)];
      }
    }

    method ApplyPaymentConfirmation(id: OrderId) returns (ok: bool, applied: bool)
      requires id in orders
      modifies this`orders
      ensures var c := ApplyPayment(old(orders)[id]);
              ok == c.Confirmation? && applied == (ok && c.applied)
              && orders == if ok then old(orders)[id := c.order] else old(orders)
    {
      var status := orders[id].status;
      if status == Paid || status == InDelivery {
        assert orders[id := orders[id]] == orders;
        return true, false;
      }
      if status != Created && status != AwaitingPayment {
        return false, false;
      }
      MoveOrder(id, PaidEvent, Paid);
      MoveOrder(id, InDeliveryEvent, InDelivery);
      return true, true;
    }

    /** Reserve stock for automatic items, then deliver at once when every item is automatic. */
    method HandlePaymentSideEffects(id: OrderId, stocked: bool) returns (reply: Reply)
      requires id in orders
      modifies this`orders
      ensures M.Response(View(), reply) == M.FollowUp(old(View()), id, true, stocked)
    {
      var delivery := orders[id].delivery;
      if delivery == Some(Auto) && !stocked {
        return Err(Conflict);
      }
      if delivery != Some(Manual) && orders[id].status == InDelivery {
        MoveOrder(id, DeliveredEvent, Delivered);
      } else {
        assert orders[id := orders[id]] == orders;
      }
      assert ledger + [] == ledger;
      return Ok;
    }

    // ----- checkout and payment -----

    method CreateOrder(id: OrderId, buyer: UserId, c: M.Checkout, expiresAt: int) returns (reply: Reply)
      requires Valid()
      modifies this
      ensures M.Response(View(), reply) == M.CreateOrder(old(View()), id, buyer, c, expiresAt)
      ensures Valid()
    {
      hide I.Inv, I.Grows;
      I.CreateOrderKeeps(View(), id, buyer, c, expiresAt);
      if !c.published {
        return Err(BadRequest);
      }
      if c.delivery == Auto && c.available < c.quantity {
        return Err(BadRequest);
      }
      if id in orders {
        return Err(Conflict);
      }
      var price := c.unitPrice * c.quantity;
      var t := A.CalculateTotals(M.TermsOf(c));
      var partner := if c.partner.Some? then Some(c.partner.value.0) else None;
      var attribution := Attribution(partner, price, t.discountApplied, t.feeBase, t.feeFinal, t.commission);
      orders := orders[id := Order(buyer, Some(c.seller), Created, t.finalTotal, Some(c.delivery), Some(expiresAt),
        Some(attribution), [], None, [Event(CreatedEvent, None, Some(Created))], [])];
      MoveOrder(id, AwaitingPaymentEvent, AwaitingPayment);
      assert ledger + [] == ledger;
      return Ok;
    }

    /** Reuse a pending charge, or ask the provider for a new one. */
    method ChargeOrder(id: OrderId, providerOk: bool) returns (reply: Reply)
      requires id in orders
      modifies this`orders
      ensures var a := M.CreateCharge(old(orders)[id], providerOk);
              if a.Done? then reply == Ok && orders == old(orders)[id := a.order]
              else reply == Err(a.error) && orders == old(orders)
    {
      var o := orders[id];
      if o.status != Created && o.status != AwaitingPayment {
        return Err(BadRequest);
      }
      var i := 0;
      while i < |o.payments|
        invariant 0 <= i <= |o.payments|
        invariant forall j :: 0 <= j < i ==> !o.payments[j].status.Pending?
      {
        if o.payments[i].status.Pending? {
          assert o.payments[i] in o.payments;
          assert orders[id := o] == orders;
          return Ok;
        }
        i := i + 1;
      }
      if !providerOk {
        return Err(ProviderFailed);
      }
      orders := orders[id := o.(payments := o.payments + [Payment(Efi, Pending, o.total, false)])];
      return Ok;
    }

    method CreateTopupPix(id: OrderId, user: UserId, amount: nat, expiresAt: int, providerOk: bool) returns (reply: Reply)
      requires Valid()
      modifies this
      ensures M.Response(View(), reply) == M.TopUp(old(View()), id, user, amount, expiresAt, providerOk)
      ensures Valid()
    {
      hide I.Inv, I.Grows;
      I.TopUpKeeps(View(), id, user, amount, expiresAt, providerOk);
      if id in orders {
        return Err(Conflict);
      }
      ghost var before := orders;
      var o := Order(user, None, Created, amount, None, Some(expiresAt), None, [], None, [], []);
      orders := orders[id := o];
      reply := ChargeOrder(id, providerOk);
      assert ledger + [] == ledger;
      assert orders == before[id := orders[id]];
    }

    method CreatePixCharge(id: OrderId, payer: UserId, providerOk: bool) returns (reply: Reply)
      requires Valid()
      modifies this
      ensures M.Response(View(), reply) == M.CreatePixCharge(old(View()), id, payer, providerOk)
      ensures Valid()
    {
      hide I.Inv, I.Grows;
      I.CreatePixChargeKeeps(View(), id, payer, providerOk);
      if id !in orders {
        return Err(NotFound);
      }
      if orders[id].buyer != payer {
        return Err(Forbidden);
      }
      reply := ChargeOrder(id, providerOk);
      assert ledger + [] == ledger;
    }

    method RegisterWebhook(event: M.EventId, txid: Option<Txid>, paid: bool) returns (reply: Reply)
      requires Valid()
      modifies this
      ensures M.Response(View(), reply) == M.RegisterWebhook(old(View()), event, txid, paid)
      ensures Valid()
    {
      hide I.Inv, I.Grows;
      I.RegisterWebhookKeeps(View(), event, txid, paid);
      if event !in webhooks {
        webhooks := webhooks[event := M.WebhookEvent(txid, paid, false)];
      }
      return Ok;
    }

    method FindTopup(id: OrderId, t: Txid) returns (found: bool)
      ensures found == HasTopup(BookOf(ledger, id), t)
    {
      found := false;
      var i := 0;
      while i < |ledger|
        invariant 0 <= i <= |ledger|
        invariant found == HasTopup(BookOf(ledger[..i], id), t)
      {
        var e := ledger[i];
        ghost var book := BookOf(ledger[..i], id);
        assert ledger[..i + 1][..i] == ledger[..i];
        if e.order == Some(id) {
          assert forall x :: x in book + [e] <==> x in book || x == e;
          if e.payment == Some(t) && e.source.WalletTopup? {
            found := true;
          }
        }
        i := i + 1;
      }
      assert ledger[..i] == ledger;
    }

    /** The transaction of a webhook job, from confirming the order to the ledger row. */
    method ConfirmPaymentOf(t: Txid) returns (ok: bool, applied: bool)
      requires M.Issued(View(), t)
      modifies this`orders, this`ledger
      ensures var o := old(orders)[t.order];
              var p := M.ConfirmByWebhook(o, BookOf(old(ledger), t.order), t);
              if p.Posting? then
                ok && applied == ApplyPayment(o).applied
                && orders == old(orders)[t.order := p.order] && ledger == old(ledger) + p.entries
              else !ok && orders == old(orders) && ledger == old(ledger)
    {
      var id := t.order;
      ghost var before := orders;
      var payment := orders[id].payments[t.n];
      ok, applied := ApplyPaymentConfirmation(id);
      if !ok {
        return;
      }
      if !payment.status.Confirmed? {
        var o := orders[id];
        orders := orders[id := o.(payments := o.payments[t.n := payment.(status := Confirmed, paid := true)])];
      } else {
        assert orders[id].payments[t.n := payment] == orders[id].payments;
        assert orders[id].(payments := orders[id].payments) == orders[id];
      }
      var o := orders[id];
      if o.seller.Some? {
        CreateHeldEntry(id, t, o.seller.value, payment.amount);
      } else {
        var existing := FindTopup(id, t);
        if !existing {
          ledger := ledger + [Entry(o.buyer, Some(id), Some(t), Credit, Available, WalletTopup, payment.amount)];
          orders := orders[id := o.(status := Completed)];
        } else {
          assert ledger + [] == ledger;
        }
      }
      assert orders == before[id := orders[id]];
    }

    method HandleProcess(event: M.EventId, stocked: bool) returns (reply: Reply)
      requires Valid()
      modifies this
      ensures M.Response(View(), reply) == M.ProcessWebhook(old(View()), event, stocked)
      ensures Valid()
    {
      hide I.Inv, I.Grows;
      I.ProcessWebhookKeeps(View(), event, stocked);
      if event !in webhooks {
        return Ok;
      }
      var e := webhooks[event];
      if e.processed {
        return Ok;
      }
      if !e.paid {
        webhooks := webhooks[event := e.(processed := true)];
        return Ok;
      }
      if e.txid.None? || e.txid.value.order !in orders || e.txid.value.n >= |orders[e.txid.value.order].payments| {
        return Err(NotFound);
      }
      var t := e.txid.value;
      var ok, applied := ConfirmPaymentOf(t);
      if !ok {
        return Err(BadRequest);
      }
      webhooks := webhooks[event := e.(processed := true)];
      if applied {
        reply := HandlePaymentSideEffects(t.order, stocked);
        return;
      }
      return Ok;
    }

    method ExpirePendingPayments(id: OrderId)
      requires id in orders
      modifies this`orders
      ensures orders == old(orders)[id := old(orders)[id].(payments := ExpirePending(old(orders)[id].payments))]
    {
      var o := orders[id];
      var ps: seq<Payment> := [];
      var i := 0;
      while i < |o.payments|
        invariant 0 <= i <= |o.payments|
        invariant |ps| == i
        invariant forall j :: 0 <= j < i ==>
          ps[j] == if o.payments[j].status.Pending? then o.payments[j].(status := Expired) else o.payments[j]
      {
        var p := o.payments[i];
        if p.status.Pending? {
          p := p.(status := Expired);
        }
        ps := ps + [p];
        i := i + 1;
      }
      assert ps == ExpirePending(o.payments);
      orders := orders[id := o.(payments := ps)];
    }

    method PayOrderWithBalance(id: OrderId, user: UserId, stocked: bool) returns (reply: Reply)
      requires Valid()
      modifies this
      ensures M.Response(View(), reply) == M.PayWithBalance(old(View()), id, user, stocked)
      ensures Valid()
    {
      hide I.Inv, I.Grows;
      I.PayWithBalanceKeeps(View(), id, user, stocked);
      if id !in orders {
        return Err(NotFound);
      }
      var o := orders[id];
      if o.buyer != user {
        return Err(Forbidden);
      }
      if o.status != Created && o.status != AwaitingPayment {
        return Err(BadRequest);
      }
      if o.total == 0 || o.seller.None? {
        return Err(BadRequest);
      }
      var available := AvailableBalance(user);
      if available < o.total {
        return Err(BadRequest);
      }
      BookWalletPayment(id);
      reply := HandlePaymentSideEffects(id, stocked);
    }

    /** The writes of a wallet payment: charges expire, the payment and both ledger rows are added, the order moves on. */
    method BookWalletPayment(id: OrderId)
      requires id in orders && IsPayable(orders[id].status) && orders[id].seller.Some?
      modifies this`orders, this`ledger
      ensures var o := old(orders)[id];
              var p := M.WalletPosting(id, o, o.seller.value, BookOf(old(ledger), id));
              p.Posting? && orders == old(orders)[id := p.order] && ledger == old(ledger) + p.entries
    {
      hide ExpirePending, HasHeldCredit;
      var o := orders[id];
      ghost var before, l := orders, ledger;
      ExpirePendingPayments(id);
      var t := Txid(id, |o.payments|);
      var paying := orders[id].(payments := orders[id].payments + [Payment(Wallet, Confirmed, o.total, true)]);
      orders := orders[id := paying];
      ghost var debit := [Entry(o.buyer, Some(id), Some(t), Debit, Available, WalletPayment, o.total)];
      BookOfConcat(ledger, debit, id);
      BookOfOwn(debit, id);
      ledger := ledger + [Entry(o.buyer, Some(id), Some(t), Debit, Available, WalletPayment, o.total)];
      var ok, applied := ApplyPaymentConfirmation(id);
      CreateHeldEntry(id, t, o.seller.value, o.total);
      assert orders == before[id := orders[id]];
      assert ledger == l + (debit + ledger[|l| + 1..]);
    }

    // ----- order life -----

    method CancelOrder(id: OrderId, buyer: UserId) returns (reply: Reply)
      requires Valid()
      modifies this
      ensures M.Response(View(), reply) == M.CancelOrder(old(View()), id, buyer)
      ensures Valid()
    {
      hide I.Inv, I.Grows;
      I.OrderCallKeeps(View(), M.DoCancelOrder(id, buyer));
      if id !in orders {
        return Err(NotFound);
      }
      if orders[id].buyer != buyer {
        return Err(Forbidden);
      }
      if orders[id].status != Created && orders[id].status != AwaitingPayment {
        return Err(BadRequest);
      }
      MoveOrder(id, CancelledEvent, Cancelled);
      assert ledger + [] == ledger;
      return Ok;
    }

    method HandleOrderExpiration(id: OrderId, now: int) returns (reply: Reply)
      requires Valid()
      modifies this
      ensures M.Response(View(), reply) == M.ExpireOrder(old(View()), id, now)
      ensures Valid()
    {
      hide I.Inv, I.Grows;
      I.OrderCallKeeps(View(), M.DoExpireOrder(id, now));
      assert ledger + [] == ledger;
      if id !in orders {
        return Ok;
      }
      var o := orders[id];
      assert orders[id := o] == orders;
      if o.expiresAt.None? {
        return Ok;
      }
      if o.status != Created && o.status != AwaitingPayment {
        return Ok;
      }
      if o.expiresAt.value > now {
        return Ok;
      }
      MoveOrder(id, CancelledEvent, Cancelled);
      return Ok;
    }

    method AddDeliveryEvidence(id: OrderId, actor: UserId, admin: bool) returns (reply: Reply)
      requires Valid()
      modifies this
      ensures M.Response(View(), reply) == M.AddDeliveryEvidence(old(View()), id, actor, admin)
      ensures Valid()
    {
      hide I.Inv, I.Grows;
      I.OrderCallKeeps(View(), M.DoAddDeliveryEvidence(id, actor, admin));
      if id !in orders {
        return Err(NotFound);
      }
      var o := orders[id];
      if o.status != InDelivery || o.delivery != Some(Manual) {
        return Err(BadRequest);
      }
      if !admin && o.seller != Some(actor) {
        return Err(Forbidden);
      }
      orders := orders[id := o.(events := o.events + [Event(Note, None, None)])];
      assert ledger + [] == ledger;
      return Ok;
    }

    method MarkOrderDelivered(id: OrderId, actor: UserId, admin: bool) returns (reply: Reply)
      requires Valid()
      modifies this
      ensures M.Response(View(), reply) == M.MarkOrderDelivered(old(View()), id, actor, admin)
      ensures Valid()
    {
      hide I.Inv, I.Grows;
      I.OrderCallKeeps(View(), M.DoMarkOrderDelivered(id, actor, admin));
      if id !in orders {
        return Err(NotFound);
      }
      var o := orders[id];
      if o.status != InDelivery || o.delivery != Some(Manual) {
        return Err(BadRequest);
      }
      if !admin && o.seller != Some(actor) {
        return Err(Forbidden);
      }
      MoveOrder(id, DeliveredEvent, Delivered);
      assert ledger + [] == ledger;
      return Ok;
    }

    method ConfirmReceipt(id: OrderId, buyer: UserId) returns (reply: Reply)
      requires Valid()
      modifies this
      ensures M.Response(View(), reply) == M.ConfirmOrderReceipt(old(View()), id, buyer)
      ensures Valid()
    {
      hide I.Inv, I.Grows;
      I.OrderCallKeeps(View(), M.DoConfirmOrderReceipt(id, buyer));
      if id !in orders {
        return Err(NotFound);
      }
      if orders[id].buyer != buyer {
        return Err(Forbidden);
      }
      if orders[id].status != Delivered {
        return Err(BadRequest);
      }
      MoveOrder(id, CompletedEvent, Completed);
      assert ledger + [] == ledger;
      return Ok;
    }

    method HandleAutoComplete(id: OrderId) returns (reply: Reply)
      requires Valid()
      modifies this
      ensures M.Response(View(), reply) == M.AutoCompleteOrder(old(View()), id)
      ensures Valid()
    {
      hide I.Inv, I.Grows;
      I.OrderCallKeeps(View(), M.DoAutoCompleteOrder(id));
      assert ledger + [] == ledger;
      if id !in orders {
        return Ok;
      }
      if orders[id].status != Delivered || orders[id].dispute.Some? {
        assert orders[id := orders[id]] == orders;
        return Ok;
      }
      MoveOrder(id, CompletedEvent, Completed);
      return Ok;
    }

    method OpenDispute(id: OrderId, buyer: UserId) returns (reply: Reply)
      requires Valid()
      modifies this
      ensures M.Response(View(), reply) == M.OpenOrderDispute(old(View()), id, buyer)
      ensures Valid()
    {
      hide I.Inv, I.Grows;
      I.OrderCallKeeps(View(), M.DoOpenOrderDispute(id, buyer));
      if id !in orders {
        return Err(NotFound);
      }
      var o := orders[id];
      if o.buyer != buyer {
        return Err(Forbidden);
      }
      if o.status != Delivered && o.status != Completed {
        return Err(BadRequest);
      }
      if o.dispute.Some? {
        return Err(BadRequest);
      }
      ghost var before := orders;
      orders := orders[id := o.(dispute := Some(Open))];
      MoveOrder(id, DisputedEvent, Disputed);
      assert orders == before[id := Transition(o, DisputedEvent, Disputed).(dispute := Some(Open))];
      assert ledger + [] == ledger;
      return Ok;
    }

    // ----- settlement -----

    /** Credit the partner, once per order. */
    method EarnPartnerCommission(id: OrderId, active: bool)
      requires id in orders
      modifies this`orders
      ensures orders == old(orders)[id := EarnCommission(old(orders)[id], active)]
    {
      var o := orders[id];
      if o.attribution.Some? && o.attribution.value.partner.Some? && o.attribution.value.commission > 0 && active {
        var partner := o.attribution.value.partner.value;
        var existing := FindCommission(o.commissions, Earned, partner);
        if !existing {
          orders := orders[id := o.(commissions := o.commissions
            + [Commission(Earned, partner, o.attribution.value.commission)])];
          return;
        }
      }
      assert orders[id := o] == orders;
    }

    method ReversePartnerCommission(id: OrderId)
      requires id in orders
      modifies this`orders
      ensures orders == old(orders)[id := ReverseCommission(old(orders)[id])]
    {
      var o := orders[id];
      if o.attribution.Some? && o.attribution.value.partner.Some? && o.attribution.value.commission > 0 {
        var partner := o.attribution.value.partner.value;
        var earned := FindCommission(o.commissions, Earned, partner);
        if earned {
          var reversed := FindCommission(o.commissions, Reversal, partner);
          if !reversed {
            orders := orders[id := o.(commissions := o.commissions
              + [Commission(Reversal, partner, -o.attribution.value.commission)])];
            return;
          }
        }
      }
      assert orders[id := o] == orders;
    }

    static method FindCommission(cs: seq<Commission>, kind: CommissionKind, partner: PartnerId) returns (found: bool)
      ensures found == HasCommission(cs, kind, partner)
    {
      var i := 0;
      while i < |cs|
        invariant 0 <= i <= |cs|
        invariant forall j :: 0 <= j < i ==> cs[j].kind != kind || cs[j].partner != partner
      {
        if cs[i].kind == kind && cs[i].partner == partner {
          assert cs[i] in cs;
          return true;
        }
        i := i + 1;
      }
      return false;
    }

    /** The cash-out between the two transactions of a release. */
    method SendCashOut(o: Order, payout: nat, providerOk: bool) returns (reply: Reply)
      ensures reply == CashOut(settings, M.SellerRow(View(), o), payout, providerOk)
    {
      if settings.splitEnabled {
        return Ok;
      }
      if o.seller.None? || o.seller.value !in users || !users[o.seller.value].hasPixKey {
        return Err(BadRequest);
      }
      if users[o.seller.value].payoutBlocked {
        return Err(Forbidden);
      }
      if payout > 0 && !providerOk {
        return Err(ProviderFailed);
      }
      return Ok;
    }

    method IsPartnerActive(o: Order) returns (active: bool)
      ensures active == M.PartnerActive(View(), o)
    {
      if o.attribution.Some? && o.attribution.value.partner.Some? && o.attribution.value.partner.value in partners {
        return partners[o.attribution.value.partner.value];
      }
      return true;
    }

    /** The second transaction of a release. */
    method BookRelease(id: OrderId, plan: ReleaseRead, active: bool)
      requires id in orders && plan.Plan? && plan.order == orders[id] && plan.order.payments != []
      requires !Released(BookOf(ledger, id))
      modifies this`orders, this`ledger
      ensures var p := CommitRelease(id, old(orders)[id], BookOf(old(ledger), id), plan, settings, active);
              p.Posting? && orders == old(orders)[id := p.order] && ledger == old(ledger) + p.entries
    {
      hide FeeAmount, PayoutAmount, Released, EarnCommission;
      var o := orders[id];
      var payment := Txid(id, |o.payments| - 1);
      var fee := FeeAmount(plan, settings);
      var payout := PayoutAmount(plan, settings);
      ghost var l := ledger;
      ledger := ledger + [Entry(plan.owner, Some(id), Some(payment), Debit, Held, OrderPayment, plan.held)];
      ledger := ledger + [Entry(plan.owner, Some(id), Some(payment), Credit, Available, OrderPayment, plan.held)];
      assert ledger == l + MoveRows(id, plan);
      if fee > 0 {
        ledger := ledger + [Entry(plan.owner, Some(id), Some(payment), Debit, Available, Fee, fee)];
      }
      assert ledger == l + (MoveRows(id, plan) + DebitRows(id, plan, Fee, fee));
      if !settings.splitEnabled && payout > 0 {
        ledger := ledger + [Entry(plan.owner, Some(id), Some(payment), Debit, Available, Payout, payout)];
      }
      assert ledger == l + ReleaseEntries(id, plan, settings);
      orders := orders[id := o.(events := o.events + [Event(Note, Some(Completed), Some(Completed))])];
      EarnPartnerCommission(id, active);
    }

    /** The first transaction of a release only reads. */
    method PlanRelease(id: OrderId, ignoreDispute: bool) returns (plan: ReleaseRead)
      requires id in orders
      ensures plan == ReadRelease(orders[id], BookOf(ledger, id), ignoreDispute)
    {
      hide Released, FirstHeldCredit;
      var o := orders[id];
      if o.status != Completed {
        return ReadRefused(BadRequest);
      }
      if !ignoreDispute && o.dispute.Some? && o.dispute.value != Resolved && o.dispute.value != Rejected {
        return ReadRefused(BadRequest);
      }
      if o.payments == [] {
        return ReadRefused(BadRequest);
      }
      var existing := FindRelease(id);
      if existing {
        return AlreadyReleased;
      }
      var balance, credit := HeldBalance(id);
      if credit.None? || balance <= 0 {
        return ReadRefused(BadRequest);
      }
      return Plan(o, balance, credit.value.user);
    }

    method ReleaseOrder(id: OrderId, ignoreDispute: bool, providerOk: bool) returns (reply: Reply)
      requires Valid()
      modifies this
      ensures M.Response(View(), reply) == M.ReleaseOrder(old(View()), id, ignoreDispute, providerOk)
      ensures id in old(orders) ==> id in orders
      ensures Valid()
    {
      hide I.Inv, I.Grows;
      I.ReleaseOrderKeeps(View(), id, ignoreDispute, providerOk);
      if id !in orders {
        return Err(NotFound);
      }
      var plan := PlanRelease(id, ignoreDispute);
      if plan.ReadRefused? {
        return Err(plan.error);
      }
      if plan.AlreadyReleased? {
        return Ok;
      }
      hide FeeAmount, PayoutAmount, EarnCommission, ReleaseEntries, CashOut;
      var sent := SendCashOut(orders[id], PayoutAmount(plan, settings), providerOk);
      if sent.Err? {
        return sent;
      }
      var active := IsPartnerActive(orders[id]);
      BookRelease(id, plan, active);
      return Ok;
    }

    method MarkLatestRefunded(id: OrderId)
      requires id in orders && orders[id].payments != []
      modifies this`orders
      ensures orders == old(orders)[id := MarkRefunded(old(orders)[id])]
    {
      var o := orders[id];
      var last := |o.payments| - 1;
      orders := orders[id := o.(payments := o.payments[last := o.payments[last].(status := PaymentRefunded)])];
    }

    method HandleChargebackManual(id: OrderId)
      requires id in orders && orders[id].payments != []
      modifies this
      ensures var p := Chargeback(id, old(orders)[id]);
              View() == old(View()).(orders := old(orders)[id := p.order], ledger := old(ledger) + p.entries,
                users := if old(orders)[id].seller.Some? then M.BlockUser(old(users), old(orders)[id].seller.value)
                         else old(users))
    {
      var o := orders[id];
      var payment := o.payments[|o.payments| - 1];
      var owner := if o.seller.Some? then o.seller.value else o.buyer;
      var t := Txid(id, |o.payments| - 1);
      if o.seller.Some? && o.seller.value in users {
        users := users[o.seller.value := users[o.seller.value].(payoutBlocked := true)];
      }
      ghost var l := ledger;
      ledger := ledger + [Entry(owner, Some(id), Some(t), Debit, Available, Refund, payment.amount)];
      ledger := ledger + [Entry(owner, Some(id), Some(t), Credit, Reversed, Refund, payment.amount)];
      assert ledger == l + Chargeback(id, o).entries;
      MarkLatestRefunded(id);
      MoveOrder(id, RefundedEvent, Orders.Refunded);
    }

    /** The transaction of a full refund out of escrow. */
    method BookFullRefund(id: OrderId)
      requires id in orders && orders[id].payments != []
      modifies this`orders, this`ledger
      ensures var p := FullRefund(id, old(orders)[id]);
              orders == old(orders)[id := p.order] && ledger == old(ledger) + p.entries
    {
      var o := orders[id];
      var payment := o.payments[|o.payments| - 1];
      var owner := if o.seller.Some? then o.seller.value else o.buyer;
      var t := Txid(id, |o.payments| - 1);
      MarkLatestRefunded(id);
      MoveOrder(id, RefundedEvent, Orders.Refunded);
      ghost var l := ledger;
      ledger := ledger + [Entry(owner, Some(id), Some(t), Debit, Held, Refund, payment.amount)];
      if payment.provider.Wallet? {
        ledger := ledger + [Entry(o.buyer, Some(id), Some(t), Credit, Available, Refund, RefundAmount(payment.amount))];
      }
      ledger := ledger + [Entry(owner, Some(id), Some(t), Credit, Reversed, Refund, payment.amount)];
      assert ledger == l + FullRefund(id, o).entries;
      ReversePartnerCommission(id);
    }

    method RefundOrder(id: OrderId, actor: Option<UserId>, providerOk: bool) returns (reply: Reply)
      requires Valid()
      modifies this
      ensures M.Response(View(), reply) == M.RefundWhole(old(View()), id, actor, providerOk)
      ensures id in old(orders) ==> id in orders
      ensures Valid()
    {
      hide I.Inv, I.Grows;
      I.RefundWholeKeeps(View(), id, actor, providerOk);
      if id !in orders {
        return Err(NotFound);
      }
      var o := orders[id];
      if actor == Some(o.buyer) {
        return Err(Forbidden);
      }
      if o.payments == [] {
        return Err(BadRequest);
      }
      var payment := o.payments[|o.payments| - 1];
      var existing := FindRelease(id);
      if existing {
        HandleChargebackManual(id);
        return Ok;
      }
      if payment.status.PaymentRefunded? {
        return Ok;
      }
      if !payment.provider.Wallet? && !providerOk {
        return Err(ProviderFailed);
      }
      BookFullRefund(id);
      return Ok;
    }

    method RefundOrderPartial(id: OrderId, amount: int, providerOk: bool) returns (reply: Reply)
      requires Valid()
      modifies this
      ensures M.Response(View(), reply) == M.RefundPart(old(View()), id, amount, providerOk)
      ensures id in old(orders) ==> id in orders
      ensures Valid()
    {
      hide I.Inv, I.Grows;
      I.RefundPartKeeps(View(), id, amount, providerOk);
      hide Released, ReverseCommission;
      if id !in orders {
        return Err(NotFound);
      }
      var o := orders[id];
      if amount <= 0 || o.payments == [] {
        return Err(BadRequest);
      }
      if amount >= o.payments[|o.payments| - 1].amount {
        return Err(BadRequest);
      }
      var existing := FindRelease(id);
      if existing {
        return Err(BadRequest);
      }
      var balance, _ := HeldBalance(id);
      if amount > balance {
        return Err(BadRequest);
      }
      if !providerOk {
        return Err(ProviderFailed);
      }
      BookPartialRefund(id, amount);
      return Ok;
    }

    /** The transaction of a partial refund. */
    method BookPartialRefund(id: OrderId, amount: nat)
      requires id in orders && orders[id].payments != []
      modifies this`orders, this`ledger
      ensures var o := old(orders)[id];
              && orders == old(orders)[id := ReverseCommission(Annotate(o))]
              && ledger == old(ledger) + ([RefundRow(id, o, LedgerOwner(o), Debit, Held, amount)]
                   + [RefundRow(id, o, LedgerOwner(o), Credit, Reversed, amount)])
    {
      var o := orders[id];
      var owner := if o.seller.Some? then o.seller.value else o.buyer;
      var t := Txid(id, |o.payments| - 1);
      ghost var l := ledger;
      ledger := ledger + [Entry(owner, Some(id), Some(t), Debit, Held, Refund, amount)];
      ledger := ledger + [Entry(owner, Some(id), Some(t), Credit, Reversed, Refund, amount)];
      assert ledger == l + (ledger[|l|..|l| + 1] + ledger[|l| + 1..]);
      orders := orders[id := o.(events := o.events + [Event(Note, Some(o.status), Some(o.status))])];
      ReversePartnerCommission(id);
    }

    // ----- disputes -----

    method CompleteDisputedOrder(id: OrderId)
      requires id in orders
      modifies this`orders
      ensures View() == M.CompleteDisputed(old(View()), id) && id in orders
    {
      assert ledger + [] == ledger;
      if orders[id].status != Completed {
        MoveOrder(id, Note, Completed);
      }
    }

    method FinalizeDispute(id: OrderId, status: DisputeStatus)
      requires id in orders
      modifies this`orders
      ensures M.Response(View(), Ok) == M.Finalize(old(View()), id, status)
    {
      assert ledger + [] == ledger;
      orders := orders[id := orders[id].(dispute := Some(status))];
    }

    method ResolveDispute(id: OrderId, admin: UserId, how: M.Resolution, refundOk: bool, cashOutOk: bool)
      returns (reply: Reply)
      requires Valid()
      modifies this
      ensures M.Response(View(), reply) == M.ResolveDispute(old(View()), id, admin, how, refundOk, cashOutOk)
      ensures Valid()
    {
      hide I.Inv, I.Grows, M.ReleaseOrder, M.RefundWhole, M.RefundPart, M.CompleteDisputed;
      if id !in orders || orders[id].dispute.None? {
        return Err(NotFound);
      }
      if orders[id].dispute.value != Open && orders[id].dispute.value != Review {
        return Err(BadRequest);
      }
      hide M.ResolveDispute;
      match how
      case SplitBetween(amount) => reply := SplitDisputed(id, admin, amount, refundOk, cashOutOk);
      case ReleaseSeller => reply := ReleaseDisputed(id, admin, refundOk, cashOutOk);
      case RefundBuyer => reply := RefundDisputed(id, admin, refundOk, cashOutOk);
    }

    method SplitDisputed(id: OrderId, admin: UserId, amount: int, refundOk: bool, cashOutOk: bool) returns (reply: Reply)
      requires Valid() && id in orders && DisputeIsOpen(orders[id])
      modifies this
      ensures M.Response(View(), reply) ==
                M.ResolveDispute(old(View()), id, admin, M.SplitBetween(amount), refundOk, cashOutOk)
      ensures Valid()
    {
      hide I.Inv, I.Grows, M.ReleaseOrder, M.RefundPart, M.CompleteDisputed, M.Finalize;
      I.NextKeeps(View(), M.DoResolveDispute(id, admin, M.SplitBetween(amount), refundOk, cashOutOk));
      if amount <= 0 {
        return Err(BadRequest);
      }
      if orders[id].status == Cancelled || orders[id].status == Orders.Refunded {
        return Err(BadRequest);
      }
      I.CompleteDisputedKeeps(View(), id);
      CompleteDisputedOrder(id);
      reply := RefundOrderPartial(id, amount, refundOk);
      if reply.Err? {
        return;
      }
      reply := ReleaseOrder(id, true, cashOutOk);
      if reply.Err? {
        return;
      }
      FinalizeDispute(id, Resolved);
      return Ok;
    }

    method ReleaseDisputed(id: OrderId, admin: UserId, refundOk: bool, cashOutOk: bool) returns (reply: Reply)
      requires Valid() && id in orders && DisputeIsOpen(orders[id])
      modifies this
      ensures M.Response(View(), reply) ==
                M.ResolveDispute(old(View()), id, admin, M.ReleaseSeller, refundOk, cashOutOk)
      ensures Valid()
    {
      hide I.Inv, I.Grows, M.ReleaseOrder, M.CompleteDisputed, M.Finalize;
      I.NextKeeps(View(), M.DoResolveDispute(id, admin, M.ReleaseSeller, refundOk, cashOutOk));
      if orders[id].status == Cancelled || orders[id].status == Orders.Refunded {
        return Err(BadRequest);
      }
      I.CompleteDisputedKeeps(View(), id);
      CompleteDisputedOrder(id);
      reply := ReleaseOrder(id, true, cashOutOk);
      if reply.Err? {
        return;
      }
      FinalizeDispute(id, Rejected);
      return Ok;
    }

    method RefundDisputed(id: OrderId, admin: UserId, refundOk: bool, cashOutOk: bool) returns (reply: Reply)
      requires Valid() && id in orders && DisputeIsOpen(orders[id])
      modifies this
      ensures M.Response(View(), reply) ==
                M.ResolveDispute(old(View()), id, admin, M.RefundBuyer, refundOk, cashOutOk)
      ensures Valid()
    {
      hide I.Inv, I.Grows, M.RefundWhole, M.Finalize;
      I.NextKeeps(View(), M.DoResolveDispute(id, admin, M.RefundBuyer, refundOk, cashOutOk));
      if orders[id].status == Orders.Refunded {
        return Err(BadRequest);
      }
      reply := RefundOrder(id, Some(admin), refundOk);
      if reply.Err? {
        return;
      }
      FinalizeDispute(id, Resolved);
      return Ok;
    }

    // ----- money leaving, and administration -----

    method CreateUserPayout(user: UserId, amount: nat, instant: bool, accountAgeMs: int, providerOk: bool)
      returns (reply: Reply)
      requires Valid()
      modifies this
      ensures M.Response(View(), reply) == M.UserPayout(old(View()), user, amount, instant, accountAgeMs, providerOk)
      ensures Valid()
    {
      hide I.Inv, I.Grows;
      I.UserPayoutKeeps(View(), user, amount, instant, accountAgeMs, providerOk);
      if user !in users {
        return Err(BadRequest);
      }
      if users[user].payoutBlocked {
        return Err(Forbidden);
      }
      if accountAgeMs < M.MIN_ACCOUNT_AGE_MS {
        return Err(Forbidden);
      }
      var available := AvailableBalance(user);
      var fee := if instant then M.INSTANT_FEE_CENTS else 0;
      if amount + fee > available {
        return Err(BadRequest);
      }
      if !providerOk {
        payouts := payouts + [M.PayoutRow(M.ToUser(user), false, amount)];
        return Err(ProviderFailed);
      }
      payouts := payouts + [M.PayoutRow(M.ToUser(user), true, amount)];
      ghost var l := ledger;
      ledger := ledger + [Entry(user, None, None, Debit, Available, Payout, amount)];
      if fee > 0 {
        ledger := ledger + [Entry(user, None, None, Debit, Available, Fee, fee)];
      }
      assert ledger == l + ([M.PayoutEntry(user, Payout, amount)]
        + if fee > 0 then [M.PayoutEntry(user, Fee, fee)] else []);
      return Ok;
    }

    /** aggregate: the fees booked to available balances, and what was sent to the platform. */
    method PlatformBalance() returns (fees: int, sent: nat)
      ensures fees == Sum(ledger, AvailableFeeWeight) && sent == M.PlatformSent(payouts)
    {
      fees, sent := 0, 0;
      var i := 0;
      while i < |ledger|
        invariant 0 <= i <= |ledger|
        invariant fees == Sum(ledger[..i], AvailableFeeWeight)
      {
        assert ledger[..i + 1] == ledger[..i] + [ledger[i]];
        SumAppend(ledger[..i], ledger[i], AvailableFeeWeight);
        if ledger[i].source.Fee? && ledger[i].state.Available? {
          fees := fees + ledger[i].amount;
        }
        i := i + 1;
      }
      assert ledger[..i] == ledger;
      var j := 0;
      while j < |payouts|
        invariant 0 <= j <= |payouts|
        invariant sent == M.PlatformSent(payouts[..j])
      {
        assert payouts[..j + 1][..j] == payouts[..j];
        if payouts[j].scope.ToPlatform? && payouts[j].sent {
          sent := sent + payouts[j].amount;
        }
        j := j + 1;
      }
      assert payouts[..j] == payouts;
    }

    method CreatePlatformPayout(amount: nat, providerOk: bool) returns (reply: Reply)
      requires Valid()
      modifies this
      ensures M.Response(View(), reply) == M.PlatformPayout(old(View()), amount, providerOk)
      ensures Valid()
    {
      hide I.Inv, I.Grows;
      I.PlatformPayoutKeeps(View(), amount, providerOk);
      var fees, sent := PlatformBalance();
      var available := Max(fees - sent, 0);
      if amount > available {
        return Err(BadRequest);
      }
      payouts := payouts + [M.PayoutRow(M.ToPlatform, providerOk, amount)];
      if !providerOk {
        return Err(ProviderFailed);
      }
      return Ok;
    }

    method AdjustBalance(user: UserId, amount: int) returns (reply: Reply)
      requires Valid()
      modifies this
      ensures M.Response(View(), reply) == M.AdjustBalance(old(View()), user, amount)
      ensures Valid()
    {
      hide I.Inv, I.Grows;
      I.AdjustBalanceKeeps(View(), user, amount);
      if user !in users {
        return Err(NotFound);
      }
      if amount == 0 {
        return Err(BadRequest);
      }
      if amount > 0 {
        ledger := ledger + [Entry(user, None, None, Credit, Available, ManualAdjustment, amount)];
      } else {
        ledger := ledger + [Entry(user, None, None, Debit, Available, ManualAdjustment, -amount)];
      }
      return Ok;
    }

    method SetUser(user: UserId, row: User)
      requires Valid()
      modifies this`users
      ensures View() == old(View()).(users := old(users)[user := row]) && Valid()
    {
      I.AdministrationKeeps(View(), View().(users := users[user := row]));
      users := users[user := row];
    }

    method SetPartner(partner: PartnerId, active: bool)
      requires Valid()
      modifies this`partners
      ensures View() == old(View()).(partners := old(partners)[partner := active]) && Valid()
    {
      I.AdministrationKeeps(View(), View().(partners := partners[partner := active]));
      partners := partners[partner := active];
    }

    method SetSettings(settings: Settings)
      requires Valid()
      modifies this`settings
      ensures View() == old(View()).(settings := settings) && Valid()
    {
      I.AdministrationKeeps(View(), View().(settings := settings));
      this.settings := settings;
    }

    // ----- any call, and any run of calls -----

    method Call(s: M.Step) returns (reply: Reply)
      requires Valid()
      modifies this
      ensures M.Response(View(), reply) == M.Next(old(View()), s) && Valid()
      ensures T.IsReachable(old(View())) ==> T.IsReachable(View())
    {
      hide I.Inv, T.IsReachable, M.Next;
      if T.IsReachable(View()) {
        T.ReachableNext(View(), s);
      }
      if M.IsOrderCall(s) {
        reply := CallOrderService(s);
      } else if s.DoReleaseOrder? || s.DoRefundOrder? || s.DoResolveDispute? || s.DoUserPayout? || s.DoPlatformPayout? {
        reply := CallSettlement(s);
      } else {
        reply := CallOther(s);
      }
    }

    method CallOrderService(s: M.Step) returns (reply: Reply)
      requires Valid() && M.IsOrderCall(s)
      modifies this
      ensures M.Response(View(), reply) == M.Next(old(View()), s) && Valid()
    {
      hide I.Inv, M.CancelOrder, M.ExpireOrder, M.AddDeliveryEvidence, M.MarkOrderDelivered, M.ConfirmOrderReceipt,
        M.AutoCompleteOrder, M.OpenOrderDispute;
      match s
      case DoCancelOrder(id, user) => reply := CancelOrder(id, user);
      case DoExpireOrder(id, now) => reply := HandleOrderExpiration(id, now);
      case DoAddDeliveryEvidence(id, user, admin) => reply := AddDeliveryEvidence(id, user, admin);
      case DoMarkOrderDelivered(id, user, admin) => reply := MarkOrderDelivered(id, user, admin);
      case DoConfirmOrderReceipt(id, user) => reply := ConfirmReceipt(id, user);
      case DoAutoCompleteOrder(id) => reply := HandleAutoComplete(id);
      case DoOpenOrderDispute(id, user) => reply := OpenDispute(id, user);
    }

    method CallSettlement(s: M.Step) returns (reply: Reply)
      requires Valid()
      requires s.DoReleaseOrder? || s.DoRefundOrder? || s.DoResolveDispute? || s.DoUserPayout? || s.DoPlatformPayout?
      modifies this
      ensures M.Response(View(), reply) == M.Next(old(View()), s) && Valid()
    {
      hide I.Inv, M.ReleaseOrder, M.RefundWhole, M.ResolveDispute, M.UserPayout, M.PlatformPayout;
      match s
      case DoReleaseOrder(id, providerOk) => reply := ReleaseOrder(id, false, providerOk);
      case DoRefundOrder(id, actor, providerOk) => reply := RefundOrder(id, actor, providerOk);
      case DoResolveDispute(id, user, how, refundOk, cashOutOk) =>
        reply := ResolveDispute(id, user, how, refundOk, cashOutOk);
      case DoUserPayout(user, cents, instant, age, providerOk) =>
        reply := CreateUserPayout(user, cents, instant, age, providerOk);
      case DoPlatformPayout(cents, providerOk) => reply := CreatePlatformPayout(cents, providerOk);
    }

    method CallOther(s: M.Step) returns (reply: Reply)
      requires Valid() && !M.IsOrderCall(s) && !s.DoReleaseOrder? && !s.DoRefundOrder? && !s.DoResolveDispute?
      requires !s.DoUserPayout? && !s.DoPlatformPayout?
      modifies this
      ensures M.Response(View(), reply) == M.Next(old(View()), s) && Valid()
    {
      hide I.Inv, M.CreateOrder, M.TopUp, M.CreatePixCharge, M.RegisterWebhook, M.ProcessWebhook, M.PayWithBalance,
        M.AdjustBalance;
      reply := Ok;
      match s
      case DoCreateOrder(id, buyer, checkout, expiresAt) => reply := CreateOrder(id, buyer, checkout, expiresAt);
      case DoTopUp(id, user, cents, expiresAt, providerOk) =>
        reply := CreateTopupPix(id, user, cents, expiresAt, providerOk);
      case DoCreatePixCharge(id, user, providerOk) => reply := CreatePixCharge(id, user, providerOk);
      case DoRegisterWebhook(event, txid, paid) => reply := RegisterWebhook(event, txid, paid);
      case DoProcessWebhook(event, stocked) => reply := HandleProcess(event, stocked);
      case DoPayWithBalance(id, user, stocked) => reply := PayOrderWithBalance(id, user, stocked);
      case DoAdjustBalance(user, amount) => reply := AdjustBalance(user, amount);
      case DoSetUser(user, row) => SetUser(user, row);
      case DoSetPartner(partner, active) => SetPartner(partner, active);
      case DoSetSettings(settings) => SetSettings(settings);
    }

    /** Serving calls one after the other is a run, so whatever is proved of runs holds of the marketplace. */
    method Serve(steps: seq<M.Step>)
      requires Valid()
      modifies this
      ensures View() == M.Run(old(View()), steps) && Valid() && I.Grows(old(View()), View())
      ensures T.IsReachable(old(View())) ==> T.IsReachable(View())
    {
      hide I.Inv, I.Grows, M.Next, T.IsReachable;
      I.RunKeeps(View(), steps);
      ghost var start := View();
      for i := 0 to |steps|
        invariant View() == M.Run(start, steps[..i]) && Valid()
        invariant T.IsReachable(start) ==> T.IsReachable(View())
      {
        assert steps[..i + 1][..i] == steps[..i];
        var _ := Call(steps[i]);
      }
      assert steps[..|steps|] == steps;
    }
  }
}
