/** Coupons: who may use one, and how often, when many checkouts read it before any of them uses it. */
module Coupons {
  import opened Wrappers

  type CouponId = nat
  type PartnerId = nat
  type OrderId = nat

  datatype Coupon = Coupon(
    partner: Option<PartnerId>,
    active: bool,
    discountBps: Option<int>,
    discountCents: Option<int>,
    startsAt: Option<int>,
    endsAt: Option<int>,
    maxUses: Option<int>,
    uses: nat)

  /** Coupons, partners by whether they are active, and the coupon each order is attributed to. */
  datatype Shop = Shop(
    coupons: map<CouponId, Coupon>,
    partners: map<PartnerId, bool>,
    attributions: map<OrderId, Option<CouponId>>)

  /** In JavaScript null, undefined and 0 all count as absent. */
  predicate Truthy(x: Option<int>) { x.Some? && x.value != 0 }

  predicate OneDiscount(bps: Option<int>, cents: Option<int>) { Truthy(bps) != Truthy(cents) }

  // ----- administration -----

  predicate PartnerAllowed(shop: Shop, partner: Option<PartnerId>) {
    partner.None? || (partner.value in shop.partners && shop.partners[partner.value])
  }

  datatype Response = Response(shop: Shop, reply: Reply)

  function Create(shop: Shop, id: CouponId, c: Coupon): Response {
    if !OneDiscount(c.discountBps, c.discountCents) || !PartnerAllowed(shop, c.partner) then
      Response(shop, Err(BadRequest))
    else if id in shop.coupons then Response(shop, Err(Conflict))
    else Response(shop.(coupons := shop.coupons[id := c.(uses := 0)]), Ok)
  }

  /** For each field: leave it, or set it, possibly to null; a date set to null is left as it was. */
  datatype Changes = Changes(
    partner: Option<Option<PartnerId>>,
    active: Option<bool>,
    discountBps: Option<Option<int>>,
    discountCents: Option<Option<int>>,
    startsAt: Option<Option<int>>,
    endsAt: Option<Option<int>>,
    maxUses: Option<Option<int>>)

  const NO_CHANGES := Changes(None, None, None, None, None, None, None)

  function Given<T>(change: Option<T>, was: T): T { if change.Some? then change.value else was }

  /** Parsing null gives undefined, which the update skips. */
  function NewDate(change: Option<Option<int>>, was: Option<int>): Option<int> {
    if change.Some? && change.value.Some? then change.value else was
  }

  function Update(shop: Shop, id: CouponId, ch: Changes): Response {
    var discount := ch.discountBps.Some? || ch.discountCents.Some?;
    var bps, cents := Given(ch.discountBps, None), Given(ch.discountCents, None);
    if !PartnerAllowed(shop, Given(ch.partner, None)) then Response(shop, Err(BadRequest))
    else if discount && !OneDiscount(bps, cents) then Response(shop, Err(BadRequest))
    else if ch == NO_CHANGES then Response(shop, Err(BadRequest))
    else if id !in shop.coupons then Response(shop, Err(NotFound))
    else
      var c := shop.coupons[id];
      Response(shop.(coupons := shop.coupons[id := Coupon(
        Given(ch.partner, c.partner),
        Given(ch.active, c.active),
        if discount then bps else c.discountBps,
        if discount then cents else c.discountCents,
        NewDate(ch.startsAt, c.startsAt),
        NewDate(ch.endsAt, c.endsAt),
        Given(ch.maxUses, c.maxUses),
        c.uses)]), Ok)
  }

  function Delete(shop: Shop, id: CouponId): Response {
    if id !in shop.coupons then Response(shop, Err(NotFound))
    else Response(shop.(coupons := shop.coupons[id := shop.coupons[id].(active := false)]), Ok)
  }

  // ----- checkout: a read, and later the transaction that uses the coupon and creates the order -----

  function CheckCoupon(shop: Shop, id: CouponId, now: int): Reply {
    if id !in shop.coupons || !shop.coupons[id].active then Err(BadRequest)
    else
      var c := shop.coupons[id];
      if c.partner.Some? && c.partner.value in shop.partners && !shop.partners[c.partner.value] then Err(BadRequest)
      else if !Truthy(c.discountBps) && !Truthy(c.discountCents) then Err(BadRequest)
      else if c.startsAt.Some? && c.startsAt.value > now then Err(BadRequest)
      else if c.endsAt.Some? && c.endsAt.value < now then Err(BadRequest)
      else if c.maxUses.Some? && c.uses >= c.maxUses.value then Err(BadRequest)
      else Ok
  }

  /** What a checkout keeps of the coupon it read. */
  datatype Reading = Reading(coupon: CouponId, maxUses: Option<int>)

  /** The increment, conditional on the limit that was read: without one, or with limit 0, it always happens. */
  function Consume(shop: Shop, r: Reading): Response {
    if r.coupon !in shop.coupons then Response(shop, Err(NotFound))
    else
      var c := shop.coupons[r.coupon];
      if Truthy(r.maxUses) && c.uses >= r.maxUses.value then Response(shop, Err(BadRequest))
      else Response(shop.(coupons := shop.coupons[r.coupon := c.(uses := c.uses + 1)]), Ok)
  }

  /** The order comes in the same transaction; when it cannot be written the use is undone with it. */
  function Checkout(shop: Shop, r: Reading, order: OrderId): Response {
    var used := Consume(shop, r);
    if used.reply.Err? then used
    else if order in shop.attributions then Response(shop, Err(Conflict))
    else Response(used.shop.(attributions := shop.attributions[order := Some(r.coupon)]), Ok)
  }

  class CouponsService {
    var coupons: map<CouponId, Coupon>
    var partners: map<PartnerId, bool>
    var attributions: map<OrderId, Option<CouponId>>

    function View(): Shop
      reads this
    {
      Shop(coupons, partners, attributions)
    }

    /** Every coupon's count is the number of its orders, and it has exactly one discount. */
    ghost predicate Valid()
      reads this
    {
      ShopInv(View())
    }

    constructor ()
      ensures View() == Shop(map[], map[], map[]) && Valid()
    {
      coupons, partners, attributions := map[], map[], map[];
    }

    method EnsurePartner(partner: Option<PartnerId>) returns (reply: Reply)
      ensures reply == if PartnerAllowed(View(), partner) then Ok else Err(BadRequest)
    {
      if partner.Some? {
        if partner.value !in partners {
          return Err(BadRequest);
        }
        if !partners[partner.value] {
          return Err(BadRequest);
        }
      }
      return Ok;
    }

    method CreateCoupon(id: CouponId, c: Coupon) returns (reply: Reply)
      requires Valid()
      modifies this`coupons
      ensures Response(View(), reply) == Create(old(View()), id, c) && Valid()
    {
      hide ShopInv;
      AdministrationKeeps(View(), DoCreate(id, c));
      if !OneDiscount(c.discountBps, c.discountCents) {
        return Err(BadRequest);
      }
      reply := EnsurePartner(c.partner);
      if reply.Err? {
        return;
      }
      if id in coupons {
        return Err(Conflict);
      }
      coupons := coupons[id := c.(uses := 0)];
    }

    method UpdateCoupon(id: CouponId, ch: Changes) returns (reply: Reply)
      requires Valid()
      modifies this`coupons
      ensures Response(View(), reply) == Update(old(View()), id, ch) && Valid()
    {
      hide ShopInv, OneDiscount;
      AdministrationKeeps(View(), DoUpdate(id, ch));
      if ch.partner.Some? {
        reply := EnsurePartner(ch.partner.value);
        if reply.Err? {
          return;
        }
      }
      if ch.discountBps.Some? || ch.discountCents.Some? {
        if !OneDiscount(Given(ch.discountBps, None), Given(ch.discountCents, None)) {
          return Err(BadRequest);
        }
      }
      if ch == NO_CHANGES {
        return Err(BadRequest);
      }
      if id !in coupons {
        return Err(NotFound);
      }
      var c := coupons[id];
      if ch.partner.Some? {
        c := c.(partner := ch.partner.value);
      }
      if ch.active.Some? {
        c := c.(active := ch.active.value);
      }
      if ch.discountBps.Some? || ch.discountCents.Some? {
        c := c.(discountBps := Given(ch.discountBps, None), discountCents := Given(ch.discountCents, None));
      }
      if ch.startsAt.Some? && ch.startsAt.value.Some? {
        c := c.(startsAt := ch.startsAt.value);
      }
      if ch.endsAt.Some? && ch.endsAt.value.Some? {
        c := c.(endsAt := ch.endsAt.value);
      }
      if ch.maxUses.Some? {
        c := c.(maxUses := ch.maxUses.value);
      }
      coupons := coupons[id := c];
      return Ok;
    }

    method DeleteCoupon(id: CouponId) returns (reply: Reply)
      requires Valid()
      modifies this`coupons
      ensures Response(View(), reply) == Delete(old(View()), id) && Valid()
    {
      hide ShopInv;
      AdministrationKeeps(View(), DoDelete(id));
      if id !in coupons {
        return Err(NotFound);
      }
      coupons := coupons[id := coupons[id].(active := false)];
      return Ok;
    }

    method GetValidCoupon(id: CouponId, now: int) returns (reply: Reply)
      ensures reply == CheckCoupon(View(), id, now)
    {
      if id !in coupons || !coupons[id].active {
        return Err(BadRequest);
      }
      var c := coupons[id];
      if c.partner.Some? && c.partner.value in partners && !partners[c.partner.value] {
        return Err(BadRequest);
      }
      if !Truthy(c.discountBps) && !Truthy(c.discountCents) {
        return Err(BadRequest);
      }
      if c.startsAt.Some? && c.startsAt.value > now {
        return Err(BadRequest);
      }
      if c.endsAt.Some? && c.endsAt.value < now {
        return Err(BadRequest);
      }
      if c.maxUses.Some? && c.uses >= c.maxUses.value {
        return Err(BadRequest);
      }
      return Ok;
    }

    /** The part of a checkout's transaction that concerns the coupon; a failure undoes it. */
    method UseCoupon(r: Reading, order: OrderId) returns (reply: Reply)
      requires Valid()
      modifies this`coupons, this`attributions
      ensures Response(View(), reply) == Checkout(old(View()), r, order) && Valid()
    {
      hide ShopInv;
      CheckoutKeeps(View(), r, order);
      var before := coupons;
      reply := ConsumeCouponUsage(r);
      if reply.Err? {
        return;
      }
      if order in attributions {
        coupons := before;
        return Err(Conflict);
      }
      attributions := attributions[order := Some(r.coupon)];
    }

    method ConsumeCouponUsage(r: Reading) returns (reply: Reply)
      modifies this`coupons
      ensures Response(View(), reply) == Consume(old(View()), r)
    {
      if r.coupon !in coupons {
        return Err(NotFound);
      }
      var c := coupons[r.coupon];
      if Truthy(r.maxUses) && c.uses >= r.maxUses.value {
        return Err(BadRequest);
      }
      coupons := coupons[r.coupon := c.(uses := c.uses + 1)];
      return Ok;
    }
  }

  // ----- runs -----

  datatype System = System(shop: Shop, started: seq<Reading>)

  datatype Step =
    | DoCreate(id: CouponId, coupon: Coupon)
    | DoUpdate(id: CouponId, changes: Changes)
    | DoDelete(id: CouponId)
    | DoSetPartner(partner: PartnerId, active: bool)
    | DoRead(id: CouponId, now: int)
    | DoCheckout(reading: nat, order: OrderId)
    | DoPlainCheckout(order: OrderId)

  function Next(s: System, step: Step): System {
    match step
    case DoCreate(id, c) => s.(shop := Create(s.shop, id, c).shop)
    case DoUpdate(id, changes) => s.(shop := Update(s.shop, id, changes).shop)
    case DoDelete(id) => s.(shop := Delete(s.shop, id).shop)
    case DoSetPartner(partner, active) => s.(shop := s.shop.(partners := s.shop.partners[partner := active]))
    case DoRead(id, now) =>
      if CheckCoupon(s.shop, id, now).Ok? then s.(started := s.started + [Reading(id, s.shop.coupons[id].maxUses)]) else s
    case DoCheckout(reading, order) =>
      if reading < |s.started| then s.(shop := Checkout(s.shop, s.started[reading], order).shop) else s
    case DoPlainCheckout(order) =>
      if order in s.shop.attributions then s
      else s.(shop := s.shop.(attributions := s.shop.attributions[order := None]))
  }

  /** A run: checkouts that have read a coupon use it later, in any order, or never. */
  function Run(s: System, steps: seq<Step>): System {
    if steps == [] then s else Next(Run(s, steps[..|steps| - 1]), steps[|steps| - 1])
  }

  const EMPTY: System := System(Shop(map[], map[], map[]), [])

  // ----- every use is an order -----

  function OrdersOf(shop: Shop, id: CouponId): set<OrderId> {
    set o | o in shop.attributions && shop.attributions[o] == Some(id)
  }

  ghost predicate ShopInv(shop: Shop) {
    && (forall id :: id in shop.coupons ==> shop.coupons[id].uses == |OrdersOf(shop, id)|)
    && (forall id :: id in shop.coupons ==> OneDiscount(shop.coupons[id].discountBps, shop.coupons[id].discountCents))
    && (forall o :: o in shop.attributions && shop.attributions[o].Some? ==> shop.attributions[o].value in shop.coupons)
  }

  lemma AttributedOnce(shop: Shop, after: Shop, order: OrderId, to: Option<CouponId>, id: CouponId)
    requires order !in shop.attributions && after.attributions == shop.attributions[order := to]
    ensures |OrdersOf(after, id)| == |OrdersOf(shop, id)| + (if to == Some(id) then 1 else 0)
  {
    assert OrdersOf(after, id) == OrdersOf(shop, id) + (if to == Some(id) then {order} else {});
  }

  lemma CheckoutKeeps(shop: Shop, r: Reading, order: OrderId)
    requires ShopInv(shop)
    ensures ShopInv(Checkout(shop, r, order).shop)
  {
    var after := Checkout(shop, r, order).shop;
    if after != shop {
      hide OrdersOf, OneDiscount;
      forall id | id in after.coupons ensures after.coupons[id].uses == |OrdersOf(after, id)| {
        AttributedOnce(shop, after, order, Some(r.coupon), id);
      }
    }
  }

  lemma PlainCheckoutKeeps(shop: Shop, after: Shop, order: OrderId)
    requires ShopInv(shop) && order !in shop.attributions
    requires after == shop.(attributions := shop.attributions[order := None])
    ensures ShopInv(after)
  {
    hide OrdersOf, OneDiscount;
    forall id | id in after.coupons ensures after.coupons[id].uses == |OrdersOf(after, id)| {
      AttributedOnce(shop, after, order, None, id);
    }
  }

  lemma EditKeeps(shop: Shop, after: Shop)
    requires ShopInv(shop) && after.attributions == shop.attributions && shop.coupons.Keys <= after.coupons.Keys
    requires forall id :: id in after.coupons ==>
      && after.coupons[id].uses == (if id in shop.coupons then shop.coupons[id].uses else 0)
      && OneDiscount(after.coupons[id].discountBps, after.coupons[id].discountCents)
    ensures ShopInv(after)
  {
    forall id | id in after.coupons ensures after.coupons[id].uses == |OrdersOf(after, id)| {
      assert OrdersOf(after, id) == OrdersOf(shop, id);
      if id !in shop.coupons {
        assert OrdersOf(after, id) == {};
      }
    }
  }

  lemma NextKeeps(s: System, step: Step)
    requires ShopInv(s.shop)
    ensures ShopInv(Next(s, step).shop)
  {
    if step.DoCheckout? {
      if step.reading < |s.started| {
        CheckoutKeeps(s.shop, s.started[step.reading], step.order);
      }
    } else if step.DoPlainCheckout? {
      if step.order !in s.shop.attributions {
        PlainCheckoutKeeps(s.shop, Next(s, step).shop, step.order);
      }
    } else {
      EditKeeps(s.shop, Next(s, step).shop);
    }
  }

  lemma AdministrationKeeps(shop: Shop, step: Step)
    requires ShopInv(shop) && (step.DoCreate? || step.DoUpdate? || step.DoDelete?)
    ensures ShopInv(Next(System(shop, []), step).shop)
  {
    NextKeeps(System(shop, []), step);
  }

  /** Over every run a coupon's count is the number of orders attributed to it, and it has exactly one discount. */
  lemma {:induction false} UsesAreOrders(steps: seq<Step>)
    ensures ShopInv(Run(EMPTY, steps).shop)
  {
    if steps != [] {
      UsesAreOrders(steps[..|steps| - 1]);
      NextKeeps(Run(EMPTY, steps[..|steps| - 1]), steps[|steps| - 1]);
    }
  }

  // ----- what the administration's calls mean -----

  /** Switched on, not of an inactive partner, and within its dates. */
  predicate Offered(shop: Shop, id: CouponId, now: int) {
    && id in shop.coupons
    && var c := shop.coupons[id];
    && c.active
    && (c.partner.Some? && c.partner.value in shop.partners ==> shop.partners[c.partner.value])
    && (c.startsAt.Some? ==> c.startsAt.value <= now) && (c.endsAt.Some? ==> now <= c.endsAt.value)
  }

  /** The check admits an offered coupon exactly when a checkout right away could still use it, with one exception: a
      coupon of limit 0 is refused although the increment would happen. That every coupon has a discount needs no check. */
  lemma ValidCouponIff(shop: Shop, id: CouponId, now: int)
    requires ShopInv(shop)
    ensures CheckCoupon(shop, id, now).Ok? <==>
              Offered(shop, id, now) && shop.coupons[id].maxUses != Some(0)
              && Consume(shop, Reading(id, shop.coupons[id].maxUses)).reply.Ok?
  {
    if id in shop.coupons {
      assert OneDiscount(shop.coupons[id].discountBps, shop.coupons[id].discountCents);
    }
  }

  /** So an order placed right after the check goes through, adds one use and stays within the limit. */
  lemma CheckedCouponCanBeUsed(shop: Shop, id: CouponId, now: int, order: OrderId)
    requires ShopInv(shop) && CheckCoupon(shop, id, now).Ok? && order !in shop.attributions
    ensures var r := Checkout(shop, Reading(id, shop.coupons[id].maxUses), order);
            && r.reply.Ok? && r.shop.attributions == shop.attributions[order := Some(id)]
            && r.shop.coupons[id].uses == shop.coupons[id].uses + 1 && ShopInv(r.shop)
            && (shop.coupons[id].maxUses.Some? ==> r.shop.coupons[id].uses <= shop.coupons[id].maxUses.value)
  {
    CheckoutKeeps(shop, Reading(id, shop.coupons[id].maxUses), order);
    hide ShopInv;
  }

  /** An update touches one coupon, leaves there what it does not name, never the count, and can be repeated; naming one
      kind of discount takes the other away. */
  lemma UpdateChangesWhatIsNamed(shop: Shop, id: CouponId, ch: Changes)
    requires Update(shop, id, ch).reply.Ok?
    ensures var after := Update(shop, id, ch).shop;
            && after.partners == shop.partners && after.attributions == shop.attributions
            && after.coupons.Keys == shop.coupons.Keys && after.coupons - {id} == shop.coupons - {id}
            && var c, d := shop.coupons[id], after.coupons[id];
            && d.uses == c.uses
            && (ch.partner.None? ==> d.partner == c.partner) && (ch.active.None? ==> d.active == c.active)
            && (ch.startsAt.None? ==> d.startsAt == c.startsAt) && (ch.endsAt.None? ==> d.endsAt == c.endsAt)
            && (ch.maxUses.None? ==> d.maxUses == c.maxUses)
            && (ch.discountBps.None? && ch.discountCents.None? ==>
                  d.discountBps == c.discountBps && d.discountCents == c.discountCents)
            && (Truthy(Given(ch.discountBps, None)) ==> d.discountBps == ch.discountBps.value && !Truthy(d.discountCents))
            && (Truthy(Given(ch.discountCents, None)) ==> d.discountCents == ch.discountCents.value && !Truthy(d.discountBps))
    ensures Update(Update(shop, id, ch).shop, id, ch) == Update(shop, id, ch)
  {
    var once := Update(shop, id, ch).shop;
    assert once.coupons[id := once.coupons[id]] == once.coupons;
  }

  predicate NoDiscount(discount: Option<int>) { discount == None || discount == Some(0) }

  /** A creation needs a free id and an update a coupon and something to change; either way the partner named is an active
      one, and of the two discounts exactly one is there and not 0. Deleting is the update that switches off. */
  lemma AdministrationAcceptsIff(shop: Shop, id: CouponId, c: Coupon, ch: Changes)
    ensures Create(shop, id, c).reply.Ok? <==>
              && id !in shop.coupons
              && (c.partner.Some? ==> c.partner.value in shop.partners && shop.partners[c.partner.value])
              && (NoDiscount(c.discountBps) != NoDiscount(c.discountCents))
    ensures Update(shop, id, ch).reply.Ok? <==>
              && id in shop.coupons && ch != NO_CHANGES
              && (ch.partner.Some? && ch.partner.value.Some? ==>
                    ch.partner.value.value in shop.partners && shop.partners[ch.partner.value.value])
              && ((ch.discountBps.None? && ch.discountCents.None?)
                  || NoDiscount(Given(ch.discountBps, None)) != NoDiscount(Given(ch.discountCents, None)))
    ensures id in shop.coupons ==> Delete(shop, id) == Update(shop, id, NO_CHANGES.(active := Some(false)))
    ensures Update(shop, id, ch).reply.Err? ==> Update(shop, id, ch).shop == shop
  {
  }

  predicate SwitchesOff(step: Step, p: PartnerId) { step.DoSetPartner? && step.partner == p && !step.active }

  /** Over every run a coupon's partner is a known one, and an active one as long as none is switched off. */
  lemma {:induction false} PartnersStand(steps: seq<Step>, id: CouponId)
    ensures var shop := Run(EMPTY, steps).shop;
            id in shop.coupons && shop.coupons[id].partner.Some? ==>
              var p := shop.coupons[id].partner.value;
              && p in shop.partners
              && ((forall i :: 0 <= i < |steps| ==> !SwitchesOff(steps[i], p)) ==> shop.partners[p])
  {
    if steps != [] {
      var init := steps[..|steps| - 1];
      PartnersStand(init, id);
    }
  }

  predicate Reactivates(step: Step, id: CouponId) { step.DoUpdate? && step.id == id && step.changes.active == Some(true) }

  /** After a coupon is deleted, and until it is switched on again, no checkout is admitted with it: the only ones still to
      use it are those that had read it before. */
  lemma DeletedCouponIsRefused(s: System, steps: seq<Step>, id: CouponId, now: int)
    requires Delete(s.shop, id).reply.Ok?
    requires forall i :: 0 <= i < |steps| ==> !Reactivates(steps[i], id)
    ensures var later := Run(Next(s, DoDelete(id)), steps);
            && CheckCoupon(later.shop, id, now) == Err(BadRequest)
            && s.started <= later.started
            && forall r :: r in later.started[|s.started|..] ==> r.coupon != id
  {
    RunStaysInactive(Next(s, DoDelete(id)), steps, id);
  }

  lemma {:induction false} RunStaysInactive(s: System, steps: seq<Step>, id: CouponId)
    requires id in s.shop.coupons && !s.shop.coupons[id].active
    requires forall i :: 0 <= i < |steps| ==> !Reactivates(steps[i], id)
    ensures var later := Run(s, steps);
            && id in later.shop.coupons && !later.shop.coupons[id].active
            && s.started <= later.started
            && forall r :: r in later.started[|s.started|..] ==> r.coupon != id
  {
    if steps != [] {
      RunStaysInactive(s, steps[..|steps| - 1], id);
      InactiveStays(Run(s, steps[..|steps| - 1]), steps[|steps| - 1], id);
    }
  }

  lemma InactiveStays(s: System, step: Step, id: CouponId)
    requires id in s.shop.coupons && !s.shop.coupons[id].active && !Reactivates(step, id)
    ensures var next := Next(s, step);
            && id in next.shop.coupons && !next.shop.coupons[id].active
            && (next.started == s.started || (|next.started| == |s.started| + 1 && s.started == next.started[..|s.started|]
                  && next.started[|s.started|].coupon != id))
  {
  }

  // ----- the limit -----

  predicate KeepsLimit(step: Step, id: CouponId) { !(step.DoUpdate? && step.id == id && step.changes.maxUses.Some?) }

  /** A coupon within its limit, and checkouts under way that all know this limit. */
  ghost predicate Limited(s: System, id: CouponId, limit: int) {
    && id in s.shop.coupons && s.shop.coupons[id].maxUses == Some(limit) && s.shop.coupons[id].uses <= limit
    && (forall r :: r in s.started && r.coupon == id ==> limit != 0 && r.maxUses == Some(limit))
  }

  lemma LimitedStep(s: System, step: Step, id: CouponId, limit: int)
    requires Limited(s, id, limit) && KeepsLimit(step, id)
    ensures Limited(Next(s, step), id, limit)
  {
  }

  /** As long as the limit is not edited, no number of checkouts that read the coupon first takes it over the limit.
      Limit 0 included: its unconditional increment is never reached, because no read admits such a coupon. */
  lemma {:induction false} LimitHolds(s: System, steps: seq<Step>, id: CouponId, limit: int)
    requires Limited(s, id, limit) && forall i :: 0 <= i < |steps| ==> KeepsLimit(steps[i], id)
    ensures Limited(Run(s, steps), id, limit)
  {
    if steps != [] {
      LimitHolds(s, steps[..|steps| - 1], id, limit);
      LimitedStep(Run(s, steps[..|steps| - 1]), steps[|steps| - 1], id, limit);
    }
  }

  lemma NewCouponIsLimited(s: System, id: CouponId, c: Coupon, limit: nat)
    requires Create(s.shop, id, c).reply.Ok? && c.maxUses == Some(limit) && forall r :: r in s.started ==> r.coupon != id
    ensures Limited(Next(s, DoCreate(id, c)), id, limit)
  {
  }

  /** A checkout passes a limit it has not read exactly when the coupon is used up and the limit it did read is
      absent, zero or higher. */
  lemma StaleReadingOvershootsIff(shop: Shop, r: Reading, limit: int)
    requires r.coupon in shop.coupons && shop.coupons[r.coupon].uses <= limit
    ensures Consume(shop, r).shop.coupons[r.coupon].uses > limit
       <==> shop.coupons[r.coupon].uses == limit && (!Truthy(r.maxUses) || r.maxUses.value > limit)
  {
  }

  ghost predicate IsReachable(s: System) { exists steps :: s == Run(EMPTY, steps) }

  lemma ReachableNext(s: System, step: Step)
    requires IsReachable(s)
    ensures IsReachable(Next(s, step))
  {
    var steps :| s == Run(EMPTY, steps);
    assert (steps + [step])[..|steps|] == steps;
    assert Next(s, step) == Run(EMPTY, steps + [step]);
  }

  /** It can happen: the limit is lowered from 2 to 1 while a second checkout is under way. */
  lemma LoweredLimitIsPassed() returns (s: System)
    ensures IsReachable(s) && 0 in s.shop.coupons
    ensures s.shop.coupons[0].maxUses == Some(1) && s.shop.coupons[0].uses == 2
  {
    var c := Coupon(None, true, Some(1000), None, None, None, Some(2), 0);
    var s1 := Next(EMPTY, DoCreate(0, c));
    assert s1.shop.coupons[0] == c && s1.shop.attributions == map[];
    var s2 := Next(s1, DoRead(0, 0));
    var s3 := Next(s2, DoRead(0, 0));
    assert s3 == s1.(started := [Reading(0, Some(2)), Reading(0, Some(2))]);
    var s4 := Next(s3, DoCheckout(0, 10));
    assert s4.shop.coupons[0] == c.(uses := 1) && s4.shop.attributions.Keys == {10};
    var s5 := Next(s4, DoUpdate(0, NO_CHANGES.(maxUses := Some(Some(1)))));
    assert s5.shop.coupons[0] == c.(uses := 1, maxUses := Some(1)) && s5.started == s3.started;
    s := Next(s5, DoCheckout(1, 11));
    assert EMPTY == Run(EMPTY, []);
    hide Next, IsReachable;
    ReachableNext(EMPTY, DoCreate(0, c));
    ReachableNext(s1, DoRead(0, 0));
    ReachableNext(s2, DoRead(0, 0));
    ReachableNext(s3, DoCheckout(0, 10));
    ReachableNext(s4, DoUpdate(0, NO_CHANGES.(maxUses := Some(Some(1)))));
    ReachableNext(s5, DoCheckout(1, 11));
  }

  /** Checkouts that all read the coupon before any used it: exactly as many succeed as uses were left. */
  lemma {:induction false} ExactlyTheRestSucceed(shop: Shop, id: CouponId, limit: int, orders: seq<OrderId>)
    requires id in shop.coupons && 0 < limit && shop.coupons[id].uses <= limit
    requires forall i :: 0 <= i < |orders| ==> orders[i] !in shop.attributions
    requires forall i, j :: 0 <= i < j < |orders| ==> orders[i] != orders[j]
    ensures var after := AllCheckOut(shop, Reading(id, Some(limit)), orders);
            && id in after.coupons
            && after.coupons[id].uses == Min(limit, shop.coupons[id].uses + |orders|)
            && after.attributions.Keys <= shop.attributions.Keys + set i | 0 <= i < |orders| :: orders[i]
  {
    if orders != [] {
      var init := orders[..|orders| - 1];
      ExactlyTheRestSucceed(shop, id, limit, init);
      assert orders[|orders| - 1] !in AllCheckOut(shop, Reading(id, Some(limit)), init).attributions;
    }
  }

  function AllCheckOut(shop: Shop, r: Reading, orders: seq<OrderId>): Shop {
    if orders == [] then shop else Checkout(AllCheckOut(shop, r, orders[..|orders| - 1]), r, orders[|orders| - 1]).shop
  }
}
