/** Stock codes of automatic listings, and which order item holds which unit. */
module Inventory {
  import opened Wrappers

  type ListingId = nat
  type ItemId = nat
  type UserId = nat
  type UnitId = nat

  datatype UnitStatus = Available | Reserved | Delivered | Disabled

  datatype StockUnit = StockUnit(listing: ListingId, code: string, status: UnitStatus, holder: Option<ItemId>)

  datatype Listing = Listing(seller: UserId, auto: bool)

  /** A unit's id is its place in the table; rows are never deleted. An order item may have lost its listing. */
  datatype Store = Store(
    listings: map<ListingId, Listing>,
    items: map<ItemId, Option<ListingId>>,
    units: seq<StockUnit>)

  datatype Answer = Refused(error: Error) | Added(created: nat, skipped: nat) | Done(unit: UnitId)

  datatype Response = Response(units: seq<StockUnit>, answer: Answer)

  // ----- codes -----

  /** What String.prototype.trim removes. */
  predicate IsSpace(c: char) {
    || c == ' ' || c == '\t' || c == '\n' || c == '\r' || c == '\U{000B}' || c == '\U{000C}' || c == '\U{00A0}'
    || c == '\U{1680}' || '\U{2000}' <= c <= '\U{200A}' || c == '\U{2028}' || c == '\U{2029}' || c == '\U{202F}'
    || c == '\U{205F}' || c == '\U{3000}' || c == '\U{FEFF}'
  }

  function Trim(s: string): string {
    if s == [] then []
    else if IsSpace(s[0]) then Trim(s[1..])
    else if IsSpace(s[|s| - 1]) then Trim(s[..|s| - 1])
    else s
  }

  /** Trimmed, without empty codes, each once, in order of first appearance. */
  function NormalizeCodes(codes: seq<string>): seq<string> {
    if codes == [] then []
    else
      var before, code := NormalizeCodes(codes[..|codes| - 1]), Trim(codes[|codes| - 1]);
      if code == "" || code in before then before else before + [code]
  }

  // ----- the table -----

  predicate HasCode(units: seq<StockUnit>, listing: ListingId, code: string) {
    exists u :: 0 <= u < |units| && units[u].listing == listing && units[u].code == code
  }

  function Missing(units: seq<StockUnit>, listing: ListingId, codes: seq<string>): (r: seq<string>)
    ensures |r| <= |codes|
  {
    if codes == [] then []
    else
      var before, code := Missing(units, listing, codes[..|codes| - 1]), codes[|codes| - 1];
      if HasCode(units, listing, code) then before else before + [code]
  }

  /** createMany: one available unit for every code. */
  function NewUnits(listing: ListingId, codes: seq<string>): (r: seq<StockUnit>)
    ensures |r| == |codes|
    ensures forall i :: 0 <= i < |codes| ==> r[i] == StockUnit(listing, codes[i], Available, None)
  {
    seq(|codes|, i requires 0 <= i < |codes| => StockUnit(listing, codes[i], Available, None))
  }

  function CheckListing(s: Store, user: UserId, admin: bool, listing: ListingId): Option<Error> {
    if listing !in s.listings then Some(NotFound)
    else if s.listings[listing].seller != user && !admin then Some(NotFound)
    else if !s.listings[listing].auto then Some(BadRequest)
    else None
  }

  function AddItems(s: Store, user: UserId, admin: bool, listing: ListingId, codes: seq<string>): Response {
    var checked, normalized := CheckListing(s, user, admin, listing), NormalizeCodes(codes);
    if checked.Some? then Response(s.units, Refused(checked.value))
    else if normalized == [] then Response(s.units, Refused(BadRequest))
    else
      var toCreate := Missing(s.units, listing, normalized);
      Response(s.units + NewUnits(listing, toCreate), Added(|toCreate|, |normalized| - |toCreate|))
  }

  predicate IsUnitOf(units: seq<StockUnit>, unit: UnitId, listing: ListingId) {
    unit < |units| && units[unit].listing == listing
  }

  function RemoveItem(s: Store, user: UserId, admin: bool, listing: ListingId, unit: UnitId): Response {
    var checked := CheckListing(s, user, admin, listing);
    if checked.Some? then Response(s.units, Refused(checked.value))
    else if !IsUnitOf(s.units, unit, listing) then Response(s.units, Refused(NotFound))
    else Response(s.units[unit := s.units[unit].(status := Disabled)], Done(unit))
  }

  predicate CodeTaken(units: seq<StockUnit>, listing: ListingId, code: string, except: UnitId) {
    exists u :: 0 <= u < |units| && u != except && units[u].listing == listing && units[u].code == code
  }

  /** A unit made available again gives up its order item. */
  function Edited(u: StockUnit, code: Option<string>, status: Option<UnitStatus>): StockUnit {
    StockUnit(u.listing,
      if code.Some? then Trim(code.value) else u.code,
      if status.Some? then status.value else u.status,
      if status == Some(Available) then None else u.holder)
  }

  function UpdateItem(s: Store, user: UserId, admin: bool, listing: ListingId, unit: UnitId,
                      code: Option<string>, status: Option<UnitStatus>): Response {
    var checked := CheckListing(s, user, admin, listing);
    if checked.Some? then Response(s.units, Refused(checked.value))
    else if code.Some? && Trim(code.value) == "" then Response(s.units, Refused(BadRequest))
    else if code.Some? && CodeTaken(s.units, listing, Trim(code.value), unit) then Response(s.units, Refused(Conflict))
    else if !IsUnitOf(s.units, unit, listing) then Response(s.units, Refused(NotFound))
    else Response(s.units[unit := Edited(s.units[unit], code, status)], Done(unit))
  }

  /** The first unit an order item holds. */
  function HeldBy(units: seq<StockUnit>, item: ItemId): (r: Option<UnitId>)
    ensures r.Some? ==> r.value < |units| && units[r.value].holder == Some(item)
    ensures r.None? ==> forall u :: 0 <= u < |units| ==> units[u].holder != Some(item)
  {
    if units == [] then None
    else
      var r := HeldBy(units[..|units| - 1], item);
      if r.Some? then r
      else if units[|units| - 1].holder == Some(item) then Some(|units| - 1)
      else None
  }

  predicate IsFree(units: seq<StockUnit>, listing: ListingId, unit: UnitId) {
    IsUnitOf(units, unit, listing) && units[unit].status == Available && units[unit].holder.None?
  }

  /** The row the query returns: it may be any free unit, so the caller's pick is taken when it is one. */
  function FreeUnit(units: seq<StockUnit>, listing: ListingId, pick: UnitId): (r: Option<UnitId>)
    ensures r.Some? ==> IsFree(units, listing, r.value)
    ensures r.None? ==> forall u :: 0 <= u < |units| ==> !IsFree(units, listing, u)
  {
    if IsFree(units, listing, pick) then Some(pick) else FirstFree(units, listing, 0)
  }

  function FirstFree(units: seq<StockUnit>, listing: ListingId, from: nat): (r: Option<UnitId>)
    ensures r.Some? ==> IsFree(units, listing, r.value)
    ensures r.None? ==> forall u :: from <= u < |units| ==> !IsFree(units, listing, u)
    decreases |units| - from
  {
    if from >= |units| then None
    else if IsFree(units, listing, from) then Some(from)
    else FirstFree(units, listing, from + 1)
  }

  /** One unit, whatever the quantity of the order item. */
  function ReserveItem(s: Store, listing: ListingId, item: ItemId, pick: UnitId): Response {
    if listing !in s.listings then Response(s.units, Refused(NotFound))
    else if !s.listings[listing].auto then Response(s.units, Refused(BadRequest))
    else if item !in s.items then Response(s.units, Refused(NotFound))
    else if s.items[item].Some? && s.items[item].value != listing then Response(s.units, Refused(BadRequest))
    else
      var held := HeldBy(s.units, item);
      if held.Some? then
        if s.units[held.value].listing != listing then Response(s.units, Refused(BadRequest))
        else Response(s.units, Done(held.value))
      else
        var free := FreeUnit(s.units, listing, pick);
        if free.None? then Response(s.units, Refused(Conflict))
        else Response(s.units[free.value := s.units[free.value].(status := Reserved, holder := Some(item))],
          Done(free.value))
  }

  // ----- the service -----

  class InventoryService {
    var listings: map<ListingId, Listing>
    var items: map<ItemId, Option<ListingId>>
    var units: seq<StockUnit>

    function View(): Store
      reads this
    {
      Store(listings, items, units)
    }

    /** Codes of a listing differ, available units are unheld, and no order item holds two units. */
    ghost predicate Valid()
      reads this
    {
      StockInv(units)
    }

    constructor (listings: map<ListingId, Listing>, items: map<ItemId, Option<ListingId>>)
      ensures View() == Store(listings, items, []) && Valid()
    {
      this.listings, this.items, units := listings, items, [];
    }

    method AddInventoryItems(user: UserId, admin: bool, listing: ListingId, codes: seq<string>)
      returns (answer: Answer)
      requires Valid()
      modifies this`units
      ensures Response(units, answer) == AddItems(old(View()), user, admin, listing, codes) && Valid()
    {
      hide StockInv;
      NextKeeps(View(), DoAdd(user, admin, listing, codes));
      var checked := CheckListing(View(), user, admin, listing);
      if checked.Some? {
        return Refused(checked.value);
      }
      var normalized := NormalizeCodes(codes);
      if |normalized| == 0 {
        return Refused(BadRequest);
      }
      var toCreate := Missing(units, listing, normalized);
      if |toCreate| == 0 {
        return Added(0, |normalized|);
      }
      units := units + NewUnits(listing, toCreate);
      return Added(|toCreate|, |normalized| - |toCreate|);
    }

    method RemoveInventoryItem(user: UserId, admin: bool, listing: ListingId, unit: UnitId) returns (answer: Answer)
      requires Valid()
      modifies this`units
      ensures Response(units, answer) == RemoveItem(old(View()), user, admin, listing, unit) && Valid()
    {
      hide StockInv;
      NextKeeps(View(), DoRemove(user, admin, listing, unit));
      var checked := CheckListing(View(), user, admin, listing);
      if checked.Some? {
        return Refused(checked.value);
      }
      if !IsUnitOf(units, unit, listing) {
        return Refused(NotFound);
      }
      units := units[unit := units[unit].(status := Disabled)];
      return Done(unit);
    }

    method UpdateInventoryItem(user: UserId, admin: bool, listing: ListingId, unit: UnitId,
                               code: Option<string>, status: Option<UnitStatus>) returns (answer: Answer)
      requires Valid()
      modifies this`units
      ensures Response(units, answer) == UpdateItem(old(View()), user, admin, listing, unit, code, status) && Valid()
    {
      hide StockInv;
      NextKeeps(View(), DoUpdate(user, admin, listing, unit, code, status));
      var checked := CheckListing(View(), user, admin, listing);
      if checked.Some? {
        return Refused(checked.value);
      }
      if code.Some? {
        var trimmed := Trim(code.value);
        if trimmed == "" {
          return Refused(BadRequest);
        }
        if CodeTaken(units, listing, trimmed, unit) {
          return Refused(Conflict);
        }
      }
      if !IsUnitOf(units, unit, listing) {
        return Refused(NotFound);
      }
      var row := units[unit];
      if code.Some? {
        row := row.(code := Trim(code.value));
      }
      if status.Some? {
        row := row.(status := status.value);
        if status.value == Available {
          row := row.(holder := None);
        }
      }
      units := units[unit := row];
      return Done(unit);
    }

    method ReserveInventoryItem(listing: ListingId, item: ItemId, pick: UnitId) returns (answer: Answer)
      requires Valid()
      modifies this`units
      ensures Response(units, answer) == ReserveItem(old(View()), listing, item, pick) && Valid()
    {
      hide StockInv;
      NextKeeps(View(), DoReserve(listing, item, pick));
      if listing !in listings {
        return Refused(NotFound);
      }
      if !listings[listing].auto {
        return Refused(BadRequest);
      }
      if item !in items {
        return Refused(NotFound);
      }
      if items[item].Some? && items[item].value != listing {
        return Refused(BadRequest);
      }
      var existing := HeldBy(units, item);
      if existing.Some? {
        if units[existing.value].listing != listing {
          return Refused(BadRequest);
        }
        return Done(existing.value);
      }
      var row := FreeUnit(units, listing, pick);
      if row.None? {
        return Refused(Conflict);
      }
      units := units[row.value := units[row.value].(status := Reserved, holder := Some(item))];
      return Done(row.value);
    }
  }

  // ----- codes, proved -----

  predicate Distinct(codes: seq<string>) { forall i, j :: 0 <= i < j < |codes| ==> codes[i] != codes[j] }

  lemma {:induction false} Normalized(codes: seq<string>)
    ensures Distinct(NormalizeCodes(codes))
    ensures forall c :: c in NormalizeCodes(codes) <==> c != "" && exists i :: 0 <= i < |codes| && Trim(codes[i]) == c
  {
    if codes != [] {
      var init, last := codes[..|codes| - 1], Trim(codes[|codes| - 1]);
      Normalized(init);
      forall c ensures c in NormalizeCodes(codes)
                  <==> c != "" && exists i :: 0 <= i < |codes| && Trim(codes[i]) == c {
        if c != "" && exists i :: 0 <= i < |codes| && Trim(codes[i]) == c {
          var i :| 0 <= i < |codes| && Trim(codes[i]) == c;
          assert i < |init| ==> Trim(init[i]) == c;
        }
        if c in NormalizeCodes(init) {
          var i :| 0 <= i < |init| && Trim(init[i]) == c;
          assert Trim(codes[i]) == c;
        }
      }
    }
  }

  lemma {:induction false} MissingIsPart(units: seq<StockUnit>, listing: ListingId, codes: seq<string>)
    ensures forall c :: c in Missing(units, listing, codes) <==> c in codes && !HasCode(units, listing, c)
    ensures Distinct(codes) ==> Distinct(Missing(units, listing, codes))
  {
    if codes != [] {
      MissingIsPart(units, listing, codes[..|codes| - 1]);
      assert codes == codes[..|codes| - 1] + [codes[|codes| - 1]];
    }
  }

  /** Trimming takes white space off both ends, all of it, and nothing else. */
  lemma {:induction false} Trimmed(s: string) returns (i: nat, j: nat)
    ensures i <= j <= |s| && Trim(s) == s[i..j]
    ensures forall k :: 0 <= k < i || j <= k < |s| ==> IsSpace(s[k])
    ensures i < j ==> !IsSpace(s[i]) && !IsSpace(s[j - 1])
  {
    hide IsSpace;
    if s == "" {
      i, j := 0, 0;
    } else if IsSpace(s[0]) {
      i, j := Trimmed(s[1..]);
      assert s[1..][i..j] == s[i + 1..j + 1];
      assert forall k :: 0 < k < |s| ==> s[k] == s[1..][k - 1];
      i, j := i + 1, j + 1;
    } else if IsSpace(s[|s| - 1]) {
      i, j := Trimmed(s[..|s| - 1]);
      assert s[..|s| - 1][i..j] == s[i..j];
    } else {
      i, j := 0, |s|;
      assert s[0..|s|] == s;
    }
  }

  // ----- what an edit does -----

  /** The listing is an automatic one of this user, or of anyone for an administrator. */
  predicate MayEdit(s: Store, user: UserId, admin: bool, listing: ListingId) {
    listing in s.listings && (admin || s.listings[listing].seller == user) && s.listings[listing].auto
  }

  /** An update goes through exactly for a unit of such a listing and a code that is not empty and that no other unit of
      the listing has; it touches that unit only, and there what it names. A removal switches the unit off. */
  lemma EditsTakeEffect(s: Store, user: UserId, admin: bool, listing: ListingId, unit: UnitId,
                        code: Option<string>, status: Option<UnitStatus>)
    ensures var r := UpdateItem(s, user, admin, listing, unit, code, status);
            && (r.answer == Done(unit) <==>
                  && MayEdit(s, user, admin, listing) && unit < |s.units| && s.units[unit].listing == listing
                  && (code.Some? ==> Trim(code.value) != "" && forall u :: 0 <= u < |s.units| && u != unit ==>
                        s.units[u].listing != listing || s.units[u].code != Trim(code.value)))
            && (r.answer != Done(unit) ==> r.answer.Refused? && r.units == s.units)
            && (r.answer == Done(unit) ==>
                  && Touched(s.units, r.units, unit)
                  && (code.Some? ==> r.units[unit].code == Trim(code.value))
                  && (code.None? ==> r.units[unit].code == s.units[unit].code)
                  && (status.Some? ==> r.units[unit].status == status.value)
                  && (status.None? ==> r.units[unit].status == s.units[unit].status)
                  && r.units[unit].holder == if status == Some(Available) then None else s.units[unit].holder)
    ensures var r := RemoveItem(s, user, admin, listing, unit);
            && (r.answer == Done(unit) <==>
                  MayEdit(s, user, admin, listing) && unit < |s.units| && s.units[unit].listing == listing)
            && (r.answer == Done(unit) ==>
                  && Touched(s.units, r.units, unit)
                  && r.units[unit] == s.units[unit].(status := Disabled))
  {
  }

  predicate Touched(before: seq<StockUnit>, after: seq<StockUnit>, unit: UnitId) {
    && unit < |before| == |after| && after[unit].listing == before[unit].listing
    && forall u :: 0 <= u < |before| && u != unit ==> after[u] == before[u]
  }

  // ----- what every call keeps -----

  ghost predicate DistinctCodes(units: seq<StockUnit>) {
    forall u, v :: 0 <= u < v < |units| && units[u].listing == units[v].listing ==> units[u].code != units[v].code
  }

  ghost predicate AvailableUnheld(units: seq<StockUnit>) {
    forall u :: 0 <= u < |units| && units[u].status == Available ==> units[u].holder.None?
  }

  ghost predicate OneUnitEach(units: seq<StockUnit>) {
    forall u, v :: 0 <= u < v < |units| && units[u].holder.Some? ==> units[u].holder != units[v].holder
  }

  ghost predicate StockInv(units: seq<StockUnit>) {
    DistinctCodes(units) && AvailableUnheld(units) && OneUnitEach(units)
  }

  /** Writing planned units keeps codes distinct exactly when, at that moment, none of them is there yet: an add that
      reads and writes in one go satisfies this, two overlapping adds of one code do not. */
  lemma CreateManyKeepsDistinctIff(units: seq<StockUnit>, listing: ListingId, codes: seq<string>)
    requires DistinctCodes(units) && Distinct(codes)
    ensures DistinctCodes(units + NewUnits(listing, codes))
       <==> forall c :: c in codes ==> !HasCode(units, listing, c)
  {
    var all := units + NewUnits(listing, codes);
    if exists c :: c in codes && HasCode(units, listing, c) {
      var c :| c in codes && HasCode(units, listing, c);
      var i :| 0 <= i < |codes| && codes[i] == c;
      var u :| 0 <= u < |units| && units[u].listing == listing && units[u].code == c;
      assert all[u].code == all[|units| + i].code;
    } else {
      forall u, v | 0 <= u < v < |all| && all[u].listing == all[v].listing ensures all[u].code != all[v].code {
        if u < |units| <= v {
          assert all[v].code in codes && !HasCode(units, listing, all[v].code);
        }
      }
    }
  }

  /** So two adds that both look for missing codes before either writes keep codes distinct only if there are none. */
  lemma OverlappingAddsIff(units: seq<StockUnit>, listing: ListingId, codes: seq<string>)
    requires DistinctCodes(units)
    ensures var planned := NewUnits(listing, Missing(units, listing, NormalizeCodes(codes)));
            DistinctCodes(units + planned + planned) <==> planned == []
  {
    var missing := Missing(units, listing, NormalizeCodes(codes));
    Normalized(codes);
    MissingIsPart(units, listing, NormalizeCodes(codes));
    CreateManyKeepsDistinctIff(units, listing, missing);
    var once := units + NewUnits(listing, missing);
    CreateManyKeepsDistinctIff(once, listing, missing);
    if missing != [] {
      assert once[|units|].code == missing[0] && missing[0] in missing;
      assert HasCode(once, listing, missing[0]);
    } else {
      assert once + NewUnits(listing, missing) == units;
    }
  }

  /** It happens on an empty stock: each of the two calls would have been fine alone. */
  lemma OverlappingAddsClash(user: UserId, listing: ListingId)
    ensures var s := Store(map[listing := Listing(user, true)], map[], []);
            var r := AddItems(s, user, false, listing, ["A"]);
            r.answer == Added(1, 0) && DistinctCodes(r.units) && !DistinctCodes(r.units + r.units)
  {
    var s := Store(map[listing := Listing(user, true)], map[], []);
    assert ["A"][..0] == [] && Trim("A") == "A" && NormalizeCodes([]) == [];
    assert NormalizeCodes(["A"]) == ["A"];
    assert Missing([], listing, []) == [] && Missing([], listing, ["A"]) == ["A"];
    var r := AddItems(s, user, false, listing, ["A"]);
    assert r.units == NewUnits(listing, ["A"]);
    assert (r.units + r.units)[0] == (r.units + r.units)[1];
  }

  lemma AddKeeps(s: Store, user: UserId, admin: bool, listing: ListingId, codes: seq<string>)
    requires StockInv(s.units)
    ensures var r := AddItems(s, user, admin, listing, codes);
            && StockInv(r.units) && s.units <= r.units
            && (r.answer.Added? ==>
                  && r.answer.created + r.answer.skipped == |NormalizeCodes(codes)|
                  && |r.units| == |s.units| + r.answer.created
                  && forall c :: c in NormalizeCodes(codes) ==> HasCode(r.units, listing, c))
  {
    var normalized := NormalizeCodes(codes);
    Normalized(codes);
    MissingIsPart(s.units, listing, normalized);
    var toCreate := Missing(s.units, listing, normalized);
    CreateManyKeepsDistinctIff(s.units, listing, toCreate);
    var all := s.units + NewUnits(listing, toCreate);
    forall c | c in normalized ensures HasCode(all, listing, c) {
      if c in toCreate {
        var i :| 0 <= i < |toCreate| && toCreate[i] == c;
        assert all[|s.units| + i].code == c;
      } else {
        var u :| 0 <= u < |s.units| && s.units[u].listing == listing && s.units[u].code == c;
        assert all[u].code == c;
      }
    }
  }

  // ----- runs -----

  datatype Step =
    | DoAdd(user: UserId, admin: bool, listing: ListingId, codes: seq<string>)
    | DoRemove(user: UserId, admin: bool, listing: ListingId, unit: UnitId)
    | DoUpdate(user: UserId, admin: bool, listing: ListingId, unit: UnitId, code: Option<string>,
               status: Option<UnitStatus>)
    | DoReserve(listing: ListingId, item: ItemId, pick: UnitId)
    | DoSetListing(listing: ListingId, row: Listing)
    | DoSetItem(item: ItemId, of: Option<ListingId>)

  function Call(s: Store, step: Step): Response {
    match step
    case DoAdd(user, admin, listing, codes) => AddItems(s, user, admin, listing, codes)
    case DoRemove(user, admin, listing, unit) => RemoveItem(s, user, admin, listing, unit)
    case DoUpdate(user, admin, listing, unit, code, status) => UpdateItem(s, user, admin, listing, unit, code, status)
    case DoReserve(listing, item, pick) => ReserveItem(s, listing, item, pick)
    case _ => Response(s.units, Added(0, 0))
  }

  function Next(s: Store, step: Step): Store {
    match step
    case DoSetListing(listing, row) => s.(listings := s.listings[listing := row])
    case DoSetItem(item, of) => s.(items := s.items[item := of])
    case _ => s.(units := Call(s, step).units)
  }

  function Run(s: Store, steps: seq<Step>): Store {
    if steps == [] then s else Next(Run(s, steps[..|steps| - 1]), steps[|steps| - 1])
  }

  /** The only call that takes a unit from its order item. */
  predicate Frees(step: Step, unit: UnitId) { step.DoUpdate? && step.unit == unit && step.status == Some(Available) }

  predicate NeverFrees(steps: seq<Step>, unit: UnitId) { forall i :: 0 <= i < |steps| ==> !Frees(steps[i], unit) }

  ghost predicate KeepsUnits(before: seq<StockUnit>, after: seq<StockUnit>) {
    |before| <= |after| && forall u :: 0 <= u < |before| ==> after[u].listing == before[u].listing
  }

  lemma ReserveKeeps(s: Store, listing: ListingId, item: ItemId, pick: UnitId)
    requires StockInv(s.units)
    ensures var r := ReserveItem(s, listing, item, pick);
            && StockInv(r.units) && KeepsUnits(s.units, r.units)
            && (forall u :: 0 <= u < |s.units| && s.units[u].holder.Some? ==> r.units[u] == s.units[u])
  {
  }

  lemma NextKeeps(s: Store, step: Step)
    requires StockInv(s.units)
    ensures StockInv(Next(s, step).units) && KeepsUnits(s.units, Next(s, step).units)
    ensures forall u :: 0 <= u < |s.units| && s.units[u].holder.Some? && !Frees(step, u) ==>
              Next(s, step).units[u].holder == s.units[u].holder
  {
    hide AddItems, ReserveItem;
    if step.DoAdd? {
      AddKeeps(s, step.user, step.admin, step.listing, step.codes);
    } else if step.DoReserve? {
      ReserveKeeps(s, step.listing, step.item, step.pick);
    }
  }

  /** Over any run of adds, updates, removals and reservations: codes of a listing differ, available units are unheld,
      no order item holds two units, and a held unit stays with its item until it is made available again. */
  lemma {:induction false} RunKeeps(s: Store, steps: seq<Step>)
    requires StockInv(s.units)
    ensures StockInv(Run(s, steps).units) && KeepsUnits(s.units, Run(s, steps).units)
    ensures forall u :: 0 <= u < |s.units| && s.units[u].holder.Some? && NeverFrees(steps, u) ==>
              Run(s, steps).units[u].holder == s.units[u].holder
  {
    if steps != [] {
      var init := steps[..|steps| - 1];
      RunKeeps(s, init);
      NextKeeps(Run(s, init), steps[|steps| - 1]);
    }
  }

  /** Reserving again, however much later, returns the same unit and changes nothing. */
  lemma ReservationSticks(s: Store, listing: ListingId, item: ItemId, pick: UnitId, steps: seq<Step>, again: UnitId)
    requires StockInv(s.units)
    requires ReserveItem(s, listing, item, pick).answer.Done?
    requires NeverFrees(steps, ReserveItem(s, listing, item, pick).answer.unit)
    ensures var first := ReserveItem(s, listing, item, pick);
            var later := Run(s.(units := first.units), steps);
            ReserveItem(later, listing, item, again).answer.Done? ==>
              ReserveItem(later, listing, item, again) == Response(later.units, Done(first.answer.unit))
    ensures var first := ReserveItem(s, listing, item, pick);
            var later := Run(s.(units := first.units), steps);
            later.listings == s.listings && later.items == s.items ==>
              ReserveItem(later, listing, item, again).answer.Done?
  {
    var reserved := Next(s, DoReserve(listing, item, pick));
    NextKeeps(s, DoReserve(listing, item, pick));
    RunKeeps(reserved, steps);
    var later, unit := Run(reserved, steps), ReserveItem(s, listing, item, pick).answer.unit;
    assert later.units[unit].holder == Some(item) && later.units[unit].listing == listing;
    assert HeldBy(later.units, item) == Some(unit);
  }

  /** A reservation fails for want of stock only when the item holds nothing and no unit of the listing is free. */
  lemma OutOfStockIff(s: Store, listing: ListingId, item: ItemId, pick: UnitId)
    ensures ReserveItem(s, listing, item, pick).answer == Refused(Conflict)
       <==> && listing in s.listings && s.listings[listing].auto
            && item in s.items && (s.items[item].None? || s.items[item].value == listing)
            && (forall u :: 0 <= u < |s.units| ==> s.units[u].holder != Some(item) && !IsFree(s.units, listing, u))
  {
  }
}
