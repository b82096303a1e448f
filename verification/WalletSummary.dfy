/** The balances shown to users and to the administration, and the balance a wallet payment checks. */
module WalletSummary {
  import opened Wrappers
  import opened Ledger
  import M = Market
  import Theorems
  import Consequences

  datatype Currency = BRL | Other(code: string)

  datatype Booking = Booking(entry: Entry, currency: Currency)

  /** What rows are grouped by. */
  datatype Group = Group(state: State, kind: Kind, currency: Currency)

  /** One line of a groupBy query; a sum over no amounts is null. */
  datatype Row = Row(group: Group, sum: Option<int>)

  datatype Summary = Summary(currency: Currency, held: int, available: int, reversed: int)

  function GroupOf(b: Booking): Group { Group(b.entry.state, b.entry.kind, b.currency) }

  function ApplySign(amount: int, kind: Kind): int { if kind.Debit? then -amount else amount }

  // ----- references: sums over the bookings themselves -----

  function Total(bs: seq<Booking>, g: Group): int {
    if bs == [] then 0
    else
      var b := bs[|bs| - 1];
      Total(bs[..|bs| - 1], g) + (if GroupOf(b) == g then b.entry.amount else 0)
  }

  /** Credits less debits of one state and currency. */
  function Balance(bs: seq<Booking>, state: State, currency: Currency): int {
    if bs == [] then 0
    else
      var b := bs[|bs| - 1];
      Balance(bs[..|bs| - 1], state, currency)
      + (if b.entry.state == state && b.currency == currency then Signed(b.entry) else 0)
  }

  /** The lines group the bookings by state, kind and currency: one line for each group there is, in any order. */
  ghost predicate Groups(rows: seq<Row>, bs: seq<Booking>) {
    && (forall i, j :: 0 <= i < j < |rows| ==> rows[i].group != rows[j].group)
    && (forall b :: b in bs ==> exists i :: 0 <= i < |rows| && rows[i].group == GroupOf(b))
    && (forall i :: 0 <= i < |rows| ==> exists b :: b in bs && GroupOf(b) == rows[i].group)
    && (forall i :: 0 <= i < |rows| ==> rows[i].sum == Some(Total(bs, rows[i].group)))
  }

  predicate OneCurrency(bs: seq<Booking>, currency: Currency) { forall b :: b in bs ==> b.currency == currency }

  // ----- the computations -----

  function CurrencyOf(rows: seq<Row>): Currency { if rows == [] then BRL else rows[0].group.currency }

  function RowsBalance(rows: seq<Row>, state: State, currency: Currency): int {
    if rows == [] then 0
    else
      var r := rows[|rows| - 1];
      RowsBalance(rows[..|rows| - 1], state, currency)
      + (if r.group.state == state && r.group.currency == currency then ApplySign(SumOrZero(r), r.group.kind) else 0)
  }

  function SumOrZero(r: Row): int { if r.sum.Some? then r.sum.value else 0 }

  function SummaryOf(rows: seq<Row>): Summary {
    var c := CurrencyOf(rows);
    Summary(c, RowsBalance(rows, Held, c), RowsBalance(rows, Available, c), RowsBalance(rows, Reversed, c))
  }

  /** Rows of another currency than the first are skipped. */
  method BuildWalletSummary(rows: seq<Row>) returns (summary: Summary)
    ensures summary == SummaryOf(rows)
  {
    var currency := if |rows| == 0 then BRL else rows[0].group.currency;
    var held, available, reversed := 0, 0, 0;
    for i := 0 to |rows|
      invariant held == RowsBalance(rows[..i], Held, currency)
      invariant available == RowsBalance(rows[..i], Available, currency)
      invariant reversed == RowsBalance(rows[..i], Reversed, currency)
    {
      var row := rows[i];
      assert rows[..i + 1][..i] == rows[..i];
      if row.group.currency == currency {
        var signed := ApplySign(SumOrZero(row), row.group.kind);
        match row.group.state
        case Held => held := held + signed;
        case Available => available := available + signed;
        case Reversed => reversed := reversed + signed;
      }
    }
    assert rows[..|rows|] == rows;
    return Summary(currency, held, available, reversed);
  }

  /** The reduce of a wallet payment, over lines grouped by kind. */
  method ReduceBalance(rows: seq<Row>) returns (total: int)
    ensures total == SignedTotal(rows)
  {
    total := 0;
    for i := 0 to |rows|
      invariant total == SignedTotal(rows[..i])
    {
      assert rows[..i + 1][..i] == rows[..i];
      total := total + ApplySign(SumOrZero(rows[i]), rows[i].group.kind);
    }
    assert rows[..|rows|] == rows;
  }

  function SignedTotal(rows: seq<Row>): int {
    if rows == [] then 0
    else SignedTotal(rows[..|rows| - 1]) + ApplySign(SumOrZero(rows[|rows| - 1]), rows[|rows| - 1].group.kind)
  }

  datatype AdminSummary = AdminSummary(pending: int, sellersAvailable: int, platformFee: int, reversed: int)

  /** What the fee rows amount to, whatever their kind. */
  function FeeTotal(es: seq<Entry>): int {
    if es == [] then 0
    else FeeTotal(es[..|es| - 1]) + (if es[|es| - 1].source.Fee? then es[|es| - 1].amount else 0)
  }

  function StateWeight(state: State): Entry -> int { (e: Entry) => if e.state == state then Signed(e) else 0 }

  function AdminSummaryOf(entries: seq<Entry>, platformPaid: int): AdminSummary {
    AdminSummary(Sum(entries, StateWeight(Held)), Sum(entries, StateWeight(Available)),
      Max(FeeTotal(entries) - platformPaid, 0), Sum(entries, StateWeight(Reversed)))
  }

  /** One pass over the rows of all sellers, without regard to currency. */
  method GetAdminSummary(entries: seq<Entry>, platformPaid: int) returns (summary: AdminSummary)
    ensures summary == AdminSummaryOf(entries, platformPaid)
  {
    summary := AdminSummary(0, 0, 0, 0);
    for i := 0 to |entries|
      invariant summary.pending == Sum(entries[..i], StateWeight(Held))
      invariant summary.sellersAvailable == Sum(entries[..i], StateWeight(Available))
      invariant summary.reversed == Sum(entries[..i], StateWeight(Reversed))
      invariant summary.platformFee == FeeTotal(entries[..i])
    {
      var e := entries[i];
      assert entries[..i + 1][..i] == entries[..i];
      var signed := Signed(e);
      if e.state.Held? {
        summary := summary.(pending := summary.pending + signed);
      }
      if e.state.Available? {
        summary := summary.(sellersAvailable := summary.sellersAvailable + signed);
      }
      if e.state.Reversed? {
        summary := summary.(reversed := summary.reversed + signed);
      }
      if e.source.Fee? {
        summary := summary.(platformFee := summary.platformFee + e.amount);
      }
    }
    assert entries[..|entries|] == entries;
    summary := summary.(platformFee := Max(summary.platformFee - platformPaid, 0));
  }

  // ----- grouped lines against the bookings -----

  /** As RowsBalance, with the sums taken from some bookings. */
  function GroupedBalance(rows: seq<Row>, bs: seq<Booking>, state: State, currency: Currency): int {
    if rows == [] then 0
    else
      var g := rows[|rows| - 1].group;
      GroupedBalance(rows[..|rows| - 1], bs, state, currency)
      + (if g.state == state && g.currency == currency then ApplySign(Total(bs, g), g.kind) else 0)
  }

  predicate DistinctGroups(rows: seq<Row>) { forall i, j :: 0 <= i < j < |rows| ==> rows[i].group != rows[j].group }

  predicate HasGroup(rows: seq<Row>, g: Group) { exists i :: 0 <= i < |rows| && rows[i].group == g }

  /** One more booking counts once if its group has a line, and else not at all. */
  lemma {:induction false} OneMoreBooking(rows: seq<Row>, bs: seq<Booking>, b: Booking, state: State, currency: Currency)
    requires DistinctGroups(rows)
    ensures GroupedBalance(rows, bs + [b], state, currency) == GroupedBalance(rows, bs, state, currency)
      + (if HasGroup(rows, GroupOf(b)) && b.entry.state == state && b.currency == currency then Signed(b.entry) else 0)
  {
    assert (bs + [b])[..|bs|] == bs;
    if rows != [] {
      var init, last := rows[..|rows| - 1], rows[|rows| - 1];
      OneMoreBooking(init, bs, b, state, currency);
      assert HasGroup(rows, GroupOf(b)) <==> HasGroup(init, GroupOf(b)) || last.group == GroupOf(b) by {
        if HasGroup(rows, GroupOf(b)) {
          var i :| 0 <= i < |rows| && rows[i].group == GroupOf(b);
          assert i < |init| ==> init[i].group == GroupOf(b);
        }
        if HasGroup(init, GroupOf(b)) {
          var i :| 0 <= i < |init| && init[i].group == GroupOf(b);
          assert rows[i].group == GroupOf(b);
        }
      }
      assert !(HasGroup(init, GroupOf(b)) && last.group == GroupOf(b));
    }
  }

  lemma {:induction false} GroupedIsBalance(rows: seq<Row>, bs: seq<Booking>, state: State, currency: Currency)
    requires DistinctGroups(rows) && forall b :: b in bs ==> HasGroup(rows, GroupOf(b))
    ensures GroupedBalance(rows, bs, state, currency) == Balance(bs, state, currency)
  {
    if bs == [] {
      NothingGrouped(rows, state, currency);
    } else {
      var init, last := bs[..|bs| - 1], bs[|bs| - 1];
      GroupedIsBalance(rows, init, state, currency);
      OneMoreBooking(rows, init, last, state, currency);
      assert bs == init + [last];
    }
  }

  lemma {:induction false} NothingGrouped(rows: seq<Row>, state: State, currency: Currency)
    ensures GroupedBalance(rows, [], state, currency) == 0
  {
    if rows != [] {
      NothingGrouped(rows[..|rows| - 1], state, currency);
    }
  }

  lemma {:induction false} RowsAreGrouped(rows: seq<Row>, bs: seq<Booking>, state: State, currency: Currency)
    requires forall i :: 0 <= i < |rows| ==> rows[i].sum == Some(Total(bs, rows[i].group))
    ensures RowsBalance(rows, state, currency) == GroupedBalance(rows, bs, state, currency)
  {
    if rows != [] {
      RowsAreGrouped(rows[..|rows| - 1], bs, state, currency);
    }
  }

  /** In whatever order the lines come, the summary is that of the bookings in the first line's currency. */
  lemma SummaryIsBalance(rows: seq<Row>, bs: seq<Booking>)
    requires Groups(rows, bs)
    ensures var c := CurrencyOf(rows);
            SummaryOf(rows) == Summary(c, Balance(bs, Held, c), Balance(bs, Available, c), Balance(bs, Reversed, c))
  {
    hide Groups, RowsBalance, Balance;
    var c := CurrencyOf(rows);
    RowsGiveBalance(rows, bs, Held, c);
    RowsGiveBalance(rows, bs, Available, c);
    RowsGiveBalance(rows, bs, Reversed, c);
  }

  lemma RowsGiveBalance(rows: seq<Row>, bs: seq<Booking>, state: State, currency: Currency)
    requires Groups(rows, bs)
    ensures RowsBalance(rows, state, currency) == Balance(bs, state, currency)
  {
    hide RowsBalance, GroupedBalance, Balance, Total;
    RowsAreGrouped(rows, bs, state, currency);
    forall b | b in bs ensures HasGroup(rows, GroupOf(b)) {
    }
    GroupedIsBalance(rows, bs, state, currency);
  }

  /** Two orders of the lines give the same summary exactly when they begin with the same currency; so with one
      currency the order never matters. */
  lemma RowOrderMattersIff(rows: seq<Row>, others: seq<Row>, bs: seq<Booking>)
    requires Groups(rows, bs) && Groups(others, bs)
    ensures SummaryOf(rows) == SummaryOf(others) <==> CurrencyOf(rows) == CurrencyOf(others)
    ensures forall c :: OneCurrency(bs, c) ==> SummaryOf(rows) == SummaryOf(others)
  {
    SummaryIsBalance(rows, bs);
    SummaryIsBalance(others, bs);
    forall c | OneCurrency(bs, c) ensures CurrencyOf(rows) == CurrencyOf(others) {
      CurrencyOfOne(rows, bs, c);
      CurrencyOfOne(others, bs, c);
    }
  }

  lemma CurrencyOfOne(rows: seq<Row>, bs: seq<Booking>, c: Currency)
    requires Groups(rows, bs) && OneCurrency(bs, c)
    ensures CurrencyOf(rows) == if bs == [] then BRL else c
    ensures rows == [] <==> bs == []
  {
    if bs != [] {
      assert bs[0] in bs;
    }
  }

  // ----- the balance of a wallet payment -----

  /** The rows the payment's query selects. */
  function Selected(bs: seq<Booking>, currency: Currency): (r: seq<Booking>)
    ensures forall b :: b in r ==> b in bs && b.entry.state.Available? && b.currency == currency
  {
    if bs == [] then []
    else
      var b := bs[|bs| - 1];
      Selected(bs[..|bs| - 1], currency) + (if b.entry.state.Available? && b.currency == currency then [b] else [])
  }

  lemma BalanceAppend(bs: seq<Booking>, b: Booking, state: State, currency: Currency)
    ensures Balance(bs + [b], state, currency) == Balance(bs, state, currency)
      + (if b.entry.state == state && b.currency == currency then Signed(b.entry) else 0)
  {
    assert (bs + [b])[..|bs|] == bs;
  }

  lemma {:induction false} SelectedBalance(bs: seq<Booking>, currency: Currency)
    ensures Balance(Selected(bs, currency), Available, currency) == Balance(bs, Available, currency)
  {
    if bs != [] {
      SelectedBalance(bs[..|bs| - 1], currency);
      var rest, b := Selected(bs[..|bs| - 1], currency), bs[|bs| - 1];
      BalanceAppend(rest, b, Available, currency);
      assert rest + [] == rest;
    }
  }

  lemma {:induction false} SignedTotalIsBalance(rows: seq<Row>, currency: Currency)
    requires forall i :: 0 <= i < |rows| ==> rows[i].group.state.Available? && rows[i].group.currency == currency
    ensures SignedTotal(rows) == RowsBalance(rows, Available, currency)
  {
    if rows != [] {
      SignedTotalIsBalance(rows[..|rows| - 1], currency);
    }
  }

  /** The reduce over kinds gives the available balance of that currency; so a wallet payment in the currency of the
      summary sees the amount the summary shows. */
  lemma PaymentSeesTheSummary(rows: seq<Row>, kinds: seq<Row>, bs: seq<Booking>, currency: Currency)
    requires Groups(rows, bs) && Groups(kinds, Selected(bs, currency))
    ensures SignedTotal(kinds) == Balance(bs, Available, currency)
    ensures CurrencyOf(rows) == currency ==> SignedTotal(kinds) == SummaryOf(rows).available
  {
    var selected := Selected(bs, currency);
    hide Balance, Selected, RowsBalance, GroupedBalance, SignedTotal;
    SelectedBalance(bs, currency);
    SignedTotalIsBalance(kinds, currency);
    RowsGiveBalance(kinds, selected, Available, currency);
    RowsGiveBalance(rows, bs, Available, currency);
  }

  // ----- users of one ledger in one currency -----

  function OfUser(l: seq<Entry>, u: UserId): (bs: seq<Booking>)
    ensures OneCurrency(bs, BRL)
  {
    if l == [] then []
    else OfUser(l[..|l| - 1], u) + (if l[|l| - 1].user == u then [Booking(l[|l| - 1], BRL)] else [])
  }

  function OwnWeight(u: UserId, state: State): Entry -> int {
    (e: Entry) => if e.user == u && e.state == state then Signed(e) else 0
  }

  lemma {:induction false} BalanceOfUser(l: seq<Entry>, u: UserId, state: State)
    ensures Balance(OfUser(l, u), state, BRL) == Sum(l, OwnWeight(u, state))
  {
    if l != [] {
      hide Balance, OneCurrency;
      var rest, b := OfUser(l[..|l| - 1], u), Booking(l[|l| - 1], BRL);
      BalanceOfUser(l[..|l| - 1], u, state);
      BalanceAppend(rest, b, state, BRL);
      assert OfUser(l, u) == if b.entry.user == u then rest + [b] else rest;
    }
  }

  /** A user's summary is the direct signed fold of the user's ledger rows, and shows what the user can spend. */
  lemma SummaryIsFold(rows: seq<Row>, l: seq<Entry>, u: UserId)
    requires Groups(rows, OfUser(l, u))
    ensures SummaryOf(rows) ==
      Summary(BRL, Sum(l, OwnWeight(u, Held)), Sum(l, OwnWeight(u, Available)), Sum(l, OwnWeight(u, Reversed)))
    ensures SummaryOf(rows).available == M.Spendable(l, u)
  {
    hide Groups, Balance, Sum, SummaryOf, CurrencyOf;
    SummaryIsBalance(rows, OfUser(l, u));
    BalanceOfUser(l, u, Held);
    BalanceOfUser(l, u, Available);
    BalanceOfUser(l, u, Reversed);
    CurrencyOfOne(rows, OfUser(l, u), BRL);
    SumEqual(l, OwnWeight(u, Available), AvailableWeight(u));
  }

  // ----- the administration's totals -----

  function OfSellers(l: seq<Entry>, sellers: seq<UserId>): seq<Entry> {
    if l == [] then []
    else OfSellers(l[..|l| - 1], sellers) + (if l[|l| - 1].user in sellers then [l[|l| - 1]] else [])
  }

  predicate NoneTwice(users: seq<UserId>) { forall i, j :: 0 <= i < j < |users| ==> users[i] != users[j] }

  /** A state's balance added up seller by seller. */
  function SumOfSellers(l: seq<Entry>, sellers: seq<UserId>, state: State): int {
    if sellers == [] then 0
    else SumOfSellers(l, sellers[..|sellers| - 1], state) + Sum(l, OwnWeight(sellers[|sellers| - 1], state))
  }

  lemma {:induction false} OneMoreEntry(l: seq<Entry>, e: Entry, sellers: seq<UserId>, state: State)
    requires NoneTwice(sellers)
    ensures SumOfSellers(l + [e], sellers, state) ==
      SumOfSellers(l, sellers, state) + (if e.user in sellers then StateWeight(state)(e) else 0)
  {
    if sellers != [] {
      var init, u := sellers[..|sellers| - 1], sellers[|sellers| - 1];
      OneMoreEntry(l, e, init, state);
      SumAppend(l, e, OwnWeight(u, state));
      assert sellers == init + [u];
    }
  }

  lemma {:induction false} NoEntries(sellers: seq<UserId>, state: State)
    ensures SumOfSellers([], sellers, state) == 0
  {
    if sellers != [] {
      NoEntries(sellers[..|sellers| - 1], state);
    }
  }

  /** One pass over all sellers' rows sums what the sellers' rows sum to one by one. */
  lemma {:induction false} SellerSums(l: seq<Entry>, sellers: seq<UserId>, state: State)
    requires NoneTwice(sellers)
    ensures Sum(OfSellers(l, sellers), StateWeight(state)) == SumOfSellers(l, sellers, state)
  {
    if l == [] {
      NoEntries(sellers, state);
    } else {
      hide SumOfSellers, StateWeight, Sum, NoneTwice;
      var init, e := l[..|l| - 1], l[|l| - 1];
      var rest := OfSellers(init, sellers);
      SellerSums(init, sellers, state);
      OneMoreEntry(init, e, sellers, state);
      assert l == init + [e];
      if e.user in sellers {
        SumAppend(rest, e, StateWeight(state));
      } else {
        assert OfSellers(l, sellers) == rest;
      }
    }
  }

  /** What several summaries add up to. */
  function AddedUp(summaries: seq<seq<Row>>): Summary {
    if summaries == [] then Summary(BRL, 0, 0, 0)
    else
      var rest, s := AddedUp(summaries[..|summaries| - 1]), SummaryOf(summaries[|summaries| - 1]);
      Summary(BRL, rest.held + s.held, rest.available + s.available, rest.reversed + s.reversed)
  }

  lemma {:induction false} SummariesAddUp(l: seq<Entry>, sellers: seq<UserId>, rows: seq<seq<Row>>)
    requires |rows| == |sellers| && forall i :: 0 <= i < |rows| ==> Groups(rows[i], OfUser(l, sellers[i]))
    ensures AddedUp(rows) ==
      Summary(BRL, SumOfSellers(l, sellers, Held), SumOfSellers(l, sellers, Available), SumOfSellers(l, sellers, Reversed))
  {
    hide Groups, SummaryOf, Sum, OfUser;
    if rows != [] {
      var last := |rows| - 1;
      SummariesAddUp(l, sellers[..last], rows[..last]);
      SummaryIsFold(rows[last], l, sellers[last]);
    }
  }

  /** The administration's totals are the sellers' own summaries added up, whatever order each seller's lines come in. */
  lemma AdminSeesTheSellers(l: seq<Entry>, sellers: seq<UserId>, rows: seq<seq<Row>>, platformPaid: int)
    requires NoneTwice(sellers)
    requires |rows| == |sellers| && forall i :: 0 <= i < |rows| ==> Groups(rows[i], OfUser(l, sellers[i]))
    ensures var admin := AdminSummaryOf(OfSellers(l, sellers), platformPaid);
            && admin.pending == AddedUp(rows).held
            && admin.sellersAvailable == AddedUp(rows).available
            && admin.reversed == AddedUp(rows).reversed
  {
    hide Groups, AddedUp, Sum, OfUser, SumOfSellers;
    SummariesAddUp(l, sellers, rows);
    SellerSums(l, sellers, Held);
    SellerSums(l, sellers, Available);
    SellerSums(l, sellers, Reversed);
  }

  lemma FeeTotalAppend(es: seq<Entry>, e: Entry)
    ensures FeeTotal(es + [e]) == FeeTotal(es) + (if e.source.Fee? then e.amount else 0)
  {
    assert (es + [e])[..|es|] == es;
  }

  lemma {:induction false} SellerFees(l: seq<Entry>, sellers: seq<UserId>)
    requires Consequences.FeesAvailable(l)
    ensures FeeTotal(OfSellers(l, sellers)) <= Sum(l, AvailableFeeWeight)
    ensures (forall e :: e in l && e.source.Fee? && e.amount > 0 ==> e.user in sellers) <==>
              FeeTotal(OfSellers(l, sellers)) == Sum(l, AvailableFeeWeight)
  {
    if l != [] {
      var init, e := l[..|l| - 1], l[|l| - 1];
      SellerFees(init, sellers);
      assert l == init + [e];
      assert e in l && forall f :: f in l <==> f == e || f in init;
      SumAppend(init, e, AvailableFeeWeight);
      var rest, all := OfSellers(init, sellers), OfSellers(l, sellers);
      assert all == if e.user in sellers then rest + [e] else rest;
      FeeTotalAppend(rest, e);
      assert FeeTotal(all) == FeeTotal(rest) + (if e.user in sellers && e.source.Fee? then e.amount else 0);
      assert Sum(l, AvailableFeeWeight) == Sum(init, AvailableFeeWeight) + (if e.source.Fee? then e.amount else 0);
      hide FeeTotal, Sum, OfSellers;
    }
  }

  /** The platform may send itself at least what the administration is shown as fees; and exactly that if and only if
      sellers alone have paid fees, or nothing is left to send. */
  lemma AdminShowsTheFees(db: M.Db, sellers: seq<UserId>)
    requires Theorems.IsReachable(db)
    ensures var shown := AdminSummaryOf(OfSellers(db.ledger, sellers), M.PlatformSent(db.payouts)).platformFee;
            && (forall n: nat :: n <= shown ==> M.PlatformPayout(db, n, true).reply.Ok?)
            && ((forall n: nat :: M.PlatformPayout(db, n, true).reply.Ok? ==> n <= shown) <==>
                  (forall e :: e in db.ledger && e.source.Fee? && e.amount > 0 ==> e.user in sellers)
                  || M.PlatformPayout(db, 1, true).reply.Err?)
  {
    var steps :| db == M.Run(M.Empty(), steps);
    Consequences.FeesStayAvailable(steps);
    Theorems.PlatformSendsOnlyFees(db);
    hide OfSellers, FeeTotal, M.PlatformSent, Sum, M.Run, Theorems.IsReachable;
    SellerFees(db.ledger, sellers);
    var most := Sum(db.ledger, AvailableFeeWeight) - M.PlatformSent(db.payouts);
    assert M.PlatformPayout(db, most, true).reply.Ok?;
  }
}
