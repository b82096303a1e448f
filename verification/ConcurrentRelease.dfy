/** Any number of release calls on one order, interleaved: each reads, cashes out, and commits in separate steps. */
module ConcurrentRelease {
  import opened Wrappers
  import opened Ledger
  import opened Orders
  import opened Settlement
  import opened OrderInvariant
  import opened OrderPostings

  /** A cash-out request; the key is derived from the order. */
  datatype Request = Request(key: OrderId, amount: nat)

  /** Where one release call stands. */
  datatype Call =
    | Reading(ignoreDispute: bool)
    | Planned(ignoreDispute: bool, plan: ReleaseRead)
    | Sent(ignoreDispute: bool, plan: ReleaseRead)
    | Finished(reply: Reply)

  datatype Race = Race(order: Order, book: seq<Entry>, calls: seq<Call>, requests: seq<Request>)

  /** How the provider answers: it may also take the transfer and lose the answer. */
  datatype Answer = Accepted | Declined | AnswerLost

  datatype Move =
    | Begin(ignoreDispute: bool)
    | Read(call: nat)
    | SendMoney(call: nat, answer: Answer)
    | Commit(call: nat)
    | Touch(status: Status, dispute: Option<DisputeStatus>, events: seq<Event>)

  /** What stays fixed during the race. */
  datatype Setting = Setting(id: OrderId, settings: Settings, seller: Option<User>, partnerActive: bool)

  function SetCall(r: Race, i: nat, c: Call): Race
    requires i < |r.calls|
  {
    r.(calls := r.calls[i := c])
  }

  function ReadStep(r: Race, i: nat): Race
    requires i < |r.calls| && r.calls[i].Reading?
  {
    match ReadRelease(r.order, r.book, r.calls[i].ignoreDispute)
    case ReadRefused(e) => SetCall(r, i, Finished(Err(e)))
    case AlreadyReleased => SetCall(r, i, Finished(Ok))
    case Plan(o, held, owner) => SetCall(r, i, Planned(r.calls[i].ignoreDispute, Plan(o, held, owner)))
  }

  function SendStep(f: Setting, r: Race, i: nat, answer: Answer): Race
    requires i < |r.calls| && r.calls[i].Planned? && r.calls[i].plan.Plan?
  {
    var p := r.calls[i].plan;
    var payout := PayoutAmount(p, f.settings);
    var reply := CashOut(f.settings, f.seller, payout, answer.Accepted?);
    var taken := Asks(f, p) && !answer.Declined?;
    var next := if taken then r.(requests := r.requests + [Request(f.id, payout)]) else r;
    if reply.Err? then SetCall(next, i, Finished(reply)) else SetCall(next, i, Sent(r.calls[i].ignoreDispute, p))
  }

  /** A plan is sent to the provider when there is something to pay out and the seller can be paid. */
  predicate Asks(f: Setting, p: ReleaseRead)
    requires p.Plan?
  {
    !f.settings.splitEnabled && PayoutAmount(p, f.settings) > 0
    && CashOut(f.settings, f.seller, PayoutAmount(p, f.settings), true).Ok?
  }

  function CommitStep(f: Setting, r: Race, i: nat): Race
    requires i < |r.calls| && r.calls[i].Sent? && r.calls[i].plan.Plan? && r.calls[i].plan.order.payments != []
  {
    match CommitRelease(f.id, r.order, r.book, r.calls[i].plan, f.settings, f.partnerActive)
    case Posting(o, entries) => SetCall(r.(order := o, book := r.book + entries), i, Finished(Ok))
    case _ => SetCall(r, i, Finished(Ok))
  }

  predicate HasPlan(c: Call) { (c.Planned? || c.Sent?) && c.plan.Plan? && c.plan.order.payments != [] }

  function Next(f: Setting, r: Race, m: Move): Race {
    match m
    case Begin(ignoreDispute) => r.(calls := r.calls + [Reading(ignoreDispute)])
    case Read(i) => if i < |r.calls| && r.calls[i].Reading? then ReadStep(r, i) else r
    case SendMoney(i, answer) =>
      if i < |r.calls| && HasPlan(r.calls[i]) && r.calls[i].Planned? then SendStep(f, r, i, answer) else r
    case Commit(i) =>
      if i < |r.calls| && HasPlan(r.calls[i]) && r.calls[i].Sent? then CommitStep(f, r, i) else r
    case Touch(status, dispute, events) => r.(order := r.order.(status := status, dispute := dispute, events := events))
  }

  function Run(f: Setting, r: Race, moves: seq<Move>): Race {
    if moves == [] then r else Next(f, Run(f, r, moves[..|moves| - 1]), moves[|moves| - 1])
  }

  /** What a provider pays when it answers a repeated key with the first request's transfer. */
  function PaidBy(rs: seq<Request>): nat {
    if rs == [] then 0
    else
      var r := rs[|rs| - 1];
      var earlier := rs[..|rs| - 1];
      PaidBy(earlier) + (if exists q :: q in earlier && q.key == r.key then 0 else r.amount)
  }

  lemma {:induction false} PaidOnce(rs: seq<Request>, r: Request)
    requires forall q :: q in rs ==> q == r
    ensures PaidBy(rs) == if rs == [] then 0 else r.amount
  {
    if rs != [] {
      var earlier := rs[..|rs| - 1];
      assert forall q :: q in earlier ==> q in rs;
      PaidOnce(earlier, r);
      assert rs[|rs| - 1] in rs;
      if earlier != [] {
        assert earlier[0] in earlier;
      }
    }
  }

  // ----- the invariant of the race -----

  /** A plan is the one plan the first book allows. */
  ghost predicate IsThePlan(o: Order, b: seq<Entry>, p: ReleaseRead) {
    && p.Plan? && p.order.payments == o.payments && p.order.attribution == o.attribution && o.payments != []
    && p.held == Sum(b, EscrowWeight)
    && FirstHeldCredit(b).Some? && p.owner == FirstHeldCredit(b).value.user
  }

  ghost predicate CallInv(o: Order, b: seq<Entry>, c: Call) { (c.Planned? || c.Sent?) ==> IsThePlan(o, b, c.plan) }

  /** The plan every call of the race comes to. */
  ghost function ThePlan(o: Order, b: seq<Entry>): ReleaseRead
    requires 0 <= Sum(b, EscrowWeight) && FirstHeldCredit(b).Some?
  {
    Plan(o, Sum(b, EscrowWeight), FirstHeldCredit(b).value.user)
  }

  ghost predicate CanPlan(o: Order, b: seq<Entry>) {
    0 <= Sum(b, EscrowWeight) && FirstHeldCredit(b).Some? && o.payments != []
  }

  /** Started from order `o` with book `b`. */
  ghost predicate RaceInv(f: Setting, o: Order, b: seq<Entry>, r: Race) {
    && r.order.payments == o.payments && r.order.attribution == o.attribution
    && (forall c :: c in r.calls ==> CallInv(o, b, c))
    && (r.book == b || (CanPlan(o, b) && r.book == b + ReleaseEntries(f.id, ThePlan(o, b), f.settings)))
    && (r.book != b && PaidOut(ThePlan(o, b), f.settings) > 0 ==> r.requests != [])
    && (forall q :: q in r.requests ==>
          && CanPlan(o, b) && !f.settings.splitEnabled
          && 0 < PayoutAmount(ThePlan(o, b), f.settings) && q == Request(f.id, PayoutAmount(ThePlan(o, b), f.settings)))
    && (forall c :: c in r.calls && c.Sent? && PaidOut(c.plan, f.settings) > 0 ==> r.requests != [])
  }

  lemma SamePlan(f: Setting, o: Order, b: seq<Entry>, p: ReleaseRead)
    requires IsThePlan(o, b, p)
    ensures CanPlan(o, b)
    ensures PayoutAmount(p, f.settings) == PayoutAmount(ThePlan(o, b), f.settings)
    ensures ReleaseEntries(f.id, p, f.settings) == ReleaseEntries(f.id, ThePlan(o, b), f.settings)
  {
    assert FeeFor(p, f.settings) == FeeFor(ThePlan(o, b), f.settings);
    assert FeeAmount(p, f.settings) == FeeAmount(ThePlan(o, b), f.settings);
  }

  lemma ReadKeeps(f: Setting, o: Order, b: seq<Entry>, r: Race, i: nat)
    requires RaceInv(f, o, b, r) && !Released(b)
    requires i < |r.calls| && r.calls[i].Reading?
    ensures RaceInv(f, o, b, ReadStep(r, i))
  {
    if ReadRelease(r.order, r.book, r.calls[i].ignoreDispute).Plan? && r.book != b {
      ReleaseRowsTally(f, b, ThePlan(o, b));
    }
  }

  lemma SendKeeps(f: Setting, o: Order, b: seq<Entry>, r: Race, i: nat, answer: Answer)
    requires RaceInv(f, o, b, r)
    requires i < |r.calls| && r.calls[i].Planned? && r.calls[i].plan.Plan?
    ensures RaceInv(f, o, b, SendStep(f, r, i, answer))
  {
    hide PayoutAmount, ReleaseEntries, FirstHeldCredit, CashOut, Sum;
    var p, next := r.calls[i].plan, SendStep(f, r, i, answer);
    assert CallInv(o, b, r.calls[i]);
    SamePlan(f, o, b, p);
    forall q | q in next.requests
      ensures CanPlan(o, b) && !f.settings.splitEnabled && 0 < PayoutAmount(ThePlan(o, b), f.settings)
      ensures q == Request(f.id, PayoutAmount(ThePlan(o, b), f.settings))
    {
      if q !in r.requests {
        assert q == Request(f.id, PayoutAmount(p, f.settings));
      }
    }
    AcceptedIsRequested(f, r, i, answer);
    hide SendStep, ThePlan;
  }

  /** A call past its cash-out has left a request, when there is something to pay out. */
  lemma AcceptedIsRequested(f: Setting, r: Race, i: nat, answer: Answer)
    requires i < |r.calls| && r.calls[i].Planned? && r.calls[i].plan.Plan?
    ensures var next := SendStep(f, r, i, answer);
            && next.order == r.order && next.book == r.book && |next.calls| == |r.calls| && r.requests <= next.requests
            && (forall c :: c in next.calls ==>
                  c in r.calls || c.Finished? || c == Sent(r.calls[i].ignoreDispute, r.calls[i].plan))
            && (next.calls[i].Sent? && PaidOut(r.calls[i].plan, f.settings) > 0 ==> next.requests != [])
            && (Sent(r.calls[i].ignoreDispute, r.calls[i].plan) in next.calls ==>
                  next.calls[i].Sent? || Sent(r.calls[i].ignoreDispute, r.calls[i].plan) in r.calls)
  {
    hide PayoutAmount;
  }

  lemma AlreadyReleased(f: Setting, o: Order, b: seq<Entry>, r: Race)
    requires RaceInv(f, o, b, r) && r.book != b
    ensures Released(r.book)
  {
    ReleaseRowsTally(f, b, ThePlan(o, b));
  }

  lemma CommitKeeps(f: Setting, o: Order, b: seq<Entry>, r: Race, i: nat)
    requires RaceInv(f, o, b, r) && !Released(b)
    requires i < |r.calls| && r.calls[i].Sent? && r.calls[i].plan.Plan? && r.calls[i].plan.order.payments != []
    ensures RaceInv(f, o, b, CommitStep(f, r, i))
  {
    var p, next := r.calls[i].plan, CommitStep(f, r, i);
    assert CallInv(o, b, r.calls[i]);
    SamePlan(f, o, b, p);
    if r.book != b {
      AlreadyReleased(f, o, b, r);
    }
    CommitOutcome(f, r, i);
    assert r.book == b ==> next.book == b + ReleaseEntries(f.id, ThePlan(o, b), f.settings);
    assert PaidOut(p, f.settings) == PaidOut(ThePlan(o, b), f.settings);
    assert forall c :: c in next.calls ==> c in r.calls || c.Finished?;
    hide PayoutAmount, ReleaseEntries, FirstHeldCredit, FeeAmount, Released, CommitStep, ThePlan, IsThePlan, Sum;
  }

  lemma CommitOutcome(f: Setting, r: Race, i: nat)
    requires i < |r.calls| && r.calls[i].Sent? && r.calls[i].plan.Plan? && r.calls[i].plan.order.payments != []
    ensures var next := CommitStep(f, r, i);
            && next.order.payments == r.order.payments && next.order.attribution == r.order.attribution
            && next.requests == r.requests && next.calls == r.calls[i := Finished(Ok)]
            && next.book == if Released(r.book) then r.book else r.book + ReleaseEntries(f.id, r.calls[i].plan, f.settings)
  {
    hide Released, ReleaseEntries, HasCommission;
  }

  lemma NextKeeps(f: Setting, o: Order, b: seq<Entry>, r: Race, m: Move)
    requires RaceInv(f, o, b, r) && !Released(b)
    ensures RaceInv(f, o, b, Next(f, r, m))
  {
    hide ReadStep, SendStep, CommitStep;
    match m
    case Begin(ignoreDispute) =>
    case Read(i) => if i < |r.calls| && r.calls[i].Reading? { ReadKeeps(f, o, b, r, i); }
    case SendMoney(i, answer) =>
      if i < |r.calls| && HasPlan(r.calls[i]) && r.calls[i].Planned? { SendKeeps(f, o, b, r, i, answer); }
    case Commit(i) =>
      if i < |r.calls| && HasPlan(r.calls[i]) && r.calls[i].Sent? { CommitKeeps(f, o, b, r, i); }
    case Touch(status, dispute, events) =>
  }

  lemma {:induction false} RunKeeps(f: Setting, o: Order, b: seq<Entry>, r: Race, moves: seq<Move>)
    requires RaceInv(f, o, b, r) && !Released(b)
    ensures RaceInv(f, o, b, Run(f, r, moves))
  {
    hide Next;
    if moves != [] {
      RunKeeps(f, o, b, r, moves[..|moves| - 1]);
      NextKeeps(f, o, b, Run(f, r, moves[..|moves| - 1]), moves[|moves| - 1]);
    }
  }

  // ----- what was paid and what is recorded -----

  predicate Sends(r: Race, m: Move) {
    m.SendMoney? && m.call < |r.calls| && HasPlan(r.calls[m.call]) && r.calls[m.call].Planned?
  }

  /** A call gets past its cash-out. */
  predicate Passes(f: Setting, r: Race, m: Move) {
    Sends(r, m)
    && CashOut(f.settings, f.seller, PayoutAmount(r.calls[m.call].plan, f.settings), m.answer.Accepted?).Ok?
  }

  /** The provider takes a transfer and its call does not learn of it. */
  predicate Loses(f: Setting, r: Race, m: Move) {
    Sends(r, m) && m.answer.AnswerLost? && Asks(f, r.calls[m.call].plan)
  }

  predicate SomePasses(f: Setting, r: Race, moves: seq<Move>) {
    moves != [] && (SomePasses(f, r, moves[..|moves| - 1]) || Passes(f, Run(f, r, moves[..|moves| - 1]), moves[|moves| - 1]))
  }

  predicate SomeLost(f: Setting, r: Race, moves: seq<Move>) {
    moves != [] && (SomeLost(f, r, moves[..|moves| - 1]) || Loses(f, Run(f, r, moves[..|moves| - 1]), moves[|moves| - 1]))
  }

  predicate AllFinished(r: Race) { forall c :: c in r.calls ==> c.Finished? }

  ghost predicate HasSent(r: Race) { exists i :: 0 <= i < |r.calls| && r.calls[i].Sent? }

  /** A call past its cash-out is waiting to commit or the release is there; every request is of such a call or lost. */
  ghost predicate MoneyTracked(b: seq<Entry>, r: Race, passed: bool, lost: bool) {
    && (passed <==> r.book != b || HasSent(r))
    && (r.requests != [] ==> passed || lost)
    && (lost ==> r.requests != [])
  }

  lemma SendTracks(f: Setting, b: seq<Entry>, r: Race, m: Move, passed: bool, lost: bool)
    requires MoneyTracked(b, r, passed, lost) && Sends(r, m)
    ensures MoneyTracked(b, SendStep(f, r, m.call, m.answer), passed || Passes(f, r, m), lost || Loses(f, r, m))
  {
    hide PayoutAmount;
    var i, next := m.call, SendStep(f, r, m.call, m.answer);
    assert forall j :: 0 <= j < |r.calls| && j != i ==> next.calls[j] == r.calls[j];
    if HasSent(r) {
      var j :| 0 <= j < |r.calls| && r.calls[j].Sent?;
      assert next.calls[j].Sent?;
    }
    if Passes(f, r, m) {
      assert next.calls[i].Sent?;
    }
  }

  lemma CommitTracks(f: Setting, o: Order, b: seq<Entry>, r: Race, i: nat, passed: bool, lost: bool)
    requires RaceInv(f, o, b, r) && !Released(b) && MoneyTracked(b, r, passed, lost)
    requires i < |r.calls| && r.calls[i].Sent? && HasPlan(r.calls[i])
    ensures MoneyTracked(b, CommitStep(f, r, i), passed, lost)
  {
    hide RaceInv, PayoutAmount, FeeAmount, Released, EarnCommission;
    assert passed;
    if r.book == b {
      assert CommitStep(f, r, i).book == b + ReleaseEntries(f.id, r.calls[i].plan, f.settings);
    } else {
      AlreadyReleased(f, o, b, r);
    }
  }

  lemma MoneyStep(f: Setting, o: Order, b: seq<Entry>, r: Race, m: Move, passed: bool, lost: bool)
    requires RaceInv(f, o, b, r) && !Released(b) && MoneyTracked(b, r, passed, lost)
    ensures MoneyTracked(b, Next(f, r, m), passed || Passes(f, r, m), lost || Loses(f, r, m))
  {
    hide RaceInv, SendStep, CommitStep, ReadRelease, Released, Asks;
    match m
    case Begin(_) =>
      var next := Next(f, r, m);
      assert forall j :: 0 <= j < |r.calls| ==> next.calls[j] == r.calls[j];
      assert HasSent(next) <==> HasSent(r) by {
        if HasSent(r) {
          var j :| 0 <= j < |r.calls| && r.calls[j].Sent?;
          assert next.calls[j].Sent?;
        }
      }
    case Read(i) =>
      var next := Next(f, r, m);
      assert forall j :: 0 <= j < |r.calls| && j != i ==> next.calls[j] == r.calls[j];
      assert HasSent(next) <==> HasSent(r) by {
        if HasSent(r) {
          var j :| 0 <= j < |r.calls| && r.calls[j].Sent?;
          assert next.calls[j].Sent?;
        }
      }
    case SendMoney(_, _) => if Sends(r, m) { SendTracks(f, b, r, m, passed, lost); }
    case Commit(i) =>
      if i < |r.calls| && HasPlan(r.calls[i]) && r.calls[i].Sent? { CommitTracks(f, o, b, r, i, passed, lost); }
    case Touch(_, _, _) =>
  }

  lemma {:induction false} MoneyRun(f: Setting, o: Order, b: seq<Entry>, r: Race, moves: seq<Move>)
    requires RaceInv(f, o, b, r) && !Released(b) && MoneyTracked(b, r, false, false)
    ensures MoneyTracked(b, Run(f, r, moves), SomePasses(f, r, moves), SomeLost(f, r, moves))
  {
    hide RaceInv, Next, Passes, Loses, MoneyTracked;
    if moves != [] {
      var init, last := moves[..|moves| - 1], moves[|moves| - 1];
      MoneyRun(f, o, b, r, init);
      RunKeeps(f, o, b, r, init);
      MoneyStep(f, o, b, Run(f, r, init), last, SomePasses(f, r, init), SomeLost(f, r, init));
    }
  }

  lemma {:induction false} NothingLost(f: Setting, r: Race, moves: seq<Move>)
    requires forall m :: m in moves && m.SendMoney? ==> !m.answer.AnswerLost?
    ensures !SomeLost(f, r, moves)
  {
    if moves != [] {
      NothingLost(f, r, moves[..|moves| - 1]);
      assert moves[|moves| - 1] in moves;
    }
  }

  /** When all calls have ended, what is recorded as paid out is what the provider paid exactly when some call got past
      its cash-out, or no answer of the provider was lost. */
  lemma PaidIsRecordedIff(f: Setting, o: Order, b: seq<Entry>, moves: seq<Move>)
    requires OrderInv(f.id, o, b) && o.seller.Some? && !Released(b)
    requires AllFinished(Run(f, Race(o, b, [], []), moves))
    ensures var start := Race(o, b, [], []);
            var end := Run(f, start, moves);
            Sum(end.book, PayoutWeight) == PaidBy(end.requests) <==> SomePasses(f, start, moves) || !SomeLost(f, start, moves)
  {
    hide OrderInv, Run, SomePasses, SomeLost, Released, PayoutAmount, ReleaseEntries, Sum, FirstHeldCredit;
    var start := Race(o, b, [], []);
    var end := Run(f, start, moves);
    RunKeeps(f, o, b, start, moves);
    MoneyRun(f, o, b, start, moves);
    EndIsSafe(f, o, b, end);
    assert !HasSent(end) by {
      forall i | 0 <= i < |end.calls| ensures end.calls[i].Finished? {
        assert end.calls[i] in end.calls;
      }
    }
    if end.book == b {
      if end.requests != [] {
        assert end.requests[0] in end.requests;
        PaidOnce(end.requests, Request(f.id, PayoutAmount(ThePlan(o, b), f.settings)));
      }
    } else {
      AlreadyReleased(f, o, b, end);
    }
  }

  /** However any number of calls interleave, with answers lost and the status changing under them: one release at most
      is recorded, every request carries the same key and amount, so the provider pays at most once, and never less than
      is recorded. Once the release is there, or all calls have ended without a lost answer, the two are equal. */
  lemma ConcurrentReleasesAreSafe(f: Setting, o: Order, b: seq<Entry>, moves: seq<Move>)
    requires OrderInv(f.id, o, b) && o.seller.Some? && !Released(b)
    ensures var end := Run(f, Race(o, b, [], []), moves);
            && Sum(end.book, ReleaseCount) <= 1
            && (Released(end.book) <==> Sum(end.book, ReleaseCount) == 1)
            && (Released(end.book) ==> Sum(end.book, HeldWeight) == 0)
            && Sum(end.book, PayoutWeight) <= PaidBy(end.requests)
            && (Released(end.book) ==> Sum(end.book, PayoutWeight) == PaidBy(end.requests))
            && (!Released(end.book) ==> Sum(end.book, PayoutWeight) == 0)
            && (AllFinished(end) && (forall m :: m in moves && m.SendMoney? ==> !m.answer.AnswerLost?) ==>
                  Sum(end.book, PayoutWeight) == PaidBy(end.requests))
            && (forall q, s :: q in end.requests && s in end.requests ==> q == s)
  {
    hide OrderInv, Run, SomePasses, SomeLost, Released, Sum;
    var end := Run(f, Race(o, b, [], []), moves);
    RunKeeps(f, o, b, Race(o, b, [], []), moves);
    EndIsSafe(f, o, b, end);
    if AllFinished(end) && forall m :: m in moves && m.SendMoney? ==> !m.answer.AnswerLost? {
      NothingLost(f, Race(o, b, [], []), moves);
      PaidIsRecordedIff(f, o, b, moves);
    }
  }

  lemma EndIsSafe(f: Setting, o: Order, b: seq<Entry>, end: Race)
    requires OrderInv(f.id, o, b) && o.seller.Some? && !Released(b) && RaceInv(f, o, b, end)
    ensures Sum(end.book, ReleaseCount) <= 1
    ensures Released(end.book) <==> Sum(end.book, ReleaseCount) == 1
    ensures Released(end.book) ==> Sum(end.book, HeldWeight) == 0
    ensures Sum(end.book, PayoutWeight) == if Released(end.book) then PaidBy(end.requests) else 0
    ensures forall q, s :: q in end.requests && s in end.requests ==> q == s
  {
    BeforeRelease(f.id, o, b);
    if end.book != b {
      ReleaseRowsTally(f, b, ThePlan(o, b));
      RequestsPay(f, o, b, end);
    }
    hide OrderInv, Released, ReleaseEntries, PayoutAmount, PaidBy, PaidOut, Sum, FirstHeldCredit;
  }

  /** Once the release is booked, the provider has paid what the plan pays out. */
  lemma RequestsPay(f: Setting, o: Order, b: seq<Entry>, r: Race)
    requires RaceInv(f, o, b, r) && r.book != b
    ensures PaidBy(r.requests) == PaidOut(ThePlan(o, b), f.settings)
  {
    hide PayoutAmount, ReleaseEntries, FirstHeldCredit;
    if r.requests != [] {
      assert r.requests[0] in r.requests;
    }
    PaidOnce(r.requests, Request(f.id, PayoutAmount(ThePlan(o, b), f.settings)));
  }

  lemma BeforeRelease(id: OrderId, o: Order, b: seq<Entry>)
    requires OrderInv(id, o, b) && o.seller.Some? && !Released(b)
    ensures Sum(b, ReleaseCount) == 0 && Sum(b, PayoutWeight) == 0 && Sum(b, HeldWeight) == Sum(b, EscrowWeight)
  {
  }

  lemma ReleaseRowsTally(f: Setting, b: seq<Entry>, p: ReleaseRead)
    requires p.Plan? && p.order.payments != []
    ensures var c := b + ReleaseEntries(f.id, p, f.settings);
            && Released(c) && Sum(c, HeldWeight) == Sum(b, HeldWeight) - p.held
            && Sum(c, ReleaseCount) == Sum(b, ReleaseCount) + 1
            && Sum(c, PayoutWeight) == Sum(b, PayoutWeight) + PaidOut(p, f.settings)
  {
    ReleaseTally(f.id, b, p, FeeAmount(p, f.settings), PaidOut(p, f.settings));
  }

  // ----- refunds in flight -----

  /** A commit trusts its plan: it brings the held balance to zero exactly when that balance is still what it read. */
  lemma CommitClosesEscrowIff(id: OrderId, now: Order, book: seq<Entry>, p: ReleaseRead, s: Settings, active: bool)
    requires p.Plan? && p.order.payments != [] && !Released(book)
    ensures CommitRelease(id, now, book, p, s, active).Posting?
    ensures Sum(book + CommitRelease(id, now, book, p, s, active).entries, HeldWeight) == 0
       <==> Sum(book, HeldWeight) == p.held
  {
    ReleaseTally(id, book, p, FeeAmount(p, s), PaidOut(p, s));
  }

  /** A partial refund that lands between the read and the commit of a release leaves the escrow short by its amount. */
  lemma RefundInFlightOverdraws(id: OrderId, o: Order, book: seq<Entry>, ignoreDispute: bool, s: Settings, active: bool,
      amount: nat)
    requires OrderInv(id, o, book)
    requires ReadRelease(o, book, ignoreDispute).Plan?
    requires RefundPartially(id, o, book, amount, true).Posting?
    ensures var p := ReadRelease(o, book, ignoreDispute);
            var r := RefundPartially(id, o, book, amount, true);
            var c := CommitRelease(id, r.order, book + r.entries, p, s, active);
            c.Posting? && Sum(book + r.entries + c.entries, HeldWeight) == -(amount as int) < 0
  {
    var p := ReadRelease(o, book, ignoreDispute);
    var r := RefundPartially(id, o, book, amount, true);
    PlanIsSound(id, o, book, ignoreDispute);
    RefundRowTally(o, book, r.entries[0]);
    RefundRowTally(o, book + [r.entries[0]], r.entries[1]);
    assert book + [r.entries[0]] + [r.entries[1]] == book + r.entries;
    ReleaseTally(id, book + r.entries, p, FeeAmount(p, s), PaidOut(p, s));
  }
}
