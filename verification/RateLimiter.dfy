/** The message limiter of both chats: a fixed window that starts with its first message, and a minimum interval. */
module RateLimiter {
  import opened Wrappers

  datatype LimitsRow = Limits(window: nat, max: nat, minInterval: nat)

  type Limits = l: LimitsRow | 0 < l.window && 0 < l.max && 0 < l.minInterval witness Limits(60_000, 30, 500)

  const CHAT: Limits := Limits(60_000, 30, 500)
  const SUPPORT_CHAT: Limits := Limits(60_000, 20, 750)

  type Key(==, !new) = string

  datatype Rate = Rate(windowStart: int, last: int, count: nat)

  datatype Verdict = Allowed | SlowDown(retryAfter: int) | LimitExceeded(retryAfter: int)

  /** The entry a call works on: a missing or outlived one is replaced. */
  function Current(l: Limits, entry: Option<Rate>, now: int): Rate {
    if entry.None? || now - entry.value.windowStart >= l.window then Rate(now, 0, 0) else entry.value
  }

  function Judge(l: Limits, r: Rate, now: int): Verdict {
    if r.last != 0 && now - r.last < l.minInterval then SlowDown(l.minInterval - (now - r.last))
    else if r.count >= l.max then LimitExceeded(r.windowStart + l.window - now)
    else Allowed
  }

  function EntryOf(entries: map<Key, Rate>, key: Key): Option<Rate> {
    if key in entries then Some(entries[key]) else None
  }

  function VerdictFor(l: Limits, entries: map<Key, Rate>, key: Key, now: int): Verdict {
    Judge(l, Current(l, EntryOf(entries, key), now), now)
  }

  function Checked(l: Limits, entries: map<Key, Rate>, key: Key, now: int): map<Key, Rate> {
    var r := Current(l, EntryOf(entries, key), now);
    if Judge(l, r, now).Allowed? then entries[key := Rate(r.windowStart, now, r.count + 1)] else entries
  }

  class Limiter {
    const limits: Limits
    var entries: map<Key, Rate>

    constructor (l: Limits)
      ensures limits == l && entries == map[]
    {
      limits, entries := l, map[];
    }

    /** A rejected call changes nothing; an accepted one changes the entry of its key only. */
    method Check(key: Key, now: int) returns (verdict: Verdict)
      modifies this`entries
      ensures verdict == VerdictFor(limits, old(entries), key, now)
      ensures entries == Checked(limits, old(entries), key, now)
      ensures !verdict.Allowed? ==> entries == old(entries)
      ensures entries - {key} == old(entries) - {key}
    {
      var entry := Rate(now, 0, 0);
      if key in entries && now - entries[key].windowStart < limits.window {
        entry := entries[key];
      }
      if entry.last != 0 && now - entry.last < limits.minInterval {
        return SlowDown(limits.minInterval - (now - entry.last));
      }
      if entry.count >= limits.max {
        return LimitExceeded(entry.windowStart + limits.window - now);
      }
      entry := entry.(count := entry.count + 1);
      entry := entry.(last := now);
      entries := entries[key := entry];
      return Allowed;
    }
  }

  /** The wait a full window asks for is exact: every earlier call is rejected, and one at that moment is accepted. */
  lemma FullWindowRetry(l: Limits, entries: map<Key, Rate>, key: Key, now: int, later: int)
    requires VerdictFor(l, entries, key, now).LimitExceeded? && now <= later
    ensures later < now + VerdictFor(l, entries, key, now).retryAfter ==> !VerdictFor(l, entries, key, later).Allowed?
    ensures later == now + VerdictFor(l, entries, key, now).retryAfter ==> VerdictFor(l, entries, key, later).Allowed?
  {
  }

  /** The wait after a hasty message is the shortest one too, unless the window ends before. */
  lemma HastyRetry(l: Limits, entries: map<Key, Rate>, key: Key, now: int, later: int)
    requires VerdictFor(l, entries, key, now).SlowDown? && now <= later
    requires later < now + VerdictFor(l, entries, key, now).retryAfter
    ensures key in entries
    ensures VerdictFor(l, entries, key, later).Allowed? <==> entries[key].windowStart + l.window <= later
  {
  }

  // ----- runs -----

  datatype Call = Call(key: Key, now: int)

  function Init<T>(s: seq<T>): seq<T>
    requires s != []
  {
    s[..|s| - 1]
  }

  function Last<T>(s: seq<T>): T
    requires s != []
  {
    s[|s| - 1]
  }

  /** A clock that has started and never goes back. */
  predicate Clocked(calls: seq<Call>) {
    (forall i :: 0 <= i < |calls| ==> 0 < calls[i].now) &&
    (forall i, j :: 0 <= i < j < |calls| ==> calls[i].now <= calls[j].now)
  }

  function Run(l: Limits, calls: seq<Call>): map<Key, Rate> {
    if calls == [] then map[] else Checked(l, Run(l, Init(calls)), Last(calls).key, Last(calls).now)
  }

  /** An accepted call: when it came, when its window began, and its place in the window. */
  datatype Grant = Grant(time: int, window: int, ordinal: nat)

  function Grants(l: Limits, calls: seq<Call>, key: Key): seq<Grant> {
    if calls == [] then []
    else
      var before, call := Run(l, Init(calls)), Last(calls);
      var after := Checked(l, before, call.key, call.now);
      if call.key == key && VerdictFor(l, before, key, call.now).Allowed?
      then Grants(l, Init(calls), key) + [Grant(call.now, after[key].windowStart, after[key].count)]
      else Grants(l, Init(calls), key)
  }

  predicate GrantOk(l: Limits, g: Grant) {
    && 0 < g.ordinal <= l.max
    && g.window <= g.time < g.window + l.window
    && (g.ordinal == 1 ==> g.time == g.window)
  }

  /** The next accepted call is in the same window, and late enough, or opens the next one. */
  predicate Follows(l: Limits, g: Grant, h: Grant) {
    if h.window == g.window then h.ordinal == g.ordinal + 1 && g.time + l.minInterval <= h.time
    else h.ordinal == 1 && g.window + l.window <= h.window
  }

  ghost predicate Track(l: Limits, gs: seq<Grant>) {
    && (forall i :: 0 <= i < |gs| ==> GrantOk(l, gs[i]))
    && (forall i, j :: 0 <= i < |gs| && j == i + 1 && j < |gs| ==> Follows(l, gs[i], gs[j]))
  }

  /** The entry of a key remembers its last accepted call. */
  lemma {:induction false} EntryTracks(l: Limits, calls: seq<Call>, key: Key)
    requires Clocked(calls)
    ensures var gs, entry := Grants(l, calls, key), EntryOf(Run(l, calls), key);
            && Track(l, gs)
            && entry == (if gs == [] then None else Some(Rate(Last(gs).window, Last(gs).time, Last(gs).ordinal)))
            && (gs != [] ==> calls != [] && 0 < Last(gs).time <= Last(calls).now)
  {
    if calls != [] {
      assert Clocked(Init(calls));
      EntryTracks(l, Init(calls), key);
    }
  }

  lemma {:induction false} WindowsApart(l: Limits, gs: seq<Grant>, i: nat, j: nat)
    requires Track(l, gs) && i <= j < |gs|
    ensures gs[i].window == gs[j].window ==>
      gs[j].ordinal == gs[i].ordinal + (j - i) && gs[i].time + (j - i) * l.minInterval <= gs[j].time
    ensures gs[i].window != gs[j].window ==> gs[i].window + l.window <= gs[j].window
    ensures gs[i].time <= gs[j].time
  {
    if i < j {
      WindowsApart(l, gs, i, j - 1);
      assert Follows(l, gs[j - 1], gs[j]) && GrantOk(l, gs[j]) && GrantOk(l, gs[j - 1]);
      assert (j - i) * l.minInterval == (j - 1 - i) * l.minInterval + l.minInterval;
    }
  }

  /** Calls accepted in one window are at least the minimum interval apart. */
  lemma SpacedInsideWindow(l: Limits, calls: seq<Call>, key: Key, i: nat, j: nat)
    requires Clocked(calls) && i < j < |Grants(l, calls, key)|
    requires Grants(l, calls, key)[i].window == Grants(l, calls, key)[j].window
    ensures Grants(l, calls, key)[i].time + (j - i) * l.minInterval <= Grants(l, calls, key)[j].time
  {
    EntryTracks(l, calls, key);
    WindowsApart(l, Grants(l, calls, key), i, j);
  }

  /** Of any 2 * max accepted calls in a row the last comes a whole window after the first. */
  lemma TwoWindowsSpan(l: Limits, gs: seq<Grant>, i: nat, j: nat)
    requires Track(l, gs) && j == i + 2 * l.max - 1 && j < |gs|
    ensures gs[i].time + l.window <= gs[j].time
  {
    assert GrantOk(l, gs[i]) && GrantOk(l, gs[j]);
    if gs[i].ordinal == 1 {
      var k := i + l.max;
      if k <= j {
        assert GrantOk(l, gs[k]);
        WindowsApart(l, gs, i, k);
        WindowsApart(l, gs, k, j);
      } else {
        WindowsApart(l, gs, i, j);
      }
    } else {
      var k := i + l.max - gs[i].ordinal + 1;
      assert GrantOk(l, gs[k]);
      WindowsApart(l, gs, i, k);
      WindowsApart(l, gs, k, j);
    }
  }

  /** The accepted calls of a key within [from, until). */
  function Within(gs: seq<Grant>, from: int, until: int): set<nat> {
    set i | 0 <= i < |gs| && from <= gs[i].time < until
  }

  /** How many calls of a key a run accepts in the window-long interval that begins at a moment. */
  function Load(l: Limits, calls: seq<Call>, key: Key, from: int): nat {
    |Within(Grants(l, calls, key), from, from + l.window)|
  }

  lemma {:induction false} RangeSize(s: set<nat>, lo: nat, n: nat)
    requires forall i :: i in s ==> lo <= i < lo + n
    ensures |s| <= n
  {
    if n == 0 {
      assert s == {};
    } else {
      RangeSize(s - {lo + n - 1}, lo, n - 1);
    }
  }

  /** Over any run, no half-open interval as long as the window holds more than 2 * max - 1 accepted calls of a key. */
  lemma SlidingWindowBound(l: Limits, calls: seq<Call>, key: Key, from: int)
    requires Clocked(calls)
    ensures Load(l, calls, key, from) <= 2 * l.max - 1
  {
    var gs := Grants(l, calls, key);
    EntryTracks(l, calls, key);
    var s := Within(gs, from, from + l.window);
    if s != {} {
      var lo := Least(s);
      forall j | j in s ensures lo <= j < lo + (2 * l.max - 1) {
        var k := lo + 2 * l.max - 1;
        if k <= j {
          TwoWindowsSpan(l, gs, lo, k);
          WindowsApart(l, gs, k, j);
        }
      }
      RangeSize(s, lo, 2 * l.max - 1);
    }
  }

  lemma Least(s: set<nat>) returns (lo: nat)
    requires s != {}
    ensures lo in s && forall i :: i in s ==> lo <= i
    decreases |s|
  {
    lo :| lo in s;
    if s != {lo} {
      var other := Least(s - {lo});
      assert forall i :: i in s ==> i == lo || i in s - {lo};
      lo := Min(lo, other);
    }
  }

  /** One message, a pause, and then messages at the minimum interval around the end of the first window. */
  function BusyTime(l: Limits, i: nat): int {
    if i == 0 then 1 else 1 + l.window + (i - l.max) * l.minInterval
  }

  function BusyCalls(l: Limits, key: Key, n: nat): (calls: seq<Call>)
    ensures |calls| == n && forall i :: 0 <= i < n ==> calls[i] == Call(key, BusyTime(l, i))
  {
    seq(n, i requires 0 <= i < n => Call(key, BusyTime(l, i)))
  }

  lemma Multiples(a: int, b: int, m: nat)
    requires a <= b
    ensures a * m <= b * m && (a + 1) * m == a * m + m && (a < b ==> a * m + m <= b * m)
  {
    assert b * m - a * m == (b - a) * m;
  }

  predicate HasRoom(l: Limits) { 2 * l.max * l.minInterval <= l.window }

  lemma BusyEnds(l: Limits)
    requires HasRoom(l)
    ensures BusyTime(l, 0) == 1 && BusyTime(l, l.max) == 1 + l.window
    ensures BusyTime(l, 0) + l.minInterval <= BusyTime(l, 1)
    ensures BusyTime(l, 2 * l.max) + l.minInterval <= BusyTime(l, 1) + l.window
    ensures BusyTime(l, 2 * l.max) <= 1 + 2 * l.window
  {
    assert 2 * l.max * l.minInterval == l.max * l.minInterval + l.max * l.minInterval;
    assert (1 - l.max) * l.minInterval == l.minInterval - l.max * l.minInterval;
    Multiples(1, l.max, l.minInterval);
  }

  lemma BusyGap(l: Limits, i: nat, j: nat)
    requires HasRoom(l) && i < j
    ensures BusyTime(l, i) + l.minInterval <= BusyTime(l, j)
  {
    BusyEnds(l);
    if i == 0 {
      Multiples(1 - l.max, j - l.max, l.minInterval);
    } else {
      Multiples(i - l.max, j - l.max, l.minInterval);
    }
  }

  lemma BusyPositive(l: Limits, i: nat)
    requires HasRoom(l)
    ensures 0 < BusyTime(l, i) && (i < l.max ==> BusyTime(l, i) < 1 + l.window)
    ensures l.max <= i < 2 * l.max ==> 1 + l.window <= BusyTime(l, i) < 1 + 2 * l.window
  {
    hide BusyTime;
    BusyEnds(l);
    if 0 < i {
      BusyGap(l, 0, i);
    }
    if i < l.max {
      BusyGap(l, i, l.max);
    } else if i < 2 * l.max {
      if l.max < i {
        BusyGap(l, l.max, i);
      }
      BusyGap(l, i, 2 * l.max);
    }
  }

  lemma {:induction false} BusyRun(l: Limits, key: Key, n: nat)
    requires HasRoom(l) && n <= 2 * l.max
    ensures |Grants(l, BusyCalls(l, key, n), key)| == n
    ensures forall i :: 0 <= i < n ==> Grants(l, BusyCalls(l, key, n), key)[i].time == BusyTime(l, i)
    ensures EntryOf(Run(l, BusyCalls(l, key, n)), key) == if n == 0 then None else Some(BusyRate(l, n))
  {
    var calls := BusyCalls(l, key, n);
    hide BusyTime, HasRoom, VerdictFor, Checked, BusyRate;
    if n > 0 {
      assert Init(calls) == BusyCalls(l, key, n - 1);
      BusyRun(l, key, n - 1);
      BusyNext(l, Run(l, Init(calls)), key, n - 1);
    }
  }

  lemma BusyClocked(l: Limits, key: Key, n: nat)
    requires HasRoom(l)
    ensures Clocked(BusyCalls(l, key, n))
  {
    hide BusyTime, HasRoom;
    var calls := BusyCalls(l, key, n);
    forall i, j | 0 <= i < j < n ensures calls[i].now <= calls[j].now {
      BusyGap(l, i, j);
    }
    forall i | 0 <= i < n ensures 0 < calls[i].now {
      BusyPositive(l, i);
    }
  }

  lemma BusyNext(l: Limits, entries: map<Key, Rate>, key: Key, n: nat)
    requires HasRoom(l) && n < 2 * l.max
    requires EntryOf(entries, key) == if n == 0 then None else Some(BusyRate(l, n))
    ensures VerdictFor(l, entries, key, BusyTime(l, n)).Allowed?
    ensures EntryOf(Checked(l, entries, key, BusyTime(l, n)), key) == Some(BusyRate(l, n + 1))
  {
    hide BusyTime, HasRoom, Current, Judge;
    BusyStep(l, n);
  }

  function BusyRate(l: Limits, n: nat): Rate
    requires n > 0
  {
    if n <= l.max then Rate(1, BusyTime(l, n - 1), n) else Rate(1 + l.window, BusyTime(l, n - 1), n - l.max)
  }

  lemma BusyStep(l: Limits, n: nat)
    requires HasRoom(l) && n < 2 * l.max
    ensures var r := Current(l, if n == 0 then None else Some(BusyRate(l, n)), BusyTime(l, n));
      Judge(l, r, BusyTime(l, n)).Allowed? && Rate(r.windowStart, BusyTime(l, n), r.count + 1) == BusyRate(l, n + 1)
  {
    hide BusyTime, HasRoom;
    BusyEnds(l);
    BusyPositive(l, n);
    if n > 0 {
      BusyPositive(l, n - 1);
      BusyGap(l, n - 1, n);
    }
  }

  lemma BusyInside(l: Limits, i: nat)
    requires HasRoom(l) && 1 <= i < 2 * l.max
    ensures BusyTime(l, 1) <= BusyTime(l, i) < BusyTime(l, 1) + l.window
  {
    hide BusyTime, HasRoom;
    BusyEnds(l);
    if 1 < i {
      BusyGap(l, 1, i);
    }
    BusyGap(l, i, 2 * l.max);
  }

  /** The bound is the best one: it is reached. */
  lemma BoundIsReached(l: Limits, key: Key)
    requires HasRoom(l)
    ensures var calls := BusyCalls(l, key, 2 * l.max);
            Clocked(calls) && Load(l, calls, key, BusyTime(l, 1)) == 2 * l.max - 1
  {
    var calls := BusyCalls(l, key, 2 * l.max);
    BusyClocked(l, key, 2 * l.max);
    BusyRun(l, key, 2 * l.max);
    var gs := Grants(l, calls, key);
    var s := Within(gs, BusyTime(l, 1), BusyTime(l, 1) + l.window);
    forall i | 1 <= i < 2 * l.max ensures i in s {
      BusyInside(l, i);
    }
    RangeCovered(s, 1, 2 * l.max - 1);
    SlidingWindowBound(l, calls, key, BusyTime(l, 1));
  }

  lemma {:induction false} RangeCovered(s: set<nat>, lo: nat, n: nat)
    requires forall i :: lo <= i < lo + n ==> i in s
    ensures n <= |s|
  {
    if n > 0 {
      RangeCovered(s - {lo + n - 1}, lo, n - 1);
    }
  }

  /** Both chats are busy enough for it: 59 and 39 messages within one minute get through. */
  lemma ChatsReachTheBound(key: Key)
    ensures exists calls, from :: Clocked(calls) && Load(CHAT, calls, key, from) == 59
    ensures exists calls, from :: Clocked(calls) && Load(SUPPORT_CHAT, calls, key, from) == 39
  {
    BoundIsReached(CHAT, key);
    BoundIsReached(SUPPORT_CHAT, key);
  }
}
