// The STUN rate limiter: a global and a per-source budget, each a window that
// starts at the first call after the previous one has lasted a second, and a
// table of sources that forgets those idle for a minute.
//
// Times are nanoseconds. A new limiter and an unknown source both start from
// ZERO_TIME.
module Limiter {
  import opened Wrappers
  import opened Clock

  const GLOBAL_LIMIT := 1000
  const SOURCE_LIMIT := 20
  const TABLE_LIMIT := 1024

  datatype Budget = Budget(at: int, count: nat)
  datatype State = State(sources: map<string, Budget>, global: Budget)
  datatype Call = Call(source: string, now: int)

  const UNUSED := Budget(ZERO_TIME, 0)
  const INITIAL := State(map[], UNUSED)

  function Refresh(b: Budget, now: int): (budget: Budget) {
    if b.at + SECOND <= now then Budget(now, 0) else b
  }

  function Spend(b: Budget): (budget: Budget) {
    b.(count := b.count + 1)
  }

  function Recent(sources: map<string, Budget>, now: int): (recent: map<string, Budget>) {
    map s | s in sources && sources[s].at + MINUTE > now :: sources[s]
  }

  function Lookup(sources: map<string, Budget>, source: string): (budget: Budget) {
    if source in sources then sources[source] else UNUSED
  }

  // The program's decision: it first drops the sources idle for a minute.
  function Decide(s: State, call: Call): (r: (State, bool)) {
    var global := Refresh(s.global, call.now);
    if global.count >= GLOBAL_LIMIT then (s.(global := global), false)
    else
      var kept := Recent(s.sources, call.now);
      var value := Refresh(Lookup(kept, call.source), call.now);
      if (call.source !in kept && |kept| >= TABLE_LIMIT) || value.count >= SOURCE_LIMIT
      then (State(kept, global), false)
      else (State(kept[call.source := Spend(value)], Spend(global)), true)
  }

  // The limiter as one would state it: no source is ever forgotten, and the
  // table limit counts the sources whose latest window began in the last minute.
  function Remember(s: State, call: Call): (r: (State, bool)) {
    var global := Refresh(s.global, call.now);
    var recent := Recent(s.sources, call.now).Keys;
    var value := Refresh(Lookup(s.sources, call.source), call.now);
    if || global.count >= GLOBAL_LIMIT
       || (call.source !in recent && |recent| >= TABLE_LIMIT)
       || value.count >= SOURCE_LIMIT
    then (s.(global := global), false)
    else (State(s.sources[call.source := Spend(value)], Spend(global)), true)
  }

  // ---- runs ----

  predicate Ordered(calls: seq<Call>) {
    forall i, j :: 0 <= i <= j < |calls| ==> calls[i].now <= calls[j].now
  }

  function After(calls: seq<Call>): (after: State) {
    if calls == [] then INITIAL
    else Decide(After(calls[..|calls| - 1]), calls[|calls| - 1]).0
  }

  function Remembered(calls: seq<Call>): (after: State) {
    if calls == [] then INITIAL
    else Remember(Remembered(calls[..|calls| - 1]), calls[|calls| - 1]).0
  }

  // Whether the last call of the run is allowed.
  predicate Allowed(calls: seq<Call>)
    requires calls != []
  {
    Decide(After(calls[..|calls| - 1]), calls[|calls| - 1]).1
  }

  // ---- forgetting is not observable ----

  // The program's table is the reference table without entries that had been
  // idle for a minute by `now`.
  ghost predicate Forgets(s: State, r: State, now: int) {
    && s.global == r.global
    && (forall x :: x in s.sources ==> x in r.sources && s.sources[x] == r.sources[x])
    && (forall x :: x in r.sources ==> r.sources[x].at >= ZERO_TIME)
    && (forall x :: x in r.sources && x !in s.sources ==> r.sources[x].at + MINUTE <= now)
  }

  lemma RecentAgree(s: State, r: State, past: int, now: int)
    requires Forgets(s, r, past) && past <= now
    ensures Recent(s.sources, now) == Recent(r.sources, now)
  {
  }

  lemma DecisionsAgree(s: State, r: State, past: int, call: Call)
    requires Forgets(s, r, past) && past <= call.now
    ensures Decide(s, call).1 == Remember(r, call).1
    ensures Forgets(Decide(s, call).0, Remember(r, call).0, call.now)
  {
    RecentAgree(s, r, past, call.now);
    var kept := Recent(s.sources, call.now);
    assert |kept| == |kept.Keys|;
    assert Refresh(Lookup(kept, call.source), call.now) == Refresh(Lookup(r.sources, call.source), call.now);
  }

  lemma {:induction false} RunsAgree(calls: seq<Call>)
    requires Ordered(calls)
    ensures Forgets(After(calls), Remembered(calls), if calls == [] then ZERO_TIME else calls[|calls| - 1].now)
    ensures calls != [] ==> Allowed(calls) == Remember(Remembered(calls[..|calls| - 1]), calls[|calls| - 1]).1
  {
    if calls != [] {
      var earlier, call := calls[..|calls| - 1], calls[|calls| - 1];
      RunsAgree(earlier);
      var past := if earlier == [] then call.now else earlier[|earlier| - 1].now;
      DecisionsAgree(After(earlier), Remembered(earlier), past, call);
    }
  }

  // Every call of every run with a non-decreasing clock gets the same answer
  // from the program as from the limiter that remembers everything.
  lemma ForgettingIsInvisible(calls: seq<Call>, i: nat)
    requires Ordered(calls) && i < |calls|
    ensures Allowed(calls[..i + 1]) == Remember(Remembered(calls[..i]), calls[i]).1
  {
    RunsAgree(calls[..i + 1]);
    assert calls[..i + 1][..i] == calls[..i];
  }

  lemma {:induction false} TableIsBounded(calls: seq<Call>)
    ensures |After(calls).sources| <= 1024
  {
    if calls != [] {
      var s, call := After(calls[..|calls| - 1]), calls[|calls| - 1];
      TableIsBounded(calls[..|calls| - 1]);
      var kept := Recent(s.sources, call.now);
      SmallerTable(kept, s.sources);
      var value := Refresh(Lookup(kept, call.source), call.now);
      var added := kept[call.source := Spend(value)];
      assert added.Keys == kept.Keys + {call.source};
      assert |added| == |added.Keys| && |kept| == |kept.Keys|;
      if call.source in kept {
        assert added.Keys == kept.Keys;
      }
    }
  }

  lemma {:induction false} SmallerTable(a: map<string, Budget>, b: map<string, Budget>)
    requires a.Keys <= b.Keys
    ensures |a| <= |b|
  {
    assert |a| == |a.Keys| && |b| == |b.Keys|;
    SubsetIsSmaller(a.Keys, b.Keys);
  }

  // ---- how many calls any stretch of time lets through ----

  predicate Concerns(call: Call, who: Option<string>) {
    who.None? || who.value == call.source
  }

  // The times of the allowed calls, of one source or of all.
  function Times(calls: seq<Call>, who: Option<string>): (times: seq<int>) {
    if calls == [] then []
    else
      var earlier := Times(calls[..|calls| - 1], who);
      var call := calls[|calls| - 1];
      if Allowed(calls) && Concerns(call, who) then earlier + [call.now] else earlier
  }

  function CountIn(times: seq<int>, from: int, until: int): (n: nat) {
    if times == [] then 0
    else CountIn(times[..|times| - 1], from, until) + (if from <= times[|times| - 1] < until then 1 else 0)
  }

  function CountFrom(times: seq<int>, from: int): (n: nat) {
    if times == [] then 0
    else CountFrom(times[..|times| - 1], from) + (if from <= times[|times| - 1] then 1 else 0)
  }

  function Limit(who: Option<string>): (n: nat) {
    if who.None? then GLOBAL_LIMIT else SOURCE_LIMIT
  }

  function BudgetOf(s: State, who: Option<string>): (budget: Budget) {
    if who.None? then s.global else Lookup(s.sources, who.value)
  }

  // What a budget says about the calls it has let through by `now`: those since
  // its window began are at most its count, and each full second before that
  // adds at most one limit, plus one for the window straddling the start.
  ghost predicate Accounts(times: seq<int>, b: Budget, limit: nat, now: int) {
    && b.count <= limit
    && (forall i :: 0 <= i < |times| ==> times[i] <= now)
    && (b.at <= now || |times| <= b.count)
    && (forall from :: from > b.at ==> CountFrom(times, from) <= b.count)
    && (forall from :: from <= b.at ==>
          CountFrom(times, from) <= limit * ((b.at - from) / SECOND + 1) + b.count)
  }

  lemma {:induction false} CountFromBounds(times: seq<int>, from: int)
    ensures CountFrom(times, from) <= |times|
  {
    if times != [] {
      CountFromBounds(times[..|times| - 1], from);
    }
  }

  lemma {:induction false} NoneFromLater(times: seq<int>, from: int)
    requires forall i :: 0 <= i < |times| ==> times[i] < from
    ensures CountFrom(times, from) == 0
  {
    if times != [] {
      NoneFromLater(times[..|times| - 1], from);
    }
  }

  lemma WindowArithmetic(limit: nat, at: int, from: int, now: int)
    requires from <= at && at + SECOND <= now
    ensures limit * ((at - from) / SECOND + 1) + limit <= limit * ((now - from) / SECOND + 1)
  {
    var k, m := (at - from) / SECOND, (now - from) / SECOND;
    assert k + 1 <= m;
    assert limit * (k + 1) + limit == limit * (k + 2);
    assert limit * (k + 2) <= limit * (m + 1);
  }

  // A window that has lasted a second is one of those a later one counts.
  lemma WindowPasses(times: seq<int>, b: Budget, limit: nat, past: int, now: int, from: int)
    requires Accounts(times, b, limit, past) && b.at + SECOND <= now && from <= now
    ensures CountFrom(times, from) <= limit * ((now - from) / SECOND + 1)
  {
    if from <= b.at {
      WindowArithmetic(limit, b.at, from, now);
    } else {
      AtLeastOne(limit, (now - from) / SECOND);
    }
  }

  lemma AtLeastOne(limit: nat, windows: nat)
    ensures limit <= limit * (windows + 1)
  {
  }

  lemma RefreshAccounts(times: seq<int>, b: Budget, limit: nat, past: int, now: int)
    requires Accounts(times, b, limit, past) && past <= now
    ensures Accounts(times, Refresh(b, now), limit, now)
  {
    var r := Refresh(b, now);
    if r != b {
      forall from ensures from > now ==> CountFrom(times, from) <= 0 {
        if from > now {
          NoneFromLater(times, from);
        }
      }
      forall from | from <= now ensures CountFrom(times, from) <= limit * ((now - from) / SECOND + 1) {
        WindowPasses(times, b, limit, past, now, from);
      }
    }
  }

  lemma SpendAccounts(times: seq<int>, b: Budget, limit: nat, now: int)
    requires Accounts(times, b, limit, now) && b.count < limit
    ensures Accounts(times + [now], Spend(b), limit, now)
  {
    forall from ensures CountFrom(times + [now], from) <= CountFrom(times, from) + 1 {
      assert (times + [now])[..|times|] == times;
    }
  }

  // What one call does to the budget of `who`.
  lemma BudgetAfter(r: State, call: Call, who: Option<string>)
    ensures var (r', allowed) := Remember(r, call);
            var b, b' := Refresh(BudgetOf(r, who), call.now), BudgetOf(r', who);
            if allowed && Concerns(call, who) then b' == Spend(b) && b.count < Limit(who)
            else b' == b || b' == BudgetOf(r, who)
  {
  }

  lemma {:induction false} RunAccounts(calls: seq<Call>, who: Option<string>)
    requires Ordered(calls)
    ensures Accounts(Times(calls, who), BudgetOf(Remembered(calls), who), Limit(who),
                     if calls == [] then ZERO_TIME else calls[|calls| - 1].now)
  {
    if calls != [] {
      var earlier, call := calls[..|calls| - 1], calls[|calls| - 1];
      RunAccounts(earlier, who);
      RunsAgree(calls);
      var r := Remembered(earlier);
      var past := if earlier == [] then call.now else earlier[|earlier| - 1].now;
      StepAccounts(Times(earlier, who), r, past, call, who);
    }
  }

  lemma StepAccounts(times: seq<int>, r: State, past: int, call: Call, who: Option<string>)
    requires Accounts(times, BudgetOf(r, who), Limit(who), past) && past <= call.now
    ensures var (r', allowed) := Remember(r, call);
            Accounts(if allowed && Concerns(call, who) then times + [call.now] else times,
                     BudgetOf(r', who), Limit(who), call.now)
  {
    var b := BudgetOf(r, who);
    BudgetAfter(r, call, who);
    RefreshAccounts(times, b, Limit(who), past, call.now);
    if Remember(r, call).1 && Concerns(call, who) {
      SpendAccounts(times, Refresh(b, call.now), Limit(who), call.now);
    }
  }

  lemma {:induction false} CountInBelow(times: seq<int>, from: int, until: int)
    requires forall i :: 0 <= i < |times| ==> times[i] < until
    ensures CountIn(times, from, until) == CountFrom(times, from)
  {
    if times != [] {
      CountInBelow(times[..|times| - 1], from, until);
    }
  }

  // Over any run with a non-decreasing clock, a half-open interval of `seconds`
  // whole seconds contains at most `seconds + 1` limits' worth of allowed calls,
  // of one source or overall, wherever the interval starts.
  lemma {:induction false} RateIsBounded(calls: seq<Call>, who: Option<string>, from: int, seconds: nat)
    requires Ordered(calls) && seconds >= 1
    ensures CountIn(Times(calls, who), from, from + seconds * 1_000_000_000)
            <= (if who.None? then 1000 else 20) * (seconds + 1)
  {
    var until := from + seconds * SECOND;
    var times := Times(calls, who);
    if calls != [] {
      var call := calls[|calls| - 1];
      if call.now >= until {
        RateIsBounded(calls[..|calls| - 1], who, from, seconds);
        OutsideAddsNothing(times, Times(calls[..|calls| - 1], who), call.now, from, until);
      } else {
        RunAccounts(calls, who);
        CountInBelow(times, from, until);
        AccountsBound(times, BudgetOf(Remembered(calls), who), Limit(who), call.now, from, seconds);
      }
    }
  }

  lemma OutsideAddsNothing(times: seq<int>, earlier: seq<int>, now: int, from: int, until: int)
    requires now >= until && (times == earlier || times == earlier + [now])
    ensures CountIn(times, from, until) == CountIn(earlier, from, until)
  {
    if times != earlier {
      assert times[..|times| - 1] == earlier;
    }
  }

  lemma AccountsBound(times: seq<int>, b: Budget, limit: nat, now: int, from: int, seconds: nat)
    requires Accounts(times, b, limit, now) && now < from + seconds * SECOND
    ensures CountFrom(times, from) <= limit * (seconds + 1)
  {
    CountFromBounds(times, from);
    if b.at <= now && from <= b.at {
      WindowsWithin(limit, b.at, from, seconds);
    } else {
      AtLeastOne(limit, seconds);
    }
  }

  lemma WindowsWithin(limit: nat, at: int, from: int, seconds: nat)
    requires from <= at < from + seconds * SECOND
    ensures limit * ((at - from) / SECOND + 1) + limit <= limit * (seconds + 1)
  {
    var k := (at - from) / SECOND;
    assert k + 1 <= seconds;
    assert limit * (k + 1) <= limit * seconds;
    assert limit * (seconds + 1) == limit * seconds + limit;
  }

  // ---- no refusal without a reason ----

  // A window's count is of calls let through since it began, which is not later
  // than the last call.
  ghost predicate Backed(times: seq<int>, b: Budget, now: int) {
    b.at <= now && b.count <= CountFrom(times, b.at)
  }

  lemma SpendBacked(times: seq<int>, b: Budget, now: int)
    requires Backed(times, b, now)
    ensures Backed(times + [now], Spend(b), now)
  {
    assert (times + [now])[..|times|] == times;
  }

  // No reading of the clock is before the instant an unused window dates from.
  predicate Dated(calls: seq<Call>) {
    forall i :: 0 <= i < |calls| ==> calls[i].now >= ZERO_TIME
  }

  lemma {:induction false} RunBacked(calls: seq<Call>, who: Option<string>)
    requires Ordered(calls) && Dated(calls)
    ensures Backed(Times(calls, who), BudgetOf(Remembered(calls), who),
                   if calls == [] then ZERO_TIME else calls[|calls| - 1].now)
  {
    if calls != [] {
      var earlier, call := calls[..|calls| - 1], calls[|calls| - 1];
      RunBacked(earlier, who);
      RunsAgree(calls);
      assert earlier != [] ==> earlier[|earlier| - 1] == calls[|calls| - 2];
      BudgetAfter(Remembered(earlier), call, who);
      if Allowed(calls) && Concerns(call, who) {
        SpendBacked(Times(earlier, who), Refresh(BudgetOf(Remembered(earlier), who), call.now), call.now);
      }
    }
  }

  // Every source on record has been let through in its window.
  lemma {:induction false} RecordedAreSpent(calls: seq<Call>)
    ensures forall x :: x in Remembered(calls).sources ==> Remembered(calls).sources[x].count >= 1
  {
    if calls != [] {
      RecordedAreSpent(calls[..|calls| - 1]);
    }
  }

  lemma {:induction false} CountFromShrinks(times: seq<int>, from: int, later: int)
    requires from <= later
    ensures CountFrom(times, later) <= CountFrom(times, from)
  {
    if times != [] {
      CountFromShrinks(times[..|times| - 1], from, later);
    }
  }

  // How many calls were let through since `from`, of one source or of all.
  function LetThrough(calls: seq<Call>, who: Option<string>, from: int): (n: nat) {
    CountFrom(Times(calls, who), from)
  }

  lemma RunningWindowIsSpent(calls: seq<Call>, who: Option<string>, now: int, age: int, n: nat)
    requires Ordered(calls) && Dated(calls)
    requires BudgetOf(Remembered(calls), who).count >= n && BudgetOf(Remembered(calls), who).at + age > now
    ensures LetThrough(calls, who, now - age + 1) >= n
  {
    RunBacked(calls, who);
    CountFromShrinks(Times(calls, who), now - age + 1, BudgetOf(Remembered(calls), who).at);
  }

  // At least `n` calls of the source, or of all, were let through in the `age` up to
  // now, this instant included.
  ghost predicate Spent(calls: seq<Call>, who: Option<string>, now: int, age: int, n: nat) {
    LetThrough(calls, who, now - age + 1) >= n
  }

  // The 1024 sources were all let through in the last minute.
  ghost predicate Crowd(calls: seq<Call>, sources: set<string>, now: int) {
    |sources| >= 1024 && forall x :: x in sources ==> Spent(calls, Some(x), now, 60_000_000_000, 1)
  }

  lemma RecentIsSpent(calls: seq<Call>, r: State, now: int, x: string)
    requires Ordered(calls) && Dated(calls) && r == Remembered(calls) && x in Recent(r.sources, now)
    ensures Spent(calls, Some(x), now, 60_000_000_000, 1)
  {
    RecordedAreSpent(calls);
    RunningWindowIsSpent(calls, Some(x), now, MINUTE, 1);
  }

  lemma FullTableIsCrowd(calls: seq<Call>, r: State, now: int)
    requires Ordered(calls) && Dated(calls) && r == Remembered(calls)
    requires |Recent(r.sources, now).Keys| >= TABLE_LIMIT
    ensures Crowd(calls, Recent(r.sources, now).Keys, now)
  {
    forall x | x in Recent(r.sources, now) ensures Spent(calls, Some(x), now, 60_000_000_000, 1) {
      RecentIsSpent(calls, r, now, x);
    }
  }

  lemma BudgetIsSpent(calls: seq<Call>, r: State, who: Option<string>, now: int, n: nat)
    requires Ordered(calls) && Dated(calls) && r == Remembered(calls)
    requires n >= 1 && Refresh(BudgetOf(r, who), now).count >= n
    ensures Spent(calls, who, now, 1_000_000_000, n)
  {
    RunningWindowIsSpent(calls, who, now, SECOND, n);
  }

  // Why a call is refused.
  ghost predicate Exhausted(calls: seq<Call>, call: Call) {
    || Spent(calls, None, call.now, 1_000_000_000, 1000)
    || Spent(calls, Some(call.source), call.now, 1_000_000_000, 20)
    || exists others :: Crowd(calls, others, call.now) && call.source !in others
  }

  lemma RefusalIsExhausted(calls: seq<Call>, r: State, call: Call)
    requires Ordered(calls) && Dated(calls) && r == Remembered(calls) && !Remember(r, call).1
    ensures Exhausted(calls, call)
  {
    if Refresh(r.global, call.now).count >= GLOBAL_LIMIT {
      BudgetIsSpent(calls, r, None, call.now, GLOBAL_LIMIT);
    } else if Refresh(Lookup(r.sources, call.source), call.now).count >= SOURCE_LIMIT {
      BudgetIsSpent(calls, r, Some(call.source), call.now, SOURCE_LIMIT);
    } else {
      FullTableIsCrowd(calls, r, call.now);
    }
  }

  // A call is refused only when within the second up to it a thousand calls, or
  // twenty of its own source, were let through, or the source is one too many within
  // the minute: a spent budget is open again a second later.
  lemma RefusedOnlyWhenSpent(calls: seq<Call>, i: nat)
    requires Ordered(calls) && Dated(calls) && i < |calls| && !Allowed(calls[..i + 1])
    ensures Exhausted(calls[..i], calls[i])
  {
    ForgettingIsInvisible(calls, i);
    RefusalIsExhausted(calls[..i], Remembered(calls[..i]), calls[i]);
  }

  // ---- the limiter itself ----

  class RateLimiter {
    var sources: map<string, Budget>
    var global: Budget

    function Snapshot(): (s: State)
      reads this
    {
      State(sources, global)
    }

    constructor ()
      ensures Snapshot() == INITIAL
    {
      sources, global := map[], UNUSED;
    }

    method Allow(source: string, now: int) returns (allowed: bool)
      modifies this
      ensures (Snapshot(), allowed) == Decide(old(Snapshot()), Call(source, now))
    {
      if global.at + SECOND <= now {
        global := Budget(now, 0);
      }
      if global.count >= GLOBAL_LIMIT {
        return false;
      }
      EvictIdle(now);
      if source !in sources && |sources| >= TABLE_LIMIT {
        return false;
      }
      var value := if source in sources then sources[source] else UNUSED;
      if value.at + SECOND <= now {
        value := Budget(now, 0);
      }
      if value.count >= SOURCE_LIMIT {
        return false;
      }
      global := global.(count := global.count + 1);
      sources := sources[source := value.(count := value.count + 1)];
      return true;
    }

    // The loop over the table that deletes while it ranges.
    method EvictIdle(now: int)
      modifies `sources
      ensures sources == Recent(old(sources), now)
    {
      var pending := sources.Keys;
      while pending != {}
        invariant pending <= sources.Keys <= old(sources).Keys
        invariant forall s :: s in sources ==> sources[s] == old(sources)[s]
        invariant forall s :: s in old(sources) && s !in pending ==>
                    (s in sources <==> old(sources)[s].at + MINUTE > now)
        decreases pending
      {
        var key :| key in pending;
        pending := pending - {key};
        if sources[key].at + MINUTE <= now {
          sources := sources - {key};
        }
      }
    }
  }
}
