/** The fixed-window rate limiter (`createFixedWindowRateLimiter` of x402/src/server.ts). */
module RateLimiter {

  datatype Window = Window(count: nat, resetAt: int)

  type Windows = map<string, Window>

  /** No window, or one that is over. */
  predicate Open(ws: Windows, key: string, now: int) {
    key !in ws || now >= ws[key].resetAt
  }

  predicate Allowed(limit: int, ws: Windows, key: string, now: int) {
    Open(ws, key, now) || ws[key].count < limit
  }

  function After(limit: int, windowMs: int, ws: Windows, key: string, now: int): Windows {
    if Open(ws, key, now) then ws[key := Window(1, now + windowMs)]
    else if ws[key].count < limit then ws[key := ws[key].(count := ws[key].count + 1)]
    else ws
  }

  class FixedWindowRateLimiter {
    const limit: int
    const windowMs: int
    var windows: Windows

    constructor (limit: int, windowMs: int)
      ensures this.limit == limit && this.windowMs == windowMs && windows == map[]
    {
      this.limit := limit;
      this.windowMs := windowMs;
      windows := map[];
    }

    method Allow(key: string, now: int) returns (granted: bool)
      modifies this
      ensures granted == Allowed(limit, old(windows), key, now)
      ensures windows == After(limit, windowMs, old(windows), key, now)
    {
      if key !in windows || now >= windows[key].resetAt {
        windows := windows[key := Window(1, now + windowMs)];
        return true;
      }
      var current := windows[key];
      if current.count >= limit {
        return false;
      }
      current := current.(count := current.count + 1);
      windows := windows[key := current];
      return true;
    }
  }

  // ---- traces ------------------------------------------------------------------------------------

  datatype Call = Call(key: string, now: int)

  /** A granted call, and when the window that granted it began. */
  datatype Grant = Grant(key: string, at: int, start: int)

  datatype Trace = Trace(windows: Windows, grants: seq<Grant>)

  function Run(limit: int, windowMs: int, calls: seq<Call>): Trace {
    if calls == [] then Trace(map[], [])
    else Next(limit, windowMs, Run(limit, windowMs, calls[..|calls| - 1]), calls[|calls| - 1])
  }

  function Next(limit: int, windowMs: int, t: Trace, c: Call): Trace {
    var ws := After(limit, windowMs, t.windows, c.key, c.now);
    Trace(ws, if Allowed(limit, t.windows, c.key, c.now) && c.key in ws
              then t.grants + [Grant(c.key, c.now, ws[c.key].resetAt - windowMs)] else t.grants)
  }

  ghost predicate InOrder(calls: seq<Call>) {
    forall i, j :: 0 <= i < j < |calls| ==> calls[i].now <= calls[j].now
  }

  /** How many grants of `key` its window that began at `start` gave. */
  function InWindow(gs: seq<Grant>, key: string, start: int): nat {
    if gs == [] then 0
    else InWindow(gs[..|gs| - 1], key, start) + if gs[|gs| - 1].key == key && gs[|gs| - 1].start == start then 1 else 0
  }

  predicate Within(g: Grant, key: string, from: int, until: int) {
    g.key == key && from <= g.at <= until
  }

  /** How many grants of `key` fall between two times, both included. */
  function Between(gs: seq<Grant>, key: string, from: int, until: int): nat {
    if gs == [] then 0
    else Between(gs[..|gs| - 1], key, from, until) + if Within(gs[|gs| - 1], key, from, until) then 1 else 0
  }

  // ---- the invariant ---------------------------------------------------------------------------------

  function Most(limit: int): nat {
    if limit < 1 then 1 else limit
  }

  /** Windows of one key never overlap. */
  ghost predicate Disjoint(gs: seq<Grant>, windowMs: int) {
    && (forall i :: 0 <= i < |gs| ==> gs[i].start <= gs[i].at < gs[i].start + windowMs)
    && (forall i, j :: 0 <= i < j < |gs| && gs[i].key == gs[j].key ==>
          gs[i].start == gs[j].start || gs[i].start + windowMs <= gs[j].start)
  }

  /** The window on record is the latest one of its key, and counts its grants. */
  ghost predicate OnRecord(t: Trace, windowMs: int, key: string) {
    if key !in t.windows then forall i :: 0 <= i < |t.grants| ==> t.grants[i].key != key
    else
      var start := t.windows[key].resetAt - windowMs;
      && t.windows[key].count == InWindow(t.grants, key, start)
      && forall i :: 0 <= i < |t.grants| && t.grants[i].key == key ==>
           t.grants[i].start == start || t.grants[i].start + windowMs <= start
  }

  ghost predicate Sound(t: Trace, limit: int, windowMs: int, clock: int) {
    && Disjoint(t.grants, windowMs)
    && (forall key :: OnRecord(t, windowMs, key))
    && (forall key :: key in t.windows ==> t.windows[key].resetAt - windowMs <= clock)
    && (forall key, start :: InWindow(t.grants, key, start) <= Most(limit))
  }

  lemma InWindowSnoc(gs: seq<Grant>, g: Grant, key: string, start: int)
    ensures InWindow(gs + [g], key, start) ==
            InWindow(gs, key, start) + if g.key == key && g.start == start then 1 else 0
  {
  }

  lemma {:induction false} NoneInWindow(gs: seq<Grant>, key: string, start: int)
    requires forall i :: 0 <= i < |gs| && gs[i].key == key ==> gs[i].start != start
    ensures InWindow(gs, key, start) == 0
  {
    if gs != [] {
      NoneInWindow(gs[..|gs| - 1], key, start);
    }
  }

  /** A call leaves the windows of other keys alone. */
  lemma OthersOnRecord(t: Trace, t': Trace, g: Grant, windowMs: int, key: string)
    requires OnRecord(t, windowMs, key) && g.key != key && t'.grants == t.grants + [g]
    requires key in t.windows <==> key in t'.windows
    requires key in t.windows ==> t'.windows[key] == t.windows[key]
    ensures OnRecord(t', windowMs, key)
  {
  }

  /** Where the granting window began: now, or when the current window of the key did. */
  function StartOf(windowMs: int, ws: Windows, c: Call): int {
    if Open(ws, c.key, c.now) then c.now else ws[c.key].resetAt - windowMs
  }

  lemma GrantDisjoint(t: Trace, windowMs: int, clock: int, c: Call)
    requires Disjoint(t.grants, windowMs) && OnRecord(t, windowMs, c.key) && windowMs > 0 && clock <= c.now
    requires c.key in t.windows ==> t.windows[c.key].resetAt - windowMs <= clock
    ensures Disjoint(t.grants + [Grant(c.key, c.now, StartOf(windowMs, t.windows, c))], windowMs)
  {
  }

  lemma OwnOnRecord(t: Trace, t': Trace, windowMs: int, c: Call)
    requires OnRecord(t, windowMs, c.key) && windowMs > 0
    requires t'.grants == t.grants + [Grant(c.key, c.now, StartOf(windowMs, t.windows, c))] && c.key in t'.windows
    requires t'.windows[c.key] == if Open(t.windows, c.key, c.now) then Window(1, c.now + windowMs)
                                  else t.windows[c.key].(count := t.windows[c.key].count + 1)
    ensures OnRecord(t', windowMs, c.key)
  {
    var start := StartOf(windowMs, t.windows, c);
    if Open(t.windows, c.key, c.now) {
      NoneInWindow(t.grants, c.key, start);
    }
    InWindowSnoc(t.grants, Grant(c.key, c.now, start), c.key, start);
  }

  /** The new count is that of the window on record, which had room. */
  lemma CountBounded(t: Trace, t': Trace, limit: int, windowMs: int, g: Grant, key: string, s: int)
    requires InWindow(t.grants, key, s) <= Most(limit) && t'.grants == t.grants + [g]
    requires g.key in t'.windows && OnRecord(t', windowMs, g.key) && g.start == t'.windows[g.key].resetAt - windowMs
    requires t'.windows[g.key].count <= Most(limit)
    ensures InWindow(t'.grants, key, s) <= Most(limit)
  {
  }

  /** A grant in a new window, or in the current one while that has room. */
  lemma GrantSound(t: Trace, t': Trace, limit: int, windowMs: int, clock: int, c: Call)
    requires Sound(t, limit, windowMs, clock) && clock <= c.now && windowMs > 0 &&
      Allowed(limit, t.windows, c.key, c.now)
    requires t'.windows == After(limit, windowMs, t.windows, c.key, c.now)
    requires t'.grants == t.grants + [Grant(c.key, c.now, t'.windows[c.key].resetAt - windowMs)]
    ensures Sound(t', limit, windowMs, c.now)
  {
    var g := Grant(c.key, c.now, StartOf(windowMs, t.windows, c));
    assert OnRecord(t, windowMs, c.key) && t'.grants == t.grants + [g];
    GrantDisjoint(t, windowMs, clock, c);
    OwnOnRecord(t, t', windowMs, c);
    forall key
      ensures OnRecord(t', windowMs, key)
    {
      if key != c.key {
        assert OnRecord(t, windowMs, key);
        OthersOnRecord(t, t', g, windowMs, key);
      }
    }
    forall key, s
      ensures InWindow(t'.grants, key, s) <= Most(limit)
    {
      CountBounded(t, t', limit, windowMs, g, key, s);
    }
  }

  lemma {:induction false} RunSound(limit: int, windowMs: int, calls: seq<Call>, clock: int)
    requires InOrder(calls) && windowMs > 0 && forall i :: 0 <= i < |calls| ==> calls[i].now <= clock
    ensures Sound(Run(limit, windowMs, calls), limit, windowMs, clock)
  {
    if calls != [] {
      var init, c := calls[..|calls| - 1], calls[|calls| - 1];
      RunSound(limit, windowMs, init, c.now);
      if Allowed(limit, Run(limit, windowMs, init).windows, c.key, c.now) {
        GrantSound(Run(limit, windowMs, init), Run(limit, windowMs, calls), limit, windowMs, c.now, c);
      }
    }
  }

  // ---- the bound ---------------------------------------------------------------------------------------

  lemma {:induction false} FirstBetween(gs: seq<Grant>, key: string, from: int, until: int) returns (i: nat)
    requires Between(gs, key, from, until) > 0
    ensures i < |gs| && Within(gs[i], key, from, until)
    ensures forall j :: 0 <= j < i ==> !Within(gs[j], key, from, until)
    decreases |gs|
  {
    var n := |gs| - 1;
    if Between(gs[..n], key, from, until) > 0 {
      i := FirstBetween(gs[..n], key, from, until);
      assert forall j :: 0 <= j < i ==> gs[j] == gs[..n][j];
    } else {
      i := n;
      NoneBetween(gs[..n], key, from, until);
      assert forall j :: 0 <= j < n ==> gs[j] == gs[..n][j];
    }
  }

  lemma {:induction false} NoneBetween(gs: seq<Grant>, key: string, from: int, until: int)
    requires Between(gs, key, from, until) == 0
    ensures forall j :: 0 <= j < |gs| ==> !Within(gs[j], key, from, until)
  {
    if gs != [] {
      NoneBetween(gs[..|gs| - 1], key, from, until);
      assert forall j :: 0 <= j < |gs| - 1 ==> gs[j] == gs[..|gs| - 1][j];
    }
  }

  lemma {:induction false} LastBetween(gs: seq<Grant>, key: string, from: int, until: int) returns (i: nat)
    requires Between(gs, key, from, until) > 0
    ensures i < |gs| && Within(gs[i], key, from, until)
    ensures forall j :: i < j < |gs| ==> !Within(gs[j], key, from, until)
    decreases |gs|
  {
    var n := |gs| - 1;
    if Within(gs[n], key, from, until) {
      i := n;
    } else {
      i := LastBetween(gs[..n], key, from, until);
      assert forall j :: 0 <= j < n ==> gs[j] == gs[..n][j];
    }
  }

  lemma {:induction false} TwoWindowsCover(gs: seq<Grant>, key: string, from: int, until: int, s1: int, s2: int)
    requires forall i :: 0 <= i < |gs| && Within(gs[i], key, from, until) ==> gs[i].start == s1 || gs[i].start == s2
    ensures Between(gs, key, from, until) <= InWindow(gs, key, s1) + InWindow(gs, key, s2)
  {
    if gs != [] {
      var init := gs[..|gs| - 1];
      assert forall i :: 0 <= i < |init| ==> init[i] == gs[i];
      TwoWindowsCover(init, key, from, until, s1, s2);
    }
  }

  /** In an interval as long as a window, only the first and the last grant's windows can have given grants. */
  lemma MiddleWindowImpossible(gs: seq<Grant>, windowMs: int, key: string, from: int, a: nat, i: nat, b: nat)
    requires Disjoint(gs, windowMs) && a <= i <= b < |gs|
    requires Within(gs[a], key, from, from + windowMs) && Within(gs[i], key, from, from + windowMs) &&
      Within(gs[b], key, from, from + windowMs)
    ensures gs[i].start == gs[a].start || gs[i].start == gs[b].start
  {
  }

  lemma TwiceTheLimit(gs: seq<Grant>, limit: int, windowMs: int, key: string, from: int)
    requires Disjoint(gs, windowMs) && forall s :: InWindow(gs, key, s) <= Most(limit)
    ensures Between(gs, key, from, from + windowMs) <= 2 * Most(limit)
  {
    if Between(gs, key, from, from + windowMs) > 0 {
      var a := FirstBetween(gs, key, from, from + windowMs);
      var b := LastBetween(gs, key, from, from + windowMs);
      forall i | 0 <= i < |gs| && Within(gs[i], key, from, from + windowMs)
        ensures gs[i].start == gs[a].start || gs[i].start == gs[b].start
      {
        MiddleWindowImpossible(gs, windowMs, key, from, a, i, b);
      }
      TwoWindowsCover(gs, key, from, from + windowMs, gs[a].start, gs[b].start);
    }
  }

  /**
   * In every trace whose times do not decrease, any interval as long as a window, ends
   * included, has at most twice the limit of grants for a key; a limit below 1 acts as 1.
   */
  lemma AtMostTwiceTheLimit(limit: int, windowMs: int, calls: seq<Call>, key: string, from: int)
    requires InOrder(calls) && windowMs > 0
    ensures Between(Run(limit, windowMs, calls).grants, key, from, from + windowMs) <= 2 * Most(limit)
  {
    var clock := if calls == [] then 0 else calls[|calls| - 1].now;
    RunSound(limit, windowMs, calls, clock);
    TwiceTheLimit(Run(limit, windowMs, calls).grants, limit, windowMs, key, from);
  }

  /** Without a positive window every call is granted: there is no limit at all. */
  lemma {:induction false} NoWindowNoLimit(limit: int, windowMs: int, calls: seq<Call>)
    requires InOrder(calls) && windowMs <= 0
    ensures var t := Run(limit, windowMs, calls);
            && |t.grants| == |calls| &&
               (forall i :: 0 <= i < |calls| ==> t.grants[i].key == calls[i].key && t.grants[i].at == calls[i].now)
            && (calls != [] ==> forall k :: k in t.windows ==> t.windows[k].resetAt <= calls[|calls| - 1].now)
            && (calls == [] ==> t.windows == map[])
  {
    if calls != [] {
      var init := calls[..|calls| - 1];
      NoWindowNoLimit(limit, windowMs, init);
      assert init != [] ==> init[|init| - 1].now <= calls[|calls| - 1].now;
    }
  }

  function Burst(key: string, now: int, n: nat): (calls: seq<Call>)
    ensures |calls| == n && forall i :: 0 <= i < n ==> calls[i] == Call(key, now)
  {
    if n == 0 then [] else Burst(key, now, n - 1) + [Call(key, now)]
  }

  lemma {:induction false} AllBetween(gs: seq<Grant>, key: string, from: int, until: int)
    requires forall i :: 0 <= i < |gs| ==> Within(gs[i], key, from, until)
    ensures Between(gs, key, from, until) == |gs|
  {
    if gs != [] {
      AllBetween(gs[..|gs| - 1], key, from, until);
    }
  }

  /** The trace has granted `n` more calls of `key` at time `now`, all in one window. */
  ghost predicate Granted(t: Trace, t': Trace, windowMs: int, key: string, now: int, n: nat) {
    && |t'.grants| == |t.grants| + n && t'.grants[..|t.grants|] == t.grants
    && (forall i :: |t.grants| <= i < |t'.grants| ==> t'.grants[i].key == key && t'.grants[i].at == now)
    && key in t'.windows && t'.windows[key] == Window(n, now + windowMs)
  }

  lemma OneMoreGranted(t: Trace, t': Trace, limit: int, windowMs: int, key: string, now: int, n: nat)
    requires windowMs > 0 && n < Most(limit)
    requires if n == 0 then t' == t && Open(t.windows, key, now) else Granted(t, t', windowMs, key, now, n)
    ensures Granted(t, Next(limit, windowMs, t', Call(key, now)), windowMs, key, now, n + 1)
  {
  }

  /** A key whose window is over gets as many calls at once as the limit allows. */
  lemma {:induction false} BurstGranted(limit: int, windowMs: int, before: seq<Call>, key: string, now: int, n: nat)
    requires windowMs > 0 && 1 <= n <= Most(limit) && Open(Run(limit, windowMs, before).windows, key, now)
    ensures Granted(Run(limit, windowMs, before), Run(limit, windowMs, before + Burst(key, now, n)), windowMs, key,
                    now, n)
  {
    var calls, init := before + Burst(key, now, n), before + Burst(key, now, n - 1);
    assert calls[..|calls| - 1] == init;
    if n == 1 {
      assert init == before;
    } else {
      BurstGranted(limit, windowMs, before, key, now, n - 1);
    }
    OneMoreGranted(Run(limit, windowMs, before), Run(limit, windowMs, init), limit, windowMs, key, now, n - 1);
  }

  /** As many calls as the limit allows at the two ends of one window's length. */
  function TwoBursts(limit: int, windowMs: int): seq<Call> {
    Burst("", 0, Most(limit)) + Burst("", windowMs, Most(limit))
  }

  lemma TwoBurstsGranted(limit: int, windowMs: int)
    requires windowMs > 0
    ensures InOrder(TwoBursts(limit, windowMs))
    ensures Between(Run(limit, windowMs, TwoBursts(limit, windowMs)).grants, "", 0, windowMs) == 2 * Most(limit)
  {
    BurstsInOrder(windowMs, Most(limit));
    FirstBurst(limit, windowMs, "", Most(limit));
    BurstGranted(limit, windowMs, Burst("", 0, Most(limit)), "", windowMs, Most(limit));
    BothBetween(Trace(map[], []), Run(limit, windowMs, Burst("", 0, Most(limit))),
                Run(limit, windowMs, TwoBursts(limit, windowMs)), windowMs, Most(limit));
  }

  lemma BurstsInOrder(windowMs: int, n: nat)
    requires windowMs > 0
    ensures InOrder(Burst("", 0, n) + Burst("", windowMs, n))
  {
  }

  lemma FirstBurst(limit: int, windowMs: int, key: string, n: nat)
    requires windowMs > 0 && 1 <= n <= Most(limit)
    ensures Granted(Trace(map[], []), Run(limit, windowMs, Burst(key, 0, n)), windowMs, key, 0, n)
  {
    assert [] + Burst(key, 0, n) == Burst(key, 0, n);
    BurstGranted(limit, windowMs, [], key, 0, n);
  }

  lemma BothBetween(o: Trace, t: Trace, u: Trace, windowMs: int, n: nat)
    requires windowMs > 0 && o.grants == []
    requires Granted(o, t, windowMs, "", 0, n) && Granted(t, u, windowMs, "", windowMs, n)
    ensures Between(u.grants, "", 0, windowMs) == 2 * n
  {
    forall i | 0 <= i < |u.grants|
      ensures Within(u.grants[i], "", 0, windowMs)
    {
      if i < |t.grants| {
        assert u.grants[i] == u.grants[..|t.grants|][i];
      }
    }
    AllBetween(u.grants, "", 0, windowMs);
  }

  /** At most `b` grants in the interval that begins at `from` and is as long as a window, if windows have a length. */
  predicate Bounded(limit: int, windowMs: int, calls: seq<Call>, key: string, from: int, b: int) {
    Between(Run(limit, windowMs, calls).grants, key, from, from + if windowMs > 0 then windowMs else 0) <= b
  }

  /** All traces are bounded by `b` exactly if the window is positive and `b` is at least twice the limit. */
  lemma TwiceTheLimitExactly(limit: int, windowMs: int, b: int)
    ensures (forall calls, key, from :: InOrder(calls) ==> Bounded(limit, windowMs, calls, key, from, b)) <==>
            windowMs > 0 && b >= 2 * Most(limit)
  {
    if windowMs <= 0 {
      var n := if b < 0 then 0 else b + 1;
      var calls := Burst("", 0, n);
      NoWindowNoLimit(limit, windowMs, calls);
      AllBetween(Run(limit, windowMs, calls).grants, "", 0, 0);
      assert InOrder(calls) && !Bounded(limit, windowMs, calls, "", 0, b);
    } else if b < 2 * Most(limit) {
      TwoBurstsGranted(limit, windowMs);
      assert !Bounded(limit, windowMs, TwoBursts(limit, windowMs), "", 0, b);
    } else {
      forall calls, key, from | InOrder(calls)
        ensures Bounded(limit, windowMs, calls, key, from, b)
      {
        AtMostTwiceTheLimit(limit, windowMs, calls, key, from);
      }
    }
  }

  lemma {:induction false} WindowIsBetween(gs: seq<Grant>, key: string, start: int, from: int, until: int)
    requires forall i :: 0 <= i < |gs| && gs[i].key == key && gs[i].start == start ==> from <= gs[i].at <= until
    ensures InWindow(gs, key, start) <= Between(gs, key, from, until)
  {
    if gs != [] {
      var init := gs[..|gs| - 1];
      assert forall i :: 0 <= i < |init| ==> init[i] == gs[i];
      WindowIsBetween(init, key, start, from, until);
    }
  }

  /** Nobody is refused without cause: the last window's length holds at least `limit` grants already. */
  lemma RefusedMeansFull(limit: int, windowMs: int, calls: seq<Call>, key: string, now: int)
    requires InOrder(calls) && windowMs > 0 && forall i :: 0 <= i < |calls| ==> calls[i].now <= now
    requires !Allowed(limit, Run(limit, windowMs, calls).windows, key, now)
    ensures Between(Run(limit, windowMs, calls).grants, key, now - windowMs, now) >= limit
  {
    RunSound(limit, windowMs, calls, now);
    GrantsBy(limit, windowMs, calls, now);
    FullWindow(Run(limit, windowMs, calls), limit, windowMs, key, now);
  }

  lemma FullWindow(t: Trace, limit: int, windowMs: int, key: string, now: int)
    requires Sound(t, limit, windowMs, now) && !Allowed(limit, t.windows, key, now)
    requires forall i :: 0 <= i < |t.grants| ==> t.grants[i].at <= now
    ensures Between(t.grants, key, now - windowMs, now) >= limit
  {
    assert OnRecord(t, windowMs, key);
    WindowIsBetween(t.grants, key, t.windows[key].resetAt - windowMs, now - windowMs, now);
  }

  lemma {:induction false} GrantsBy(limit: int, windowMs: int, calls: seq<Call>, now: int)
    requires forall i :: 0 <= i < |calls| ==> calls[i].now <= now
    ensures forall i :: 0 <= i < |Run(limit, windowMs, calls).grants| ==>
      Run(limit, windowMs, calls).grants[i].at <= now
  {
    if calls != [] {
      GrantsBy(limit, windowMs, calls[..|calls| - 1], now);
    }
  }
}
