/**
 * The buyer's daily limit when calls on one spend tracker overlap: the limit is checked before a
 * call's first await and the spend is recorded after its last (x402/src/client.ts).
 */
module Spending {
  import opened Common
  import opened Client

  /** A call in flight is `Some` of what it will have spent. */
  datatype Tracker = Tracker(today: nat, spent: map<nat, nat>, calls: seq<Option<nat>>)

  datatype Event = NextDay | Begin(total: nat) | Complete(i: nat) | Fail(i: nat)

  predicate Flying(s: Tracker, i: nat) {
    i < |s.calls| && s.calls[i].Some?
  }

  function Step(o: Buying, s: Tracker, e: Event): Tracker {
    match e
    case NextDay => s.(today := s.today + 1)
    case Begin(total) =>
      s.(calls := s.calls + [if Affordable(o, total, SpentOn(s.spent, s.today)).None? then Some(total) else None])
    case Complete(i) =>
      if Flying(s, i) then s.(spent := SpentAfter(o, s.spent, s.today, s.calls[i].value), calls := s.calls[i := None])
        else s
    case Fail(i) => if Flying(s, i) then s.(calls := s.calls[i := None]) else s
  }

  function Run(o: Buying, es: seq<Event>): Tracker {
    if es == [] then Tracker(0, map[], []) else Step(o, Run(o, es[..|es| - 1]), es[|es| - 1])
  }

  /** A call that nothing overlaps does to the tracker what `FetchWith402` does. */
  lemma AloneIsOneCall(o: Buying, s: Tracker, total: nat)
    requires Affordable(o, total, SpentOn(s.spent, s.today)).None?
    ensures Step(o, Step(o, s, Begin(total)), Complete(|s.calls|)).spent == SpentAfter(o, s.spent, s.today, total)
    ensures Step(o, Step(o, Step(o, s, Begin(total)), NextDay), Complete(|s.calls|)).spent ==
            SpentAfter(o, s.spent, s.today + 1, total)
  {
  }

  // ---- sums ------------------------------------------------------------------------------------

  function InFlight(calls: seq<Option<nat>>): nat {
    if calls == [] then 0 else InFlight(calls[..|calls| - 1]) + if calls[|calls| - 1].Some? then 1 else 0
  }

  function Due(calls: seq<Option<nat>>): nat {
    if calls == [] then 0
    else Due(calls[..|calls| - 1]) + if calls[|calls| - 1].Some? then calls[|calls| - 1].value else 0
  }

  function Amount(call: Option<nat>): nat {
    if call.Some? then call.value else 0
  }

  lemma {:induction false} EndSums(calls: seq<Option<nat>>, i: nat)
    requires i < |calls| && calls[i].Some?
    ensures Due(calls[i := None]) + calls[i].value == Due(calls) && InFlight(calls[i := None]) + 1 == InFlight(calls)
  {
    var n := |calls| - 1;
    if i == n {
      assert calls[i := None][..n] == calls[..n];
    } else {
      assert calls[i := None][..n] == calls[..n][i := None];
      EndSums(calls[..n], i);
    }
  }

  lemma BeginSums(calls: seq<Option<nat>>, call: Option<nat>)
    ensures Due(calls + [call]) == Due(calls) + Amount(call)
    ensures InFlight(calls + [call]) == InFlight(calls) + if call.Some? then 1 else 0
  {
    assert (calls + [call])[..|calls|] == calls;
  }

  predicate EachWithin(calls: seq<Option<nat>>, m: nat) {
    forall i :: 0 <= i < |calls| ==> Amount(calls[i]) <= m
  }

  lemma {:induction false} DueBound(calls: seq<Option<nat>>, m: nat, n: nat)
    requires EachWithin(calls, m) && InFlight(calls) <= n
    ensures Due(calls) <= n * m
  {
    if calls != [] {
      var init, last := calls[..|calls| - 1], calls[|calls| - 1];
      assert Amount(last) <= m;
      assert forall i :: 0 <= i < |init| ==> init[i] == calls[i];
      if last.Some? {
        DueBound(init, m, n - 1);
        OneMore(n - 1, m);
      } else {
        DueBound(init, m, n);
      }
    }
  }

  // ---- the bound -----------------------------------------------------------------------------------

  /** The most that one call may spend. */
  function Most(o: Buying): nat
    requires o.maxPerDay.Some?
  {
    var m := if o.maxSpend < o.maxPerDay.value then o.maxSpend else o.maxPerDay.value;
    if o.maxPrice.Some? && o.maxPrice.value < m then o.maxPrice.value else m
  }

  function Ceiling(o: Buying, k: nat): nat
    requires o.maxPerDay.Some? && k >= 1
  {
    o.maxPerDay.value + (k - 1) * Most(o)
  }

  ghost predicate Kept(o: Buying, s: Tracker, k: nat)
    requires o.maxPerDay.Some? && k >= 1
  {
    && EachWithin(s.calls, Most(o))
    && SpentOn(s.spent, s.today) + Due(s.calls) <= Ceiling(o, k)
    && (forall day :: day in s.spent ==> day <= s.today && s.spent[day] <= Ceiling(o, k))
  }

  lemma StepKept(o: Buying, s: Tracker, e: Event, k: nat)
    requires o.maxPerDay.Some? && k >= 1 && Kept(o, s, k)
    requires InFlight(s.calls) <= k && InFlight(Step(o, s, e).calls) <= k
    ensures Kept(o, Step(o, s, e), k)
  {
    match e
    case NextDay =>
      DueBound(s.calls, Most(o), k);
      OneMore(k - 1, Most(o));
    case Begin(total) => BeginKept(o, s, total, k);
    case Complete(i) => if Flying(s, i) { EndSums(s.calls, i); }
    case Fail(i) => if Flying(s, i) { EndSums(s.calls, i); }
  }

  lemma BeginKept(o: Buying, s: Tracker, total: nat, k: nat)
    requires o.maxPerDay.Some? && k >= 1 && Kept(o, s, k) && InFlight(Step(o, s, Begin(total)).calls) <= k
    ensures Kept(o, Step(o, s, Begin(total)), k)
  {
    var call := if Affordable(o, total, SpentOn(s.spent, s.today)).None? then Some(total) else None;
    assert Step(o, s, Begin(total)) == s.(calls := s.calls + [call]);
    BeginSums(s.calls, call);
    OneMoreWithin(s.calls, call, Most(o));
    if call.Some? {
      DueBound(s.calls, Most(o), k - 1);
      RoomForOne(o, SpentOn(s.spent, s.today), Due(s.calls), total, k);
    }
  }

  /** An affordable call fits beside `k - 1` others. */
  lemma RoomForOne(o: Buying, spent: nat, due: nat, total: nat, k: nat)
    requires o.maxPerDay.Some? && k >= 1 && spent + total <= o.maxPerDay.value && due <= (k - 1) * Most(o)
    ensures spent + (due + total) <= Ceiling(o, k)
  {
  }

  lemma OneMoreWithin(calls: seq<Option<nat>>, call: Option<nat>, m: nat)
    requires EachWithin(calls, m) && Amount(call) <= m
    ensures EachWithin(calls + [call], m)
  {
  }

  /** At no time are more than `k` calls between check and record. */
  ghost predicate NeverMoreThan(o: Buying, es: seq<Event>, k: nat) {
    forall n :: 0 <= n <= |es| ==> InFlight(Run(o, es[..n]).calls) <= k
  }

  lemma {:induction false} RunKept(o: Buying, es: seq<Event>, k: nat)
    requires o.maxPerDay.Some? && k >= 1 && NeverMoreThan(o, es, k)
    ensures Kept(o, Run(o, es), k)
  {
    if es != [] {
      var init := es[..|es| - 1];
      assert forall n :: 0 <= n <= |init| ==> init[..n] == es[..n];
      assert init == es[..|init|] && es == es[..|es|];
      RunKept(o, init, k);
      StepKept(o, Run(o, init), es[|es| - 1], k);
    }
  }

  /**
   * With at most `k` calls in flight, what is recorded for any date is at most the daily limit
   * plus `k - 1` times the most that one call may spend, also for calls that pass midnight.
   */
  lemma LimitUnderConcurrency(o: Buying, es: seq<Event>, k: nat, day: nat)
    requires o.maxPerDay.Some? && k >= 1 && NeverMoreThan(o, es, k)
    ensures SpentOn(Run(o, es).spent, day) <= o.maxPerDay.value + (k - 1) * Most(o)
  {
    RunKept(o, es, k);
  }

  /** Calls that do not overlap keep the daily limit, also when they pass midnight. */
  lemma LimitWithoutOverlap(o: Buying, es: seq<Event>, day: nat)
    requires o.maxPerDay.Some? && NeverMoreThan(o, es, 1)
    ensures SpentOn(Run(o, es).spent, day) <= o.maxPerDay.value
  {
    RunKept(o, es, 1);
    CeilingOfOne(o);
  }

  lemma CeilingOfOne(o: Buying)
    requires o.maxPerDay.Some?
    ensures Ceiling(o, 1) == o.maxPerDay.value
  {
  }

  // ---- the bound is attained -------------------------------------------------------------------------

  lemma {:induction false} NeverMoreSnoc(o: Buying, es: seq<Event>, e: Event, k: nat)
    requires NeverMoreThan(o, es, k) && InFlight(Run(o, es + [e]).calls) <= k
    ensures NeverMoreThan(o, es + [e], k) && Run(o, es + [e]) == Step(o, Run(o, es), e)
  {
    var more := es + [e];
    assert more[..|es|] == es && more[..|more|] == more;
    forall n | 0 <= n <= |more|
      ensures InFlight(Run(o, more[..n]).calls) <= k
    {
      assert n <= |es| ==> more[..n] == es[..n];
    }
  }

  /** So much is recorded today and nothing is in flight but the last `n` calls, each of `m`. */
  ghost predicate LinedUp(s: Tracker, recorded: nat, n: nat, m: nat) {
    && s.today == 0 && SpentOn(s.spent, 0) == recorded && InFlight(s.calls) == n <= |s.calls|
    && (forall i :: |s.calls| - n <= i < |s.calls| ==> s.calls[i] == Some(m))
  }

  ghost predicate Lined(o: Buying, es: seq<Event>, k: nat, recorded: nat, n: nat, m: nat) {
    NeverMoreThan(o, es, k) && LinedUp(Run(o, es), recorded, n, m)
  }

  lemma RunSnoc(o: Buying, es: seq<Event>, e: Event)
    ensures Run(o, es + [e]) == Step(o, Run(o, es), e)
  {
    assert (es + [e])[..|es|] == es;
  }

  /** A step that leaves the calls lined up extends the run. */
  lemma LinedOn(o: Buying, es: seq<Event>, e: Event, k: nat, recorded: nat, n: nat, m: nat)
    requires NeverMoreThan(o, es, k) && LinedUp(Step(o, Run(o, es), e), recorded, n, m) && n <= k
    ensures Lined(o, es + [e], k, recorded, n, m)
  {
    RunSnoc(o, es, e);
    NeverMoreSnoc(o, es, e, k);
  }

  lemma BeginLines(o: Buying, es: seq<Event>, k: nat, recorded: nat, n: nat, m: nat)
    requires Lined(o, es, k, recorded, n, m) && n < k && Affordable(o, m, recorded).None?
    ensures Lined(o, es + [Begin(m)], k, recorded, n + 1, m)
  {
    BeginSums(Run(o, es).calls, Some(m));
    LinedOn(o, es, Begin(m), k, recorded, n + 1, m);
  }

  lemma CompleteLines(o: Buying, es: seq<Event>, e: Event, k: nat, recorded: nat, n: nat, m: nat)
    requires o.maxPerDay.Some? && Lined(o, es, k, recorded, n, m) && 0 < n <= k && e == Complete(|Run(o, es).calls| - n)
    ensures Lined(o, es + [e], k, recorded + m, n - 1, m)
  {
    CompleteOne(o, Run(o, es), recorded, n, m);
    LinedOn(o, es, e, k, recorded + m, n - 1, m);
  }

  lemma CompleteOne(o: Buying, s: Tracker, recorded: nat, n: nat, m: nat)
    requires o.maxPerDay.Some? && LinedUp(s, recorded, n, m) && 0 < n
    ensures LinedUp(Step(o, s, Complete(|s.calls| - n)), recorded + m, n - 1, m)
  {
    EndSums(s.calls, |s.calls| - n);
  }

  /** With nothing in flight, the amount of the calls to come is open. */
  lemma Relabel(o: Buying, es: seq<Event>, k: nat, recorded: nat, m: nat, m': nat)
    requires Lined(o, es, k, recorded, 0, m)
    ensures Lined(o, es, k, recorded, 0, m')
  {
  }

  lemma OneCall(o: Buying, before: seq<Event>, k: nat, recorded: nat, m: nat) returns (es: seq<Event>)
    requires o.maxPerDay.Some? && k >= 1 && Lined(o, before, k, recorded, 0, m) && Affordable(o, m, recorded).None?
    ensures Lined(o, es, k, recorded + m, 0, m)
  {
    var begun := before + [Begin(m)];
    var e := Complete(|Run(o, begun).calls| - 1);
    BeginLines(o, before, k, recorded, 0, m);
    CompleteLines(o, begun, e, k, recorded, 1, m);
    es := begun + [e];
  }

  /** One call after the other can bring the day to any amount within the limit. */
  lemma {:induction false} FillDay(o: Buying, k: nat, amount: nat, m: nat) returns (es: seq<Event>)
    requires o.maxPerDay.Some? && k >= 1 && Most(o) > 0 && amount <= o.maxPerDay.value
    ensures Lined(o, es, k, amount, 0, m)
    decreases amount
  {
    if amount == 0 {
      es := [];
    } else {
      var part := if amount < Most(o) then amount else Most(o);
      var before := FillDay(o, k, amount - part, part);
      es := OneCall(o, before, k, amount - part, part);
      Relabel(o, es, k, amount, part, m);
    }
  }

  lemma {:induction false} BeginMany(o: Buying, before: seq<Event>, k: nat, recorded: nat, n: nat)
    returns (es: seq<Event>)
    requires o.maxPerDay.Some? && n <= k && Lined(o, before, k, recorded, 0, Most(o)) &&
      recorded + Most(o) <= o.maxPerDay.value
    ensures Lined(o, es, k, recorded, n, Most(o))
    decreases n
  {
    if n == 0 {
      es := before;
    } else {
      es := BeginMany(o, before, k, recorded, n - 1);
      BeginLines(o, es, k, recorded, n - 1, Most(o));
      es := es + [Begin(Most(o))];
    }
  }

  lemma {:induction false} CompleteAll(o: Buying, before: seq<Event>, k: nat, recorded: nat, n: nat)
    returns (es: seq<Event>)
    requires o.maxPerDay.Some? && Lined(o, before, k, recorded, n, Most(o)) && n <= k
    ensures Lined(o, es, k, recorded + n * Most(o), 0, Most(o))
    decreases n
  {
    if n == 0 {
      es := before;
    } else {
      var e := Complete(|Run(o, before).calls| - n);
      CompleteLines(o, before, e, k, recorded, n, Most(o));
      OneMore(n - 1, Most(o));
      es := CompleteAll(o, before + [e], k, recorded + Most(o), n - 1);
    }
  }

  /** The bound is exact: for every `k` some run with at most `k` calls in flight attains it. */
  lemma LimitBoundAttained(o: Buying, k: nat) returns (es: seq<Event>)
    requires o.maxPerDay.Some? && k >= 1 && Most(o) > 0
    ensures NeverMoreThan(o, es, k) && SpentOn(Run(o, es).spent, 0) == o.maxPerDay.value + (k - 1) * Most(o)
  {
    var m, limit := Most(o), o.maxPerDay.value;
    var filled := FillDay(o, k, limit - m, m);
    var begun := BeginMany(o, filled, k, limit - m, k);
    es := CompleteAll(o, begun, k, limit - m, k);
    OneMore(k - 1, m);
  }
}
