/**
 * Daily caps under concurrency: what is recorded for the day plus what is in flight stays
 * within the cap plus one transaction per overlapping request (x402/src/server.ts).
 */
module Caps {
  import opened Common
  import opened Types
  import opened Protocol
  import D = Delivery

  datatype Which = Drill | Beta

  function PolicyOf(cfg: Config, w: Which): CapPolicy {
    if w == Drill then cfg.drill else cfg.beta
  }

  function UsageOf(s: State, w: Which): Usage {
    if w == Drill then s.drill else s.beta
  }

  /** Between the cap check and the record. */
  predicate Counted(t: Thread) {
    D.LiveOn(t).Some? && !t.AwaitLedger?
  }

  /** What the thread will add to the day's total if it succeeds. */
  function Due(s: State, t: Thread): nat {
    if Counted(t) && Known(s, t.c) then QuoteOf(s, t.c).total else 0
  }

  function InFlight(ts: seq<Thread>): nat {
    if ts == [] then 0 else InFlight(ts[..|ts| - 1]) + (if Counted(ts[|ts| - 1]) then 1 else 0)
  }

  function AllDue(s: State, ts: seq<Thread>): nat {
    if ts == [] then 0 else AllDue(s, ts[..|ts| - 1]) + Due(s, ts[|ts| - 1])
  }

  // ---- sums over threads ---------------------------------------------------------------------

  lemma {:induction false} UpdateSums(s: State, ts: seq<Thread>, r: nat, t: Thread)
    requires r < |ts|
    ensures AllDue(s, ts[r := t]) + Due(s, ts[r]) == AllDue(s, ts) + Due(s, t)
    ensures InFlight(ts[r := t]) + (if Counted(ts[r]) then 1 else 0) == InFlight(ts) + (if Counted(t) then 1 else 0)
  {
    var n := |ts| - 1;
    if r == n {
      assert ts[r := t][..n] == ts[..n];
    } else {
      assert ts[r := t][..n] == ts[..n][r := t];
      UpdateSums(s, ts[..n], r, t);
    }
  }

  lemma AppendSums(s: State, ts: seq<Thread>, t: Thread)
    ensures AllDue(s, ts + [t]) == AllDue(s, ts) + Due(s, t)
    ensures InFlight(ts + [t]) == InFlight(ts) + (if Counted(t) then 1 else 0)
  {
  }

  lemma {:induction false} SameDue(s: State, s': State, ts: seq<Thread>)
    requires forall i :: 0 <= i < |ts| ==> Due(s', ts[i]) == Due(s, ts[i])
    ensures AllDue(s', ts) == AllDue(s, ts)
  {
    if ts != [] {
      assert Due(s', ts[|ts| - 1]) == Due(s, ts[|ts| - 1]);
      SameDue(s, s', ts[..|ts| - 1]);
    }
  }

  /** Nothing in flight is due more than `m`. */
  ghost predicate Light(s: State, ts: seq<Thread>, m: nat) {
    forall i :: 0 <= i < |ts| ==> Due(s, ts[i]) <= m
  }

  lemma {:induction false} DueBound(s: State, ts: seq<Thread>, m: nat)
    requires Light(s, ts, m)
    ensures AllDue(s, ts) <= InFlight(ts) * m
  {
    if ts != [] {
      var init, last := ts[..|ts| - 1], ts[|ts| - 1];
      assert Due(s, last) <= m;
      assert Light(s, init, m);
      DueBound(s, init, m);
      if Counted(last) {
        OneMore(InFlight(init), m);
      }
    }
  }

  /** At most `n` requests in flight, none due more than `m`, are due at most `n * m` together. */
  lemma FewAreLight(s: State, ts: seq<Thread>, m: nat, n: nat)
    requires Light(s, ts, m) && InFlight(ts) <= n
    ensures AllDue(s, ts) <= n * m
  {
    DueBound(s, ts, m);
    TimesMonotone(InFlight(ts), n, m);
  }

  lemma DueKept(s: State, s': State, t: Thread, r: nat)
    requires D.Linked(s, t, r) && D.Extends(s, s')
    ensures Due(s', t) == Due(s, t)
  {
  }

  lemma AllDueKept(s: State, s': State)
    requires D.AllLinked(s) && D.Extends(s, s')
    ensures AllDue(s', s.threads) == AllDue(s, s.threads)
  {
    forall i | 0 <= i < |s.threads|
      ensures Due(s', s.threads[i]) == Due(s, s.threads[i])
    {
      DueKept(s, s', s.threads[i], i);
    }
    SameDue(s, s', s.threads);
  }

  // ---- the invariant -----------------------------------------------------------------------------

  /** The largest amount that one transaction can have. */
  function MostTx(p: CapPolicy): nat {
    if p.maxTx < p.daily then p.maxTx else p.daily
  }

  predicate Within(p: CapPolicy, amount: nat) {
    amount <= MostTx(p)
  }

  ghost predicate EachWithin(p: CapPolicy, s: State) {
    forall r :: 0 <= r < |s.threads| ==> Within(p, Due(s, s.threads[r]))
  }

  /** The daily cap plus the `k - 1` largest transactions. */
  function Ceiling(p: CapPolicy, k: nat): nat
    requires k >= 1
  {
    p.daily + (k - 1) * MostTx(p)
  }

  ghost predicate Capped(cfg: Config, w: Which, s: State, k: nat)
    requires k >= 1
  {
    PolicyOf(cfg, w).enabled ==>
      EachWithin(PolicyOf(cfg, w), s)
      && UsageOf(s, w).finalized + AllDue(s, s.threads) <= Ceiling(PolicyOf(cfg, w), k)
  }

  lemma WithinIsLight(p: CapPolicy, s: State, ts: seq<Thread>)
    requires EachWithin(p, s) && ts == s.threads
    ensures Light(s, ts, MostTx(p))
  {
  }

  /** One thread changes or joins, due no more than the policy allows. */
  lemma EachStaysWithin(p: CapPolicy, s: State, s': State, r: nat, t: Thread)
    requires D.AllLinked(s) && D.Extends(s, s') && EachWithin(p, s) && Within(p, Due(s', t))
    requires (r < |s.threads| && s'.threads == s.threads[r := t]) || (r == |s.threads| && s'.threads == s.threads + [t])
    ensures EachWithin(p, s')
  {
    forall q | 0 <= q < |s'.threads|
      ensures Within(p, Due(s', s'.threads[q]))
    {
      if q != r {
        assert Within(p, Due(s, s.threads[q]));
        DueKept(s, s', s.threads[q], q);
      }
    }
  }

  lemma SwapSums(s: State, s': State, r: nat, t: Thread)
    requires D.AllLinked(s) && D.Extends(s, s') && r < |s.threads| && s'.threads == s.threads[r := t]
    ensures AllDue(s', s'.threads) + Due(s, s.threads[r]) == AllDue(s, s.threads) + Due(s', t)
    ensures InFlight(s'.threads) + (if Counted(s.threads[r]) then 1 else 0) ==
            InFlight(s.threads) + (if Counted(t) then 1 else 0)
  {
    AllDueKept(s, s');
    UpdateSums(s', s.threads, r, t);
    DueKept(s, s', s.threads[r], r);
  }

  /** Thread `r` becomes `t` with no more due than before, and the counter stays. */
  lemma Lighter(cfg: Config, w: Which, s: State, s': State, r: nat, t: Thread, k: nat)
    requires k >= 1 && D.AllLinked(s) && D.Extends(s, s') && Capped(cfg, w, s, k)
    requires r < |s.threads| && s'.threads == s.threads[r := t] && Due(s', t) <= Due(s, s.threads[r])
    requires UsageOf(s', w) == UsageOf(s, w)
    ensures Capped(cfg, w, s', k)
  {
    if PolicyOf(cfg, w).enabled {
      SwapSums(s, s', r, t);
      assert Within(PolicyOf(cfg, w), Due(s, s.threads[r]));
      EachStaysWithin(PolicyOf(cfg, w), s, s', r, t);
    }
  }

  /** Recording moves an amount from due to recorded, on the same day or on a new one. */
  lemma Recording(cfg: Config, w: Which, s: State, s': State, r: nat, t: Thread, k: nat)
    requires k >= 1 && D.AllLinked(s) && D.Extends(s, s') && Capped(cfg, w, s, k)
    requires r < |s.threads| && s'.threads == s.threads[r := t] && Counted(s.threads[r]) && !Counted(t)
    requires InFlight(s.threads) <= k
    requires UsageOf(s', w) == UsageAfterRecord(PolicyOf(cfg, w), UsageOf(s, w), Due(s, s.threads[r]), s.clock)
    ensures Capped(cfg, w, s', k)
  {
    var p := PolicyOf(cfg, w);
    if p.enabled {
      assert Within(p, Due(s, s.threads[r]));
      EachStaysWithin(p, s, s', r, t);
      SwapSums(s, s', r, t);
      WithinIsLight(p, s', s'.threads);
      FewAreLight(s', s'.threads, MostTx(p), k - 1);
    }
  }

  /** A request that passed the check joins; every other request only rolls the counter over. */
  lemma Joining(cfg: Config, w: Which, s: State, s': State, t: Thread, k: nat)
    requires k >= 1 && D.AllLinked(s) && D.Extends(s, s') && Capped(cfg, w, s, k)
    requires s'.threads == s.threads + [t] && InFlight(s'.threads) <= k
    requires UsageOf(s', w) == UsageOf(s, w) ||
      UsageOf(s', w) == UsageAfterCheck(PolicyOf(cfg, w), UsageOf(s, w), s.clock)
    requires Counted(t) && PolicyOf(cfg, w).enabled ==>
      UsageOf(s', w).finalized + Due(s', t) <= PolicyOf(cfg, w).daily && Due(s', t) <= PolicyOf(cfg, w).maxTx
    ensures Capped(cfg, w, s', k)
  {
    var p := PolicyOf(cfg, w);
    if p.enabled {
      EachStaysWithin(p, s, s', |s.threads|, t);
      AllDueKept(s, s');
      AppendSums(s', s.threads, t);
      if Counted(t) {
        WithinIsLight(p, s, s.threads);
        FewAreLight(s, s.threads, MostTx(p), k - 1);
      }
    }
  }

  // ---- steps ---------------------------------------------------------------------------------------

  /** Only a counted thread is issued a receipt, and none becomes counted on its way. */
  ghost predicate CountStays(t: Thread, f: Effect) {
    match f
    case Move(u) => Counted(u) ==> Counted(t)
    case Sweep(u) => Counted(u) ==> Counted(t)
    case Claim(_, u) => Counted(u) ==> Counted(t)
    case Receipt(_, _, _, _, _) => Counted(t)
    case _ => true
  }

  lemma VerdictCountStays(cfg: Config, s: State, t: Thread, v: Verification, guard: Guard)
    requires Runnable(s, t)
    ensures CountStays(t, OnVerdict(cfg, s, t, v, guard))
  {
  }

  lemma ResumeCountStays(s: State, t: Thread, guard: Guard)
    requires Runnable(s, t)
    ensures CountStays(t, OnResume(s, t, guard))
  {
  }

  lemma PerformCapped(cfg: Config, w: Which, s: State, r: nat, f: Effect, k: nat)
    requires k >= 1 && D.AllLinked(s) && Capped(cfg, w, s, k) && InFlight(s.threads) <= k
    requires r < |s.threads| && Fits(s, f) && D.StaysOn(s.threads[r], f) && CountStays(s.threads[r], f)
    ensures Capped(cfg, w, Perform(cfg, s, r, f), k)
  {
    if f.Receipt? {
      ReceiptCapped(cfg, w, s, r, f, k);
    } else if !f.Stay? {
      EffectLighter(cfg, w, s, r, f);
      Lighter(cfg, w, s, Perform(cfg, s, r, f), r, Perform(cfg, s, r, f).threads[r], k);
    }
  }

  /** Whatever else a segment does, it adds nothing due and counts nothing. */
  lemma EffectLighter(cfg: Config, w: Which, s: State, r: nat, f: Effect)
    requires r < |s.threads| && Fits(s, f) && D.StaysOn(s.threads[r], f) && CountStays(s.threads[r], f) &&
      !f.Receipt? && !f.Stay?
    ensures var s' := Perform(cfg, s, r, f);
            && D.Extends(s, s') && |s'.threads| == |s.threads| && s'.threads == s.threads[r := s'.threads[r]]
            && Due(s', s'.threads[r]) <= Due(s, s.threads[r]) && UsageOf(s', w) == UsageOf(s, w)
  {
    if f.Move? || f.Sweep? || f.Claim? {
      MoveLighter(cfg, w, s, r, f);
    }
  }

  lemma MoveLighter(cfg: Config, w: Which, s: State, r: nat, f: Effect)
    requires r < |s.threads| && D.StaysOn(s.threads[r], f) && CountStays(s.threads[r], f)
    requires f.Move? || f.Sweep? || f.Claim?
    ensures var s' := Perform(cfg, s, r, f);
            && D.Extends(s, s') && |s'.threads| == |s.threads| && s'.threads == s.threads[r := s'.threads[r]]
            && Due(s', s'.threads[r]) <= Due(s, s.threads[r]) && UsageOf(s', w) == UsageOf(s, w)
  {
    assert Counted(f.t) ==> f.t.c == s.threads[r].c;
  }

  lemma ReceiptCapped(cfg: Config, w: Which, s: State, r: nat, f: Effect, k: nat)
    requires k >= 1 && D.AllLinked(s) && Capped(cfg, w, s, k) && InFlight(s.threads) <= k
    requires r < |s.threads| && Fits(s, f) && D.StaysOn(s.threads[r], f) && CountStays(s.threads[r], f) && f.Receipt?
    ensures Capped(cfg, w, Perform(cfg, s, r, f), k)
  {
    if f.guard == Pass {
      StoredCapped(cfg, w, s, r, f, k);
    } else {
      BlockedCapped(cfg, w, s, r, f, k);
    }
  }

  lemma StoredCapped(cfg: Config, w: Which, s: State, r: nat, f: Effect, k: nat)
    requires k >= 1 && D.AllLinked(s) && Capped(cfg, w, s, k) && InFlight(s.threads) <= k
    requires r < |s.threads| && Fits(s, f) && D.StaysOn(s.threads[r], f) && CountStays(s.threads[r], f) && f.Receipt?
    requires f.guard == Pass
    ensures Capped(cfg, w, Perform(cfg, s, r, f), k)
  {
    var s' := Perform(cfg, s, r, f);
    Recording(cfg, w, s, s', r, s'.threads[r], k);
  }

  lemma BlockedCapped(cfg: Config, w: Which, s: State, r: nat, f: Effect, k: nat)
    requires k >= 1 && D.AllLinked(s) && Capped(cfg, w, s, k)
    requires r < |s.threads| && Fits(s, f) && D.StaysOn(s.threads[r], f) && CountStays(s.threads[r], f) && f.Receipt?
    requires f.guard != Pass
    ensures Capped(cfg, w, Perform(cfg, s, r, f), k)
  {
    var s' := Perform(cfg, s, r, f);
    Lighter(cfg, w, s, s', r, s'.threads[r], k);
  }

  lemma AdmitCapped(cfg: Config, w: Which, s: State, c: nat, proof: Option<PaymentProof>,
                    items: seq<(string, PaymentProof)>, k: nat)
    requires k >= 1 && D.AllLinked(s) && Capped(cfg, w, s, k)
    requires InFlight(StartFinalize(cfg, s, c, proof, items).threads) <= k
    ensures Capped(cfg, w, StartFinalize(cfg, s, c, proof, items), k)
  {
    var s' := StartFinalize(cfg, s, c, proof, items);
    var t := Admit(cfg, s, c, proof, items).t;
    if Counted(t) {
      assert t.c == c && Due(s', t) == QuoteOf(s, c).total;
    }
    Joining(cfg, w, s, s', t, k);
  }

  lemma UncountedCapped(cfg: Config, w: Which, s: State, s': State, k: nat)
    requires k >= 1 && D.AllLinked(s) && Capped(cfg, w, s, k) && InFlight(s.threads) <= k && JoinsUncounted(s, s')
    ensures Capped(cfg, w, s', k)
  {
    AppendSums(s', s.threads, s'.threads[|s.threads|]);
    Joining(cfg, w, s, s', s'.threads[|s.threads|], k);
  }

  /** The new thread of any request but a finalize call is not counted, and no counter changes. */
  ghost predicate JoinsUncounted(s: State, s': State) {
    && D.Extends(s, s') && s'.drill == s.drill && s'.beta == s.beta
    && |s'.threads| == |s.threads| + 1 && s'.threads == s.threads + [s'.threads[|s.threads|]]
    && !Counted(s'.threads[|s.threads|])
  }

  lemma OtherRequestShape(cfg: Config, s: State, e: Event)
    requires e.AskQuote? || e.PostCommit? || e.Get?
    ensures JoinsUncounted(s, Step(cfg, s, e))
  {
    match e
    case PostCommit(q, payer) => CommitShape(s, q, payer);
    case Get(resource, commit, compat, p) => GetShape(cfg, s, resource, commit, compat, p);
    case _ =>
  }

  lemma GetShape(cfg: Config, s: State, resource: string, commit: Option<nat>, compat: Option<CompatRequest>, p: Price)
    ensures JoinsUncounted(s, GetResource(cfg, s, resource, commit, compat, p))
  {
    if commit.Some? && Deliverable(s, commit.value, resource) {
      DeliveryShape(s, commit.value, resource);
    } else if compat.Some? {
      CompatShape(s, resource, compat.value);
    }
  }

  lemma CommitShape(s: State, quoteId: nat, payer: string)
    ensures JoinsUncounted(s, DoCommit(s, quoteId, payer))
  {
  }

  lemma DeliveryShape(s: State, c: nat, resource: string)
    requires Deliverable(s, c, resource)
    ensures JoinsUncounted(s, StartDelivery(s, c, resource))
  {
  }

  lemma CompatShape(s: State, resource: string, req: CompatRequest)
    ensures JoinsUncounted(s, StartCompat(s, resource, req))
  {
  }

  lemma QuietCapped(cfg: Config, w: Which, s: State, s': State, k: nat)
    requires k >= 1 && D.AllLinked(s) && Capped(cfg, w, s, k) && D.Extends(s, s')
    requires s'.threads == s.threads && s'.drill == s.drill && s'.beta == s.beta
    ensures Capped(cfg, w, s', k)
  {
    AllDueKept(s, s');
    forall r | 0 <= r < |s.threads|
      ensures Due(s', s.threads[r]) == Due(s, s.threads[r])
    {
      DueKept(s, s', s.threads[r], r);
    }
  }

  lemma VerdictCapped(cfg: Config, w: Which, s: State, r: nat, v: Verification, guard: Guard, k: nat)
    requires k >= 1 && D.AllLinked(s) && Capped(cfg, w, s, k) && InFlight(s.threads) <= k
    requires r < |s.threads| && Runnable(s, s.threads[r])
    ensures Capped(cfg, w, Perform(cfg, s, r, OnVerdict(cfg, s, s.threads[r], v, guard)), k)
  {
    D.VerdictStaysOn(cfg, s, s.threads[r], v, guard);
    VerdictCountStays(cfg, s, s.threads[r], v, guard);
    PerformCapped(cfg, w, s, r, OnVerdict(cfg, s, s.threads[r], v, guard), k);
  }

  lemma ResumeCapped(cfg: Config, w: Which, s: State, r: nat, guard: Guard, k: nat)
    requires k >= 1 && D.AllLinked(s) && Capped(cfg, w, s, k) && InFlight(s.threads) <= k
    requires r < |s.threads| && Runnable(s, s.threads[r])
    ensures Capped(cfg, w, Perform(cfg, s, r, OnResume(s, s.threads[r], guard)), k)
  {
    D.ResumeStaysOn(s, s.threads[r], guard);
    ResumeCountStays(s, s.threads[r], guard);
    PerformCapped(cfg, w, s, r, OnResume(s, s.threads[r], guard), k);
  }

  lemma StepCapped(cfg: Config, w: Which, s: State, e: Event, k: nat)
    requires k >= 1 && D.AllLinked(s) && Capped(cfg, w, s, k)
    requires InFlight(s.threads) <= k && InFlight(Step(cfg, s, e).threads) <= k
    ensures Capped(cfg, w, Step(cfg, s, e), k)
  {
    match e
    case Verdict(r, v, guard) =>
      if r < |s.threads| && Runnable(s, s.threads[r]) {
        VerdictCapped(cfg, w, s, r, v, guard, k);
      }
    case Resume(r, guard) =>
      if r < |s.threads| && Runnable(s, s.threads[r]) {
        ResumeCapped(cfg, w, s, r, guard, k);
      }
    case Finish(_, _) => EndCapped(cfg, w, s, e, k);
    case Abort(_) => EndCapped(cfg, w, s, e, k);
    case PostFinalize(c, proof, items) => AdmitCapped(cfg, w, s, c, proof, items, k);
    case Tick(_) => QuietCapped(cfg, w, s, Step(cfg, s, e), k);
    case FlushLedger(_) => QuietCapped(cfg, w, s, Step(cfg, s, e), k);
    case _ =>
      OtherRequestShape(cfg, s, e);
      UncountedCapped(cfg, w, s, Step(cfg, s, e), k);
  }

  /** A response is out, or its request is dropped. */
  lemma EndCapped(cfg: Config, w: Which, s: State, e: Event, k: nat)
    requires k >= 1 && D.AllLinked(s) && Capped(cfg, w, s, k) && InFlight(s.threads) <= k && (e.Finish? || e.Abort?)
    ensures Capped(cfg, w, Step(cfg, s, e), k)
  {
    if e.Finish? {
      if e.r < |s.threads| && s.threads[e.r].Delivering? && Known(s, s.threads[e.r].c) {
        FinishCapped(cfg, w, s, e.r, e.status, k);
      }
    } else if e.r < |s.threads| && !s.threads[e.r].Done? && !s.threads[e.r].Delivering? {
      PerformCapped(cfg, w, s, e.r, Move(Done(Dropped)), k);
    }
  }

  lemma FinishCapped(cfg: Config, w: Which, s: State, r: nat, status: nat, k: nat)
    requires k >= 1 && D.AllLinked(s) && Capped(cfg, w, s, k)
    requires r < |s.threads| && s.threads[r].Delivering? && Known(s, s.threads[r].c)
    ensures Capped(cfg, w, OnFinish(s, r, s.threads[r].c, s.threads[r].receiptId, status), k)
  {
    var s' := OnFinish(s, r, s.threads[r].c, s.threads[r].receiptId, status);
    Lighter(cfg, w, s, s', r, s'.threads[r], k);
  }

  /** At most `k` requests are ever between the cap check and the record. */
  ghost predicate NeverMoreThan(cfg: Config, start: nat, es: seq<Event>, k: nat) {
    forall n :: 0 <= n <= |es| ==> InFlight(Run(cfg, start, es[..n]).threads) <= k
  }

  lemma {:induction false} RunCapped(cfg: Config, w: Which, start: nat, es: seq<Event>, k: nat)
    requires k >= 1 && NeverMoreThan(cfg, start, es, k)
    ensures Capped(cfg, w, Run(cfg, start, es), k)
  {
    if es != [] {
      var init, s := es[..|es| - 1], Run(cfg, start, es[..|es| - 1]);
      forall n | 0 <= n <= |init|
        ensures InFlight(Run(cfg, start, init[..n]).threads) <= k
      {
        assert init[..n] == es[..n];
      }
      assert es[..|es|] == es && init == es[..|init|];
      RunCapped(cfg, w, start, init, k);
      D.RunLinks(cfg, start, init);
      StepCapped(cfg, w, s, es[|es| - 1], k);
    }
  }

  /**
   * The recorded total of the day plus all that is in flight stays within the daily cap plus
   * the `k - 1` largest transactions, in every reachable state and across every rollover of
   * the day.
   */
  lemma DailyCapUnderConcurrency(cfg: Config, w: Which, start: nat, es: seq<Event>, k: nat)
    requires k >= 1 && NeverMoreThan(cfg, start, es, k) && PolicyOf(cfg, w).enabled
    ensures var s := Run(cfg, start, es);
            UsageOf(s, w).finalized + AllDue(s, s.threads) <= Ceiling(PolicyOf(cfg, w), k)
    ensures Ceiling(PolicyOf(cfg, w), k) == PolicyOf(cfg, w).daily + (k - 1) * MostTx(PolicyOf(cfg, w))
    ensures Ceiling(PolicyOf(cfg, w), k) <= PolicyOf(cfg, w).daily + (k - 1) * PolicyOf(cfg, w).maxTx
  {
    RunCapped(cfg, w, start, es, k);
    CeilingBelow(PolicyOf(cfg, w), k);
  }

  lemma CeilingBelow(p: CapPolicy, k: nat)
    requires k >= 1
    ensures Ceiling(p, k) <= p.daily + (k - 1) * p.maxTx
  {
    TimesMonotone(MostTx(p), p.maxTx, k - 1);
    assert (k - 1) * MostTx(p) == MostTx(p) * (k - 1) && (k - 1) * p.maxTx == p.maxTx * (k - 1);
  }

  /** Requests that do not overlap never exceed the cap. */
  lemma DailyCapWithoutOverlap(cfg: Config, w: Which, start: nat, es: seq<Event>)
    requires PolicyOf(cfg, w).enabled && NeverMoreThan(cfg, start, es, 1)
    ensures UsageOf(Run(cfg, start, es), w).finalized <= PolicyOf(cfg, w).daily
  {
    RunCapped(cfg, w, start, es, 1);
    CeilingOfOne(cfg, w, Run(cfg, start, es));
  }

  lemma CeilingOfOne(cfg: Config, w: Which, s: State)
    requires PolicyOf(cfg, w).enabled && Capped(cfg, w, s, 1)
    ensures UsageOf(s, w).finalized <= PolicyOf(cfg, w).daily
  {
  }
}
