/**
 * What the daily counters stand for: the totals of the day's receipts. So the caps bound the
 * money that finalize calls take on any day (x402/src/server.ts).
 */
module Takings {
  import opened Common
  import opened Types
  import opened Receipts
  import opened Protocol
  import opened Caps
  import P = Payments

  function DayOf(t: nat): nat {
    t / DAY_MS
  }

  lemma DaysAdvance(a: nat, b: nat)
    requires a <= b
    ensures DayOf(a) <= DayOf(b)
  {
  }

  /** Issued by a finalize call on day `d`; a receipt for a header payment is not. */
  predicate FinalizedOn(p: ReceiptPayload, d: nat) {
    p.commitId.Stored? && DayOf(p.createdAt) == d
  }

  /** What finalize calls took on day `d`. */
  function DayTotal(receipts: seq<Issued>, d: nat): nat {
    if receipts == [] then 0
    else
      var p := receipts[|receipts| - 1].signed.payload;
      DayTotal(receipts[..|receipts| - 1], d) + if FinalizedOn(p, d) then p.total else 0
  }

  lemma AppendTotal(receipts: seq<Issued>, x: Issued, d: nat)
    ensures DayTotal(receipts + [x], d) ==
            DayTotal(receipts, d) + if FinalizedOn(x.signed.payload, d) then x.signed.payload.total else 0
  {
    assert (receipts + [x])[..|receipts|] == receipts;
  }

  // ---- counter and receipts ------------------------------------------------------------------------

  /** The counter is what its day has taken, and no later day has taken anything. */
  ghost predicate Tally(u: Usage, receipts: seq<Issued>, today: nat) {
    && (u.day.Some? ==> u.day.value <= today && u.finalized == DayTotal(receipts, u.day.value))
    && (forall d: nat :: u.day.None? || d > u.day.value ==> DayTotal(receipts, d) == 0)
  }

  function RolledTo(u: Usage, today: nat): Usage {
    if u.day == Some(today) then u else Usage(Some(today), 0)
  }

  lemma RollTallies(u: Usage, receipts: seq<Issued>, today: nat)
    requires Tally(u, receipts, today)
    ensures Tally(RolledTo(u, today), receipts, today)
  {
  }

  lemma RecordTallies(u: Usage, receipts: seq<Issued>, today: nat, x: Issued)
    requires Tally(u, receipts, today) && FinalizedOn(x.signed.payload, today)
    ensures var v := RolledTo(u, today);
            Tally(v.(finalized := v.finalized + x.signed.payload.total), receipts + [x], today)
  {
    forall d: nat
      ensures DayTotal(receipts + [x], d) == DayTotal(receipts, d) + if d == today then x.signed.payload.total else 0
    {
      AppendTotal(receipts, x, d);
    }
  }

  lemma HeaderTallies(u: Usage, receipts: seq<Issued>, today: nat, x: Issued)
    requires Tally(u, receipts, today) && x.signed.payload.commitId.Synthetic?
    ensures Tally(u, receipts + [x], today)
  {
    forall d: nat
      ensures DayTotal(receipts + [x], d) == DayTotal(receipts, d)
    {
      AppendTotal(receipts, x, d);
    }
  }

  /** Day `d` took something in this step only if the counter counts it now. */
  ghost predicate Takes(u: Usage, before: seq<Issued>, after: seq<Issued>) {
    forall d: nat :: DayTotal(after, d) != DayTotal(before, d) ==> u.day == Some(d)
  }

  // ---- steps -----------------------------------------------------------------------------------------

  ghost predicate Tallied(cfg: Config, w: Which, s: State) {
    PolicyOf(cfg, w).enabled ==> Tally(UsageOf(s, w), s.receipts, DayOf(s.clock))
  }

  ghost predicate StepTaken(cfg: Config, w: Which, s: State, s': State) {
    Tallied(cfg, w, s') && (PolicyOf(cfg, w).enabled ==> Takes(UsageOf(s', w), s.receipts, s'.receipts))
  }

  lemma ReceiptTallied(cfg: Config, w: Which, s: State, r: nat, f: Effect, today: nat)
    requires Tallied(cfg, w, s) && r < |s.threads| && Fits(s, f) && f.Receipt? && today == DayOf(s.clock)
    ensures StepTaken(cfg, w, s, Perform(cfg, s, r, f))
  {
    var s' := Perform(cfg, s, r, f);
    if f.guard == Pass && PolicyOf(cfg, w).enabled {
      var x := Issued(SignReceiptOf(cfg, s, f), r);
      assert s'.receipts == s.receipts + [x] && x.signed.payload.total == QuoteOf(s, f.c).total;
      RecordTallies(UsageOf(s, w), s.receipts, today, x);
      TakenToday(s.receipts, x, today);
    }
  }

  function SignReceiptOf(cfg: Config, s: State, f: Effect): SignedReceipt
    requires f.Receipt? && Fits(s, f)
  {
    SignReceipt(cfg.crypto, s.prevHash, FinalizePayload(cfg, s, f.c, f.mode, f.v, f.splits))
  }

  lemma TakenToday(receipts: seq<Issued>, x: Issued, today: nat)
    requires FinalizedOn(x.signed.payload, today)
    ensures forall d: nat :: DayTotal(receipts + [x], d) != DayTotal(receipts, d) ==> d == today
  {
    forall d: nat
      ensures DayTotal(receipts + [x], d) != DayTotal(receipts, d) ==> d == today
    {
      AppendTotal(receipts, x, d);
    }
  }

  lemma ServeTallied(cfg: Config, w: Which, s: State, r: nat, f: Effect)
    requires Tallied(cfg, w, s) && r < |s.threads| && Fits(s, f) && f.Serve?
    ensures StepTaken(cfg, w, s, Perform(cfg, s, r, f))
  {
    var s' := Perform(cfg, s, r, f);
    if f.guard == Pass && PolicyOf(cfg, w).enabled {
      var x := s'.receipts[|s.receipts|];
      assert s'.receipts == s.receipts + [x] && x.signed.payload.commitId.Synthetic?;
      HeaderTallies(UsageOf(s, w), s.receipts, DayOf(s.clock), x);
      forall d: nat
        ensures DayTotal(s.receipts + [x], d) == DayTotal(s.receipts, d)
      {
        AppendTotal(s.receipts, x, d);
      }
    }
  }

  lemma PerformTallied(cfg: Config, w: Which, s: State, r: nat, f: Effect)
    requires Tallied(cfg, w, s) && r < |s.threads| && Fits(s, f)
    ensures StepTaken(cfg, w, s, Perform(cfg, s, r, f))
  {
    match f
    case Receipt(_, _, _, _, _) => ReceiptTallied(cfg, w, s, r, f, DayOf(s.clock));
    case Serve(_, _, _, _, _, _) => ServeTallied(cfg, w, s, r, f);
    case _ =>
  }

  lemma FinalizeTallied(cfg: Config, w: Which, s: State, c: nat, proof: Option<PaymentProof>,
                        items: seq<(string, PaymentProof)>)
    requires Tallied(cfg, w, s)
    ensures StepTaken(cfg, w, s, StartFinalize(cfg, s, c, proof, items))
  {
    if PolicyOf(cfg, w).enabled {
      RollTallies(UsageOf(s, w), s.receipts, DayOf(s.clock));
    }
  }

  /** No receipt, and counters as they were. */
  lemma QuietTallied(cfg: Config, w: Which, s: State, s': State)
    requires Tallied(cfg, w, s) && s'.receipts == s.receipts && s'.drill == s.drill && s'.beta == s.beta
    requires s'.clock >= s.clock
    ensures StepTaken(cfg, w, s, s')
  {
    DaysAdvance(s.clock, s'.clock);
  }

  lemma StepTallied(cfg: Config, w: Which, s: State, e: Event)
    requires Tallied(cfg, w, s)
    ensures StepTaken(cfg, w, s, Step(cfg, s, e))
  {
    match e
    case Verdict(r, v, guard) =>
      if r < |s.threads| && Runnable(s, s.threads[r]) {
        PerformTallied(cfg, w, s, r, OnVerdict(cfg, s, s.threads[r], v, guard));
      }
    case Resume(r, guard) =>
      if r < |s.threads| && Runnable(s, s.threads[r]) {
        PerformTallied(cfg, w, s, r, OnResume(s, s.threads[r], guard));
      }
    case PostFinalize(c, proof, items) => FinalizeTallied(cfg, w, s, c, proof, items);
    case AskQuote(_, _) => RequestTallied(cfg, w, s, e);
    case PostCommit(_, _) => RequestTallied(cfg, w, s, e);
    case Get(_, _, _, _) => RequestTallied(cfg, w, s, e);
    case _ => QuietTallied(cfg, w, s, Step(cfg, s, e));
  }

  lemma RequestTallied(cfg: Config, w: Which, s: State, e: Event)
    requires Tallied(cfg, w, s) && (e.AskQuote? || e.PostCommit? || e.Get?)
    ensures StepTaken(cfg, w, s, Step(cfg, s, e))
  {
    OtherRequestShape(cfg, s, e);
    P.OthersGrantNothing(cfg, s, e);
    QuietTallied(cfg, w, s, Step(cfg, s, e));
  }

  // ---- the theorems --------------------------------------------------------------------------------------

  lemma {:induction false} RunTallied(cfg: Config, w: Which, start: nat, es: seq<Event>)
    ensures Tallied(cfg, w, Run(cfg, start, es))
  {
    if es != [] {
      RunTallied(cfg, w, start, es[..|es| - 1]);
      StepTallied(cfg, w, Run(cfg, start, es[..|es| - 1]), es[|es| - 1]);
    }
  }

  /**
   * In every run, whatever overlaps: the counter, rolled over to the present day, is the total
   * of the receipts that finalize calls have issued on that day; before it is rolled over, that
   * of the day it was last used.
   */
  lemma CounterIsTheDaysReceipts(cfg: Config, w: Which, start: nat, es: seq<Event>)
    requires PolicyOf(cfg, w).enabled
    ensures var s := Run(cfg, start, es);
            && Rolled(UsageOf(s, w), s.clock).finalized == DayTotal(s.receipts, DayOf(s.clock))
            && (UsageOf(s, w).day.Some? ==> UsageOf(s, w).finalized == DayTotal(s.receipts, UsageOf(s, w).day.value))
  {
    RunTallied(cfg, w, start, es);
    var s := Run(cfg, start, es);
    RollTallies(UsageOf(s, w), s.receipts, DayOf(s.clock));
  }

  /**
   * With at most `k` requests between check and record, finalize calls take no more than the
   * daily cap plus the `k - 1` largest transactions on any day of the run.
   */
  lemma {:induction false} TakingsAreCapped(cfg: Config, w: Which, start: nat, es: seq<Event>, k: nat, d: nat)
    requires k >= 1 && NeverMoreThan(cfg, start, es, k) && PolicyOf(cfg, w).enabled
    ensures DayTotal(Run(cfg, start, es).receipts, d) <= Ceiling(PolicyOf(cfg, w), k)
  {
    if es != [] {
      var init := es[..|es| - 1];
      SoonerNoMore(cfg, start, es, k);
      TakingsAreCapped(cfg, w, start, init, k, d);
      RunTallied(cfg, w, start, init);
      StepTallied(cfg, w, Run(cfg, start, init), es[|es| - 1]);
      DailyCapUnderConcurrency(cfg, w, start, es, k);
      StaysCapped(cfg, w, Run(cfg, start, init), Run(cfg, start, es), k, d);
    }
  }

  lemma SoonerNoMore(cfg: Config, start: nat, es: seq<Event>, k: nat)
    requires es != [] && NeverMoreThan(cfg, start, es, k)
    ensures NeverMoreThan(cfg, start, es[..|es| - 1], k)
  {
    var init := es[..|es| - 1];
    forall n | 0 <= n <= |init|
      ensures InFlight(Run(cfg, start, init[..n]).threads) <= k
    {
      assert init[..n] == es[..n];
    }
  }

  lemma StaysCapped(cfg: Config, w: Which, s: State, s': State, k: nat, d: nat)
    requires k >= 1 && PolicyOf(cfg, w).enabled && StepTaken(cfg, w, s, s')
    requires DayTotal(s.receipts, d) <= Ceiling(PolicyOf(cfg, w), k)
    requires UsageOf(s', w).finalized <= Ceiling(PolicyOf(cfg, w), k)
    ensures DayTotal(s'.receipts, d) <= Ceiling(PolicyOf(cfg, w), k)
  {
  }

  /** Calls that do not overlap take no more than the cap on any day. */
  lemma TakingsWithinCap(cfg: Config, w: Which, start: nat, es: seq<Event>, d: nat)
    requires PolicyOf(cfg, w).enabled && NeverMoreThan(cfg, start, es, 1)
    ensures DayTotal(Run(cfg, start, es).receipts, d) <= PolicyOf(cfg, w).daily
  {
    TakingsAreCapped(cfg, w, start, es, 1, d);
  }
}
