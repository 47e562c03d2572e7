/**
 * When a finalized commit stays finalized: exactly while no call on it can still reject, issue
 * or settle (x402/src/server.ts).
 */
module Finality {
  import opened Common
  import opened Types
  import opened Receipts
  import opened Protocol
  import opened Runs
  import D = Delivery
  import P = Payments

  /** A call on commit `c` that can still reject it, issue a receipt for it, or settle it on one other than `x`. */
  predicate Threatens(t: Thread, c: nat, x: nat) {
    D.LiveOn(t) == Some(c) &&
    match t
    case AwaitGlobal(_, _, _, granted) => granted
    case AwaitScoped(_, _, _, granted) => granted
    case SplitCheck(_, lines, _, _, claimed) => !claimed && ValidSplit(lines)
    case SplitClaim(_, _, _, _, granted) => granted
    case AwaitLedger(_, y, _) => y != x
    case _ => true
  }

  /** Commit `c` is finalized with receipt `x`. */
  predicate Stands(s: State, c: nat, x: nat) {
    c < |s.commits| && s.commits[c].status == Finalized && s.commits[c].receiptId == Some(x)
  }

  ghost predicate Quiet(s: State, c: nat, x: nat) {
    Stands(s, c, x) && forall r :: 0 <= r < |s.threads| ==> !Threatens(s.threads[r], c, x)
  }

  predicate OnCommit(s: State, r: nat, c: nat) {
    r < |s.threads| && D.LiveOn(s.threads[r]) == Some(c)
  }

  /**
   * From `s` to `s'` nothing was done for commit `c`: no call on it began, none claimed a key,
   * and no receipt was signed or stored for it.
   */
  ghost predicate Spared(s: State, s': State, c: nat) {
    && |s.threads| <= |s'.threads|
    && (forall r :: 0 <= r < |s'.threads| && OnCommit(s', r, c) ==> OnCommit(s, r, c))
    && (forall r :: 0 <= r < |s.threads| ==>
          (OnCommit(s, r, c) ==> OnCommit(s', r, c) || s'.threads[r].Done?) &&
            (s.threads[r].Done? ==> s'.threads[r].Done?))
    && SparedRecords(s, s', c) && SparedGrants(s, s', c)
  }

  ghost predicate SparedRecords(s: State, s': State, c: nat) {
    && s.receipts <= s'.receipts && s.signed <= s'.signed
    && (forall i :: |s.receipts| <= i < |s'.receipts| ==> s'.receipts[i].signed.payload.commitId != Stored(c))
    && (forall i :: |s.signed| <= i < |s'.signed| ==> s'.signed[i].payload.commitId != Stored(c))
  }

  /** Whoever was granted a key meanwhile was not at work on `c`. */
  ghost predicate SparedGrants(s: State, s': State, c: nat) {
    && s.grants <= s'.grants
    && (forall i :: |s.grants| <= i < |s'.grants| ==> Bystander(s, s', s'.grants[i].holder, c))
  }

  predicate Bystander(s: State, s': State, h: nat, c: nat) {
    h < |s'.threads| && (h < |s.threads| ==> !OnCommit(s, h, c) && !s.threads[h].Done?)
  }

  lemma SparedTwice(s: State, a: State, b: State, c: nat)
    requires Spared(s, a, c) && Spared(a, b, c)
    ensures Spared(s, b, c)
  {
    forall i | |s.grants| <= i < |b.grants|
      ensures Bystander(s, b, b.grants[i].holder, c)
    {
      if i < |a.grants| {
        assert b.grants[i] == a.grants[i] && Bystander(s, a, a.grants[i].holder, c);
      } else {
        assert Bystander(a, b, b.grants[i].holder, c);
      }
    }
  }

  // ---- a quiet commit stays quiet --------------------------------------------------------------

  /** What a segment of thread `t` may do to a quiet commit. */
  ghost predicate Harmless(t: Thread, f: Effect, c: nat, x: nat) {
    if D.LiveOn(t) == Some(c) then
      || f.Stay?
      || ((f.Move? || f.Sweep?) && !Threatens(f.t, c, x) && (D.LiveOn(f.t) == Some(c) || f.t.Done?))
      || (f.Settle? && f.c == c && f.receiptId == x)
    else D.StaysOn(t, f) && (t.Done? ==> f.Stay?)
  }

  lemma VerdictHarmless(cfg: Config, s: State, t: Thread, v: Verification, guard: Guard, c: nat, x: nat)
    requires Runnable(s, t) && !Threatens(t, c, x)
    ensures Harmless(t, OnVerdict(cfg, s, t, v, guard), c, x)
  {
    D.VerdictStaysOn(cfg, s, t, v, guard);
  }

  lemma ResumeHarmless(s: State, t: Thread, guard: Guard, c: nat, x: nat)
    requires Runnable(s, t) && !Threatens(t, c, x)
    ensures Harmless(t, OnResume(s, t, guard), c, x)
  {
    D.ResumeStaysOn(s, t, guard);
  }

  lemma PerformQuiet(cfg: Config, s: State, r: nat, f: Effect, c: nat, x: nat)
    requires Quiet(s, c, x) && r < |s.threads| && Fits(s, f) && Harmless(s.threads[r], f, c, x)
    ensures var s' := Perform(cfg, s, r, f); Quiet(s', c, x) && Spared(s, s', c)
  {
    if D.LiveOn(s.threads[r]) == Some(c) {
      OwnQuiet(cfg, s, r, f, c, x);
    } else {
      OtherQuiet(cfg, s, r, f, c, x);
    }
  }

  lemma OwnQuiet(cfg: Config, s: State, r: nat, f: Effect, c: nat, x: nat)
    requires Quiet(s, c, x) && r < |s.threads| && Fits(s, f) && Harmless(s.threads[r], f, c, x) && OnCommit(s, r, c)
    ensures var s' := Perform(cfg, s, r, f); Quiet(s', c, x) && Spared(s, s', c)
  {
  }

  lemma OtherQuiet(cfg: Config, s: State, r: nat, f: Effect, c: nat, x: nat)
    requires Quiet(s, c, x) && r < |s.threads| && Fits(s, f) && Harmless(s.threads[r], f, c, x) && !OnCommit(s, r, c)
    ensures var s' := Perform(cfg, s, r, f); Quiet(s', c, x) && Spared(s, s', c)
  {
    D.OtherKeepsCommit(cfg, s, r, f, c);
    OtherSigns(cfg, s, r, f, c);
    OtherClaims(cfg, s, r, f, c);
  }

  lemma OtherSigns(cfg: Config, s: State, r: nat, f: Effect, c: nat)
    requires r < |s.threads| && Fits(s, f) && D.StaysOn(s.threads[r], f) && !OnCommit(s, r, c)
    ensures SparedRecords(s, Perform(cfg, s, r, f), c)
  {
  }

  lemma OtherClaims(cfg: Config, s: State, r: nat, f: Effect, c: nat)
    requires r < |s.threads| && Fits(s, f) && (s.threads[r].Done? ==> f.Stay?) && !OnCommit(s, r, c)
    ensures SparedGrants(s, Perform(cfg, s, r, f), c)
  {
  }

  /** A request arrives or a response goes out: the records and calls of `c` stay as they are. */
  ghost predicate Apart(s: State, s': State, c: nat) {
    && c < |s.commits| && c < |s'.commits|
    && s'.commits[c].status == s.commits[c].status && s'.commits[c].receiptId == s.commits[c].receiptId
    && s'.receipts == s.receipts && s'.signed == s.signed && s'.grants == s.grants
    && |s.threads| <= |s'.threads|
    && (forall r :: 0 <= r < |s'.threads| ==>
          (r < |s.threads| && s'.threads[r] == s.threads[r]) ||
            (D.LiveOn(s'.threads[r]) != Some(c) && NewOrOver(s, s', r, c)))
  }

  /** Thread `r` is new, or has just ended a delivery. */
  predicate NewOrOver(s: State, s': State, r: nat, c: nat) {
    r < |s.threads| ==> r < |s'.threads| && s'.threads[r].Done? && !OnCommit(s, r, c)
  }

  lemma ApartQuiet(s: State, s': State, c: nat, x: nat)
    requires Quiet(s, c, x) && Apart(s, s', c)
    ensures Quiet(s', c, x) && Spared(s, s', c)
  {
  }

  /** A further finalize call on a finalized commit is answered at once. */
  lemma FinalizeApart(cfg: Config, s: State, d: nat, proof: Option<PaymentProof>, items: seq<(string, PaymentProof)>,
                      c: nat, x: nat)
    requires D.AllLinked(s) && Stands(s, c, x)
    ensures Apart(s, StartFinalize(cfg, s, d, proof, items), c)
  {
    var t := Admit(cfg, s, d, proof, items).t;
    assert D.ReceiptFor(s, x, c);
    assert D.LiveOn(t).Some? ==> D.LiveOn(t) == Some(d) && d != c;
  }

  lemma GetApart(cfg: Config, s: State, resource: string, commit: Option<nat>, compat: Option<CompatRequest>,
                 p: Price, c: nat)
    requires c < |s.commits|
    ensures Apart(s, GetResource(cfg, s, resource, commit, compat, p), c)
  {
    if !(commit.Some? && Deliverable(s, commit.value, resource)) && compat.Some? {
      CompatApart(s, resource, compat.value, c);
    }
  }

  lemma CompatApart(s: State, resource: string, req: CompatRequest, c: nat)
    requires c < |s.commits|
    ensures Apart(s, StartCompat(s, resource, req), c)
  {
  }

  lemma FinishApart(s: State, r: nat, status: nat, c: nat)
    requires c < |s.commits| && r < |s.threads| && s.threads[r].Delivering? && Known(s, s.threads[r].c)
    ensures Apart(s, OnFinish(s, r, s.threads[r].c, s.threads[r].receiptId, status), c)
  {
  }

  lemma OthersApart(cfg: Config, s: State, e: Event, c: nat)
    requires c < |s.commits| && (e.Tick? || e.FlushLedger? || e.AskQuote? || e.PostCommit?)
    ensures Apart(s, Step(cfg, s, e), c)
  {
    if e.PostCommit? {
      CommitApart(s, e.quoteId, e.payer, c);
    }
  }

  lemma CommitApart(s: State, quoteId: nat, payer: string, c: nat)
    requires c < |s.commits|
    ensures Apart(s, DoCommit(s, quoteId, payer), c)
  {
  }

  /** A call that is dropped does nothing more. */
  lemma DropQuiet(cfg: Config, s: State, r: nat, c: nat, x: nat)
    requires Quiet(s, c, x) && r < |s.threads| && !s.threads[r].Done? && !s.threads[r].Delivering?
    ensures var s' := Perform(cfg, s, r, Move(Done(Dropped))); Quiet(s', c, x) && Spared(s, s', c)
  {
    PerformQuiet(cfg, s, r, Move(Done(Dropped)), c, x);
  }

  lemma StepQuiet(cfg: Config, s: State, e: Event, c: nat, x: nat)
    requires D.AllLinked(s) && Quiet(s, c, x)
    ensures var s' := Step(cfg, s, e); Quiet(s', c, x) && Spared(s, s', c)
  {
    var s' := Step(cfg, s, e);
    match e
    case Verdict(r, v, guard) =>
      if r < |s.threads| && Runnable(s, s.threads[r]) {
        VerdictHarmless(cfg, s, s.threads[r], v, guard, c, x);
        PerformQuiet(cfg, s, r, OnVerdict(cfg, s, s.threads[r], v, guard), c, x);
      }
    case Resume(r, guard) =>
      if r < |s.threads| && Runnable(s, s.threads[r]) {
        ResumeHarmless(s, s.threads[r], guard, c, x);
        PerformQuiet(cfg, s, r, OnResume(s, s.threads[r], guard), c, x);
      }
    case Finish(r, status) =>
      if r < |s.threads| && s.threads[r].Delivering? && Known(s, s.threads[r].c) {
        FinishApart(s, r, status, c);
        ApartQuiet(s, s', c, x);
      }
    case Abort(r) =>
      if r < |s.threads| && !s.threads[r].Done? && !s.threads[r].Delivering? {
        DropQuiet(cfg, s, r, c, x);
      }
    case PostFinalize(d, proof, items) =>
      FinalizeApart(cfg, s, d, proof, items, c, x);
      ApartQuiet(s, s', c, x);
    case Get(resource, commit, compat, p) =>
      GetApart(cfg, s, resource, commit, compat, p, c);
      ApartQuiet(s, s', c, x);
    case _ =>
      OthersApart(cfg, s, e, c);
      ApartQuiet(s, s', c, x);
  }

  lemma SparedSelf(s: State, c: nat)
    ensures Spared(s, s, c)
  {
  }

  /** Whatever follows, a quiet commit stands, and nothing more is claimed, signed or stored for it. */
  lemma {:induction false} QuietStays(cfg: Config, s: State, more: seq<Event>, c: nat, x: nat)
    requires D.AllLinked(s) && Quiet(s, c, x)
    ensures var e := After(cfg, s, more); D.AllLinked(e) && Quiet(e, c, x) && Spared(s, e, c)
  {
    if more == [] {
      SparedSelf(s, c);
    } else {
      var init, last := more[..|more| - 1], more[|more| - 1];
      QuietStays(cfg, s, init, c, x);
      var a := After(cfg, s, init);
      D.StepLinks(cfg, a, last);
      StepQuiet(cfg, a, last, c, x);
      SparedTwice(s, a, Step(cfg, a, last), c);
    }
  }

  // ---- what is true of every reachable state ------------------------------------------------------

  /** A thread that waits for a line's verdict has that line and its proof. */
  predicate Asking(s: State, t: Thread) {
    t.SplitVerify? ==>
      && Known(s, t.c) && |t.lines| < |QuoteOf(s, t.c).split|
      && QuoteOf(s, t.c).split[|t.lines|].feeLineId in t.proofs
  }

  ghost predicate Shaped(s: State) {
    && (forall r :: 0 <= r < |s.threads| ==> Asking(s, s.threads[r]))
    && (forall c :: 0 <= c < |s.commits| && s.commits[c].status == Finalized ==> s.commits[c].receiptId.Some?)
  }

  /** One thread changes or joins; records are appended; commits change status only with a receipt. */
  lemma ShapeKept(s: State, s': State, r: nat, t: Thread)
    requires Shaped(s) && D.Extends(s, s') && Asking(s', t)
    requires (r < |s.threads| && s'.threads == s.threads[r := t]) || (r == |s.threads| && s'.threads == s.threads + [t])
             || s'.threads == s.threads
    requires forall c :: 0 <= c < |s'.commits| && s'.commits[c].status == Finalized ==>
      (c < |s.commits| && s'.commits[c].status == s.commits[c].status &&
       s'.commits[c].receiptId == s.commits[c].receiptId)
      || s'.commits[c].receiptId.Some?
    ensures Shaped(s')
  {
    forall q | 0 <= q < |s'.threads|
      ensures Asking(s', s'.threads[q])
    {
      assert q < |s.threads| ==> Asking(s, s.threads[q]);
    }
  }

  lemma PerformShaped(cfg: Config, s: State, r: nat, f: Effect)
    requires Shaped(s) && r < |s.threads| && Fits(s, f)
    requires f.Move? || f.Sweep? || f.Claim? ==> Asking(s, f.t)
    ensures Shaped(Perform(cfg, s, r, f))
  {
    if !f.Stay? {
      ShapeKept(s, Perform(cfg, s, r, f), r, Perform(cfg, s, r, f).threads[r]);
    }
  }

  lemma VerdictAsks(cfg: Config, s: State, t: Thread, v: Verification, guard: Guard)
    requires Runnable(s, t)
    ensures var f := OnVerdict(cfg, s, t, v, guard); f.Move? || f.Sweep? || f.Claim? ==> Asking(s, f.t)
  {
  }

  lemma ResumeAsks(s: State, t: Thread, guard: Guard)
    requires Runnable(s, t)
    ensures var f := OnResume(s, t, guard); f.Move? || f.Sweep? || f.Claim? ==> Asking(s, f.t)
  {
  }

  lemma FinalizeShaped(cfg: Config, s: State, d: nat, proof: Option<PaymentProof>, items: seq<(string, PaymentProof)>)
    requires Shaped(s)
    ensures Shaped(StartFinalize(cfg, s, d, proof, items))
  {
    var s', t := StartFinalize(cfg, s, d, proof, items), Admit(cfg, s, d, proof, items).t;
    assert Asking(s, t);
    ShapeKept(s, s', |s.threads|, t);
  }

  lemma RequestShaped(cfg: Config, s: State, e: Event)
    requires Shaped(s) && (e.AskQuote? || e.PostCommit? || e.Get? || e.Tick? || e.FlushLedger?)
    ensures Shaped(Step(cfg, s, e))
  {
    if e.Get? {
      GetShaped(cfg, s, e.resource, e.commitHeader, e.compat, e.price);
    } else if e.PostCommit? {
      CommitShaped(s, e.quoteId, e.payer);
    } else {
      ShapeKept(s, Step(cfg, s, e), |s.threads|, Done(Quoted(|s.quotes|)));
    }
  }

  lemma CommitShaped(s: State, quoteId: nat, payer: string)
    requires Shaped(s)
    ensures Shaped(DoCommit(s, quoteId, payer))
  {
    if quoteId < |s.quotes| && !Expired(s.quotes[quoteId], s.clock) && NormalizeCommitment(payer).Some? {
      NewCommitShaped(s, quoteId, NormalizeCommitment(payer).value);
    } else {
      var t := DoCommit(s, quoteId, payer).threads[|s.threads|];
      ShapeKept(s, Spawn(s, t), |s.threads|, t);
    }
  }

  lemma NewCommitShaped(s: State, quoteId: nat, payer: string)
    requires Shaped(s)
    ensures Shaped(Spawn(s.(commits := s.commits + [Commit(quoteId, payer, s.clock, Pending, None, None, None)]),
                         Done(Committed(|s.commits|))))
  {
    var s' := Spawn(s.(commits := s.commits + [Commit(quoteId, payer, s.clock, Pending, None, None, None)]),
                    Done(Committed(|s.commits|)));
    ShapeKept(s, s', |s.threads|, Done(Committed(|s.commits|)));
  }

  lemma GetShaped(cfg: Config, s: State, resource: string, commit: Option<nat>, compat: Option<CompatRequest>, p: Price)
    requires Shaped(s)
    ensures Shaped(GetResource(cfg, s, resource, commit, compat, p))
  {
    if commit.Some? && Deliverable(s, commit.value, resource) {
      DeliveryShaped(s, commit.value, resource);
    } else if compat.Some? {
      CompatShaped(s, resource, compat.value);
    } else {
      ShapeKept(s, GetResource(cfg, s, resource, commit, compat, p), |s.threads|, Done(Quoted(|s.quotes|)));
    }
  }

  lemma DeliveryShaped(s: State, c: nat, resource: string)
    requires Shaped(s) && Deliverable(s, c, resource)
    ensures Shaped(StartDelivery(s, c, resource))
  {
    var s' := StartDelivery(s, c, resource);
    ShapeKept(s, s', |s.threads|, s'.threads[|s.threads|]);
  }

  lemma CompatShaped(s: State, resource: string, req: CompatRequest)
    requires Shaped(s)
    ensures Shaped(StartCompat(s, resource, req))
  {
    var s' := StartCompat(s, resource, req);
    ShapeKept(s, s', |s.threads|, s'.threads[|s.threads|]);
  }

  lemma FinishShaped(s: State, r: nat, status: nat)
    requires Shaped(s) && r < |s.threads| && s.threads[r].Delivering? && Known(s, s.threads[r].c)
    ensures Shaped(OnFinish(s, r, s.threads[r].c, s.threads[r].receiptId, status))
  {
    var s' := OnFinish(s, r, s.threads[r].c, s.threads[r].receiptId, status);
    ShapeKept(s, s', r, s'.threads[r]);
  }

  lemma StepShaped(cfg: Config, s: State, e: Event)
    requires Shaped(s)
    ensures Shaped(Step(cfg, s, e))
  {
    match e
    case Verdict(r, v, guard) =>
      if r < |s.threads| && Runnable(s, s.threads[r]) {
        VerdictAsks(cfg, s, s.threads[r], v, guard);
        PerformShaped(cfg, s, r, OnVerdict(cfg, s, s.threads[r], v, guard));
      }
    case Resume(r, guard) =>
      if r < |s.threads| && Runnable(s, s.threads[r]) {
        ResumeAsks(s, s.threads[r], guard);
        PerformShaped(cfg, s, r, OnResume(s, s.threads[r], guard));
      }
    case Finish(r, status) =>
      if r < |s.threads| && s.threads[r].Delivering? && Known(s, s.threads[r].c) { FinishShaped(s, r, status); }
    case Abort(r) =>
      if r < |s.threads| && !s.threads[r].Done? && !s.threads[r].Delivering? {
        PerformShaped(cfg, s, r, Move(Done(Dropped)));
      }
    case PostFinalize(d, proof, items) => FinalizeShaped(cfg, s, d, proof, items);
    case _ => RequestShaped(cfg, s, e);
  }

  /** What a continuation can rely on. */
  ghost predicate Sound(cfg: Config, s: State) {
    D.AllLinked(s) && P.Inv(cfg, s) && Shaped(s)
  }

  lemma StepSound(cfg: Config, s: State, e: Event)
    requires Sound(cfg, s)
    ensures Sound(cfg, Step(cfg, s, e))
  {
    D.StepLinks(cfg, s, e);
    P.StepKeeps(cfg, s, e);
    StepShaped(cfg, s, e);
  }

  lemma {:induction false} RunIsSound(cfg: Config, start: nat, es: seq<Event>)
    ensures Sound(cfg, Run(cfg, start, es))
  {
    if es != [] {
      RunIsSound(cfg, start, es[..|es| - 1]);
      StepSound(cfg, Run(cfg, start, es[..|es| - 1]), es[|es| - 1]);
    }
  }

  // ---- a call that threatens the commit can undo it ----------------------------------------------------

  const REFUSAL := Verification(false, false, None, None)

  /** How many more keys the call has to look at or to claim before it issues. */
  function KeysLeft(t: Thread): nat {
    match t
    case AwaitGlobal(_, _, _, _) => 1
    case SplitCheck(_, lines, j, scoped, _) =>
      if j < |lines| then 2 * |lines| + 2 * (|lines| - j) - (if scoped then 1 else 0) else 0
    case SplitClaim(_, lines, j, scoped, _) => if j < |lines| then 2 * (|lines| - j) - (if scoped then 1 else 0) else 0
    case _ => 0
  }

  /** After the lifetime of all keys, the call passes the next one. */
  function Passed(cfg: Config, s: State, r: nat): State {
    Step(cfg, Step(cfg, s, Tick(cfg.replayTtlMs)), Resume(r, Pass))
  }

  /** Between `s` and `e` the call has passed a key. */
  ghost predicate Closer(s: State, e: State, r: nat, c: nat, x: nat)
    requires r < |s.threads|
  {
    r < |e.threads| && Threatens(e.threads[r], c, x) && KeysLeft(e.threads[r]) < KeysLeft(s.threads[r])
  }

  /** What a call needs to pass: its records are there, and the keys it asks for are free. */
  ghost predicate Clear(s: State, r: nat, c: nat, x: nat) {
    && r < |s.threads| && Runnable(s, s.threads[r]) && Known(s, c) && Threatens(s.threads[r], c, x)
    && forall key :: Free(s, key)
  }

  lemma SinglePasses(cfg: Config, s: State, r: nat, c: nat, x: nat)
    requires Clear(s, r, c, x) && s.threads[r].AwaitGlobal?
    ensures Closer(s, Step(cfg, s, Resume(r, Pass)), r, c, x)
  {
    var t := s.threads[r];
    assert OnResume(s, t, Pass) ==
      Claim(PaymentScopedKey(QuoteOf(s, c), t.proof, t.v), AwaitScoped(c, t.proof, t.v, true));
  }

  lemma CheckPasses(cfg: Config, s: State, r: nat, c: nat, x: nat)
    requires Clear(s, r, c, x) && s.threads[r].SplitCheck?
    ensures Closer(s, Step(cfg, s, Resume(r, Pass)), r, c, x)
  {
    var t := s.threads[r];
    var f := OnResume(s, t, Pass);
    if !t.scoped {
      assert f == Sweep(SplitCheck(c, t.lines, t.j, true, false));
    } else if t.j + 1 < |t.lines| {
      assert f == Sweep(SplitCheck(c, t.lines, t.j + 1, false, false));
    } else {
      assert f == Claim(LineKey(t.lines[0]), SplitClaim(c, t.lines, 0, false, true));
    }
  }

  lemma ClaimPasses(cfg: Config, s: State, r: nat, c: nat, x: nat)
    requires Clear(s, r, c, x) && s.threads[r].SplitClaim?
    ensures Closer(s, Step(cfg, s, Resume(r, Pass)), r, c, x)
  {
    var t := s.threads[r];
    var f := OnResume(s, t, Pass);
    if !t.scoped {
      assert f.Claim? && f.t == SplitClaim(c, t.lines, t.j, true, true);
    } else if t.j + 1 < |t.lines| {
      assert f.Claim? && f.t == SplitClaim(c, t.lines, t.j + 1, false, true);
    } else {
      assert f == Move(SplitReturn(c, t.lines));
    }
  }

  lemma ClearAfterTick(cfg: Config, s: State, r: nat, c: nat, x: nat)
    requires Sound(cfg, s) && r < |s.threads| && Threatens(s.threads[r], c, x)
    ensures Clear(Step(cfg, s, Tick(cfg.replayTtlMs)), r, c, x)
  {
    var b := Step(cfg, s, Tick(cfg.replayTtlMs));
    assert b == s.(clock := s.clock + cfg.replayTtlMs);
    assert D.Linked(s, s.threads[r], r);
    forall key
      ensures Free(b, key)
    {
      P.AllExpire(cfg, s, key, b.clock);
    }
  }

  /** A call with keys left can pass the next one, once all have expired. */
  lemma PassesKey(cfg: Config, s: State, r: nat, c: nat, x: nat)
    requires Sound(cfg, s) && r < |s.threads| && Threatens(s.threads[r], c, x)
    requires s.threads[r].AwaitGlobal? || s.threads[r].SplitCheck? || s.threads[r].SplitClaim?
    ensures Closer(s, Passed(cfg, s, r), r, c, x)
  {
    var b := Step(cfg, s, Tick(cfg.replayTtlMs));
    ClearAfterTick(cfg, s, r, c, x);
    if b.threads[r].AwaitGlobal? {
      SinglePasses(cfg, b, r, c, x);
    } else if b.threads[r].SplitCheck? {
      CheckPasses(cfg, b, r, c, x);
    } else {
      ClaimPasses(cfg, b, r, c, x);
    }
  }

  /** With no key left, one more step of the call turns the commit down or gives it another receipt. */
  lemma LastStepUndoes(cfg: Config, s: State, r: nat, c: nat, x: nat) returns (e: Event)
    requires Sound(cfg, s) && r < |s.threads| && Threatens(s.threads[r], c, x)
    requires !s.threads[r].AwaitGlobal? && !s.threads[r].SplitCheck? && !s.threads[r].SplitClaim?
    ensures !Stands(Step(cfg, s, e), c, x)
  {
    var t := s.threads[r];
    if t.AwaitVerify? || t.SplitVerify? {
      e := Verdict(r, REFUSAL, BlockBeforeSign);
      RefusalUndoes(cfg, s, r, c, x);
    } else {
      e := Resume(r, BlockBeforeSign);
      ResumptionUndoes(cfg, s, r, c, x);
    }
  }

  lemma RefusalUndoes(cfg: Config, s: State, r: nat, c: nat, x: nat)
    requires Sound(cfg, s) && r < |s.threads| && Threatens(s.threads[r], c, x)
    requires s.threads[r].AwaitVerify? || s.threads[r].SplitVerify?
    ensures !Stands(Step(cfg, s, Verdict(r, REFUSAL, BlockBeforeSign)), c, x)
  {
    var t := s.threads[r];
    assert D.Linked(s, t, r) && Asking(s, t);
    var f := OnVerdict(cfg, s, t, REFUSAL, BlockBeforeSign);
    EffectUndoes(cfg, s, r, f, c, x);
  }

  /** A rejection, a blocked receipt or another receipt's completion. */
  lemma EffectUndoes(cfg: Config, s: State, r: nat, f: Effect, c: nat, x: nat)
    requires r < |s.threads| && Fits(s, f)
    requires f == Reject(c) || (f.Receipt? && f.c == c && f.guard == BlockBeforeSign) ||
             (f.Settle? && f.c == c && f.receiptId != x)
    ensures !Stands(Perform(cfg, s, r, f), c, x)
  {
  }

  lemma ResumptionUndoes(cfg: Config, s: State, r: nat, c: nat, x: nat)
    requires Sound(cfg, s) && r < |s.threads| && Threatens(s.threads[r], c, x)
    requires s.threads[r].AwaitScoped? || s.threads[r].SplitReturn? || s.threads[r].AwaitLedger?
    ensures !Stands(Step(cfg, s, Resume(r, BlockBeforeSign)), c, x)
  {
    assert D.Linked(s, s.threads[r], r);
    ResumingUndoes(cfg, s, r, c, x);
  }

  lemma ResumingUndoes(cfg: Config, s: State, r: nat, c: nat, x: nat)
    requires r < |s.threads| && Runnable(s, s.threads[r]) && Threatens(s.threads[r], c, x)
    requires s.threads[r].AwaitScoped? || s.threads[r].SplitReturn? || s.threads[r].AwaitLedger?
    ensures !Stands(Step(cfg, s, Resume(r, BlockBeforeSign)), c, x)
  {
    LastEffect(s, s.threads[r], c, x);
    EffectUndoes(cfg, s, r, OnResume(s, s.threads[r], BlockBeforeSign), c, x);
  }

  lemma LastEffect(s: State, t: Thread, c: nat, x: nat)
    requires Runnable(s, t) && Threatens(t, c, x) && (t.AwaitScoped? || t.SplitReturn? || t.AwaitLedger?)
    ensures var f := OnResume(s, t, BlockBeforeSign);
            (f.Receipt? && f.c == c && f.guard == BlockBeforeSign) || (f.Settle? && f.c == c && f.receiptId != x)
  {
  }

  /** Every call that threatens the commit has a continuation in which it undoes it. */
  lemma {:induction false} ThreatCarriedOut(cfg: Config, s: State, r: nat, c: nat, x: nat) returns (e: State)
    requires Sound(cfg, s) && r < |s.threads| && Threatens(s.threads[r], c, x)
    ensures Leads(cfg, s, e) && !Stands(e, c, x)
    decreases KeysLeft(s.threads[r])
  {
    var t := s.threads[r];
    if t.AwaitGlobal? || t.SplitCheck? || t.SplitClaim? {
      PassesKey(cfg, s, r, c, x);
      var a := PassedLeads(cfg, s, r);
      e := ThreatCarriedOut(cfg, a, r, c, x);
      LeadsOn(cfg, s, a, e);
    } else {
      var last := LastStepUndoes(cfg, s, r, c, x);
      e := Step(cfg, s, last);
      StepLeads(cfg, s, last);
    }
  }

  lemma PassedLeads(cfg: Config, s: State, r: nat) returns (a: State)
    requires Sound(cfg, s)
    ensures a == Passed(cfg, s, r) && Leads(cfg, s, a) && Sound(cfg, a)
  {
    var b := Step(cfg, s, Tick(cfg.replayTtlMs));
    a := Step(cfg, b, Resume(r, Pass));
    StepLeads(cfg, s, Tick(cfg.replayTtlMs));
    StepLeads(cfg, b, Resume(r, Pass));
    LeadsOn(cfg, s, b, a);
    StepSound(cfg, s, Tick(cfg.replayTtlMs));
    StepSound(cfg, b, Resume(r, Pass));
  }

  // ---- the theorems ---------------------------------------------------------------------------------------

  /**
   * Exactly when finality is final: in every reachable state in which commit `c` is finalized,
   * it keeps its status and its receipt whatever follows if and only if no call on it can
   * still reject, issue or settle.
   */
  lemma FinalityExactly(cfg: Config, start: nat, s: State, c: nat)
    requires Reachable(cfg, start, s) && c < |s.commits| && s.commits[c].status == Finalized
    ensures s.commits[c].receiptId.Some?
    ensures var x := s.commits[c].receiptId.value;
            StandsForever(cfg, s, c, x) <==> forall r :: 0 <= r < |s.threads| ==> !Threatens(s.threads[r], c, x)
  {
    ReachableSound(cfg, start, s);
    var x := s.commits[c].receiptId.value;
    if Quiet(s, c, x) {
      QuietForever(cfg, s, c, x);
    } else {
      var r :| 0 <= r < |s.threads| && Threatens(s.threads[r], c, x);
      ThreatEnds(cfg, s, r, c, x);
    }
  }

  lemma ReachableSound(cfg: Config, start: nat, s: State)
    requires Reachable(cfg, start, s)
    ensures Sound(cfg, s)
  {
    var es :| s == Run(cfg, start, es);
    RunIsSound(cfg, start, es);
  }

  /** Whatever follows, commit `c` is finalized with receipt `x`. */
  ghost predicate StandsForever(cfg: Config, s: State, c: nat, x: nat) {
    forall more :: Stands(After(cfg, s, more), c, x)
  }

  lemma QuietForever(cfg: Config, s: State, c: nat, x: nat)
    requires D.AllLinked(s) && Quiet(s, c, x)
    ensures StandsForever(cfg, s, c, x)
  {
    forall more
      ensures Stands(After(cfg, s, more), c, x)
    {
      QuietStays(cfg, s, more, c, x);
    }
  }

  lemma ThreatEnds(cfg: Config, s: State, r: nat, c: nat, x: nat)
    requires Sound(cfg, s) && r < |s.threads| && Threatens(s.threads[r], c, x)
    ensures !StandsForever(cfg, s, c, x)
  {
    var e := ThreatCarriedOut(cfg, s, r, c, x);
    LeadsElsewhere(cfg, s, e, c, x);
  }

  lemma LeadsElsewhere(cfg: Config, s: State, e: State, c: nat, x: nat)
    requires Leads(cfg, s, e) && !Stands(e, c, x)
    ensures !StandsForever(cfg, s, c, x)
  {
    var more :| e == After(cfg, s, more);
    assert !Stands(After(cfg, s, more), c, x);
  }

  /**
   * In particular, when the finalize calls on a commit have not overlapped so far, `finalized`
   * is absorbing: whatever follows, overlapping or not, the receipt id stays, no call is under
   * way on the commit, no call on it claims a key, and no receipt is signed or stored for it.
   */
  lemma FinalizedIsAbsorbing(cfg: Config, start: nat, es: seq<Event>, more: seq<Event>, c: nat)
    requires D.NeverOverlaps(cfg, start, es, c)
    requires c < |Run(cfg, start, es).commits| && Run(cfg, start, es).commits[c].status == Finalized
    ensures var then', now := Run(cfg, start, es), Run(cfg, start, es + more);
            && then'.commits[c].receiptId.Some? && Stands(now, c, then'.commits[c].receiptId.value)
            && (forall r :: 0 <= r < |now.threads| ==> !OnCommit(now, r, c))
            && Spared(then', now, c)
  {
    D.RunFinal(cfg, start, es, c);
    D.RunLinks(cfg, start, es);
    AfterRun(cfg, start, es, more);
    IdleStays(cfg, Run(cfg, start, es), more, c);
  }

  lemma IdleStays(cfg: Config, s: State, more: seq<Event>, c: nat)
    requires D.AllLinked(s) && c < |s.commits| && D.Final(s, c) && s.commits[c].status == Finalized
    ensures s.commits[c].receiptId.Some?
    ensures var e := After(cfg, s, more);
            && Stands(e, c, s.commits[c].receiptId.value) && Spared(s, e, c)
            && (forall r :: 0 <= r < |e.threads| ==> !OnCommit(e, r, c))
  {
    D.FinalMeansIdle(s, c);
    QuietStays(cfg, s, more, c, s.commits[c].receiptId.value);
  }
}
