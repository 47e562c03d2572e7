/**
 * One payment, one receipt, one delivery: in every interleaving of requests, receipts and
 * deliveries inject into granted claims of on-chain payments (x402/src/server.ts).
 */
module Payments {
  import opened Common
  import opened Types
  import opened Receipts
  import opened Protocol
  import RS = ReplayStore
  import D = Delivery

  /** `key` stands for an on-chain payment that the receipt names. */
  ghost predicate Names(p: ReceiptPayload, key: RS.ReplayKey) {
    if p.splitProofs.Some? then
      exists i :: 0 <= i < |p.splitProofs.value| && key == GlobalKey("transfer", p.splitProofs.value[i].txSignature)
    else if p.settlement == Transfer then
      p.txSignature.Some? && key == GlobalKey("transfer", p.txSignature.value)
    else
      p.settlement == Stream && p.streamId.Some? && key == GlobalKey("stream", p.streamId.value)
  }

  /** Request `r` was granted `key`. */
  ghost predicate Backed(grants: seq<RS.Grant>, key: RS.ReplayKey, r: nat) {
    exists i :: 0 <= i < |grants| && grants[i].key == key && grants[i].holder == r
  }

  /** Past the point where a request may issue its receipt. */
  predicate Spent(t: Thread) {
    t.AwaitLedger? || t.Delivering? || t.Done?
  }

  ghost predicate LinesBacked(grants: seq<RS.Grant>, lines: seq<SplitLine>, n: nat, r: nat)
    requires AllVerified(lines) && n <= |lines|
  {
    forall i :: 0 <= i < n ==> Backed(grants, LineKey(lines[i]), r)
  }

  /** Whatever a request has claimed on its way was granted to it. */
  ghost predicate ThreadBacked(grants: seq<RS.Grant>, t: Thread, r: nat) {
    match t
    case AwaitGlobal(_, proof, v, granted) => SingleReady(proof, v) && granted ==>
      Backed(grants, PaymentKey(proof, v), r)
    case AwaitScoped(_, proof, v, _) => SingleReady(proof, v) ==> Backed(grants, PaymentKey(proof, v), r)
    case SplitClaim(_, lines, j, scoped, granted) =>
      AllVerified(lines) && j < |lines| ==> LinesBacked(grants, lines, if scoped || granted then j + 1 else j, r)
    case SplitReturn(_, lines) => AllVerified(lines) ==> LinesBacked(grants, lines, |lines|, r)
    case CompatGlobal(_, _, txSig, v, granted) =>
      CompatReady(txSig, v) && granted ==> Backed(grants, GlobalKey("transfer", v.txSignature.value), r)
    case CompatScoped(_, _, txSig, v, _) =>
      CompatReady(txSig, v) ==> Backed(grants, GlobalKey("transfer", v.txSignature.value), r)
    case CompatCanonical(_, _, txSig, v, _) =>
      CompatReady(txSig, v) ==> Backed(grants, GlobalKey("transfer", v.txSignature.value), r)
    case _ => true
  }

  /** The receipt names only payments that were granted to request `r`. */
  ghost predicate NamesOnlyHeld(grants: seq<RS.Grant>, p: ReceiptPayload, r: nat) {
    forall key :: Names(p, key) ==> Backed(grants, key, r)
  }

  ghost predicate Inv(cfg: Config, s: State) {
    && RS.Tracks(s.seen, s.grants, cfg.replayTtlMs, s.clock) && RS.Spaced(s.grants, cfg.replayTtlMs)
    && ThreadsBacked(s.grants, s.threads)
    && ReceiptsBacked(s.grants, s.receipts, s.threads)
  }

  ghost predicate ThreadsBacked(grants: seq<RS.Grant>, threads: seq<Thread>) {
    forall r :: 0 <= r < |threads| ==> ThreadBacked(grants, threads[r], r)
  }

  /** Every receipt is backed by its own issuer, whose turn to issue is over. */
  ghost predicate ReceiptsBacked(grants: seq<RS.Grant>, receipts: seq<Issued>, threads: seq<Thread>) {
    && (forall x :: 0 <= x < |receipts| ==>
          && receipts[x].issuer < |threads| && Spent(threads[receipts[x].issuer])
          && NamesOnlyHeld(grants, receipts[x].signed.payload, receipts[x].issuer))
    && (forall x, y :: 0 <= x < y < |receipts| ==> receipts[x].issuer != receipts[y].issuer)
  }

  // ---- grants only grow --------------------------------------------------------------------

  lemma BackedGrows(grants: seq<RS.Grant>, g: RS.Grant, key: RS.ReplayKey, r: nat)
    ensures Backed(grants, key, r) ==> Backed(grants + [g], key, r)
    ensures Backed(grants + [g], g.key, g.holder)
  {
    assert (grants + [g])[|grants|] == g;
    if Backed(grants, key, r) {
      var i :| 0 <= i < |grants| && grants[i].key == key && grants[i].holder == r;
      assert (grants + [g])[i] == grants[i];
    }
  }

  lemma ThreadBackedGrows(grants: seq<RS.Grant>, g: RS.Grant, t: Thread, r: nat)
    requires ThreadBacked(grants, t, r)
    ensures ThreadBacked(grants + [g], t, r)
  {
    forall key
      ensures Backed(grants, key, r) ==> Backed(grants + [g], key, r)
    {
      BackedGrows(grants, g, key, r);
    }
  }

  lemma EverythingGrows(grants: seq<RS.Grant>, g: RS.Grant, receipts: seq<Issued>, threads: seq<Thread>)
    requires ThreadsBacked(grants, threads) && ReceiptsBacked(grants, receipts, threads)
    ensures ThreadsBacked(grants + [g], threads) && ReceiptsBacked(grants + [g], receipts, threads)
  {
    forall r | 0 <= r < |threads|
      ensures ThreadBacked(grants + [g], threads[r], r)
    {
      ThreadBackedGrows(grants, g, threads[r], r);
    }
    forall x | 0 <= x < |receipts|
      ensures NamesOnlyHeld(grants + [g], receipts[x].signed.payload, receipts[x].issuer)
    {
      forall key | Names(receipts[x].signed.payload, key)
        ensures Backed(grants + [g], key, receipts[x].issuer)
      {
        BackedGrows(grants, g, key, receipts[x].issuer);
      }
    }
  }

  // ---- what a segment may do, and why it keeps the invariant ---------------------------------

  ghost predicate Allowed(cfg: Config, s: State, r: nat, f: Effect)
    requires r < |s.threads| && Fits(s, f)
  {
    && (Spent(s.threads[r]) ==> f.Stay? || f.Settle?)
    && match f
       case Move(t) => ThreadBacked(s.grants, t, r)
       case Sweep(t) => ThreadBacked(s.grants, t, r)
       case Claim(key, t) => ThreadBacked(RS.GrantsAfter(s.seen, s.grants, key, s.clock, r), t, r)
       case Receipt(c, mode, v, splits, _) => NamesOnlyHeld(s.grants, FinalizePayload(cfg, s, c, mode, v, splits), r)
       case Serve(_, _, txSig, v, _, _) =>
         txSig.Some? ==> v.txSignature.Some? && Backed(s.grants, GlobalKey("transfer", v.txSignature.value), r)
       case _ => true
  }

  lemma VerdictAllowed(cfg: Config, s: State, r: nat, v: Verification, guard: Guard)
    requires r < |s.threads| && Runnable(s, s.threads[r]) && ThreadBacked(s.grants, s.threads[r], r)
    ensures Allowed(cfg, s, r, OnVerdict(cfg, s, s.threads[r], v, guard))
  {
    var f := OnVerdict(cfg, s, s.threads[r], v, guard);
    if f.Claim? {
      BackedGrows(s.grants, RS.Grant(f.key, s.clock, r), f.key, r);
    }
  }

  lemma ResumeAllowed(cfg: Config, s: State, r: nat, guard: Guard)
    requires r < |s.threads| && Runnable(s, s.threads[r]) && ThreadBacked(s.grants, s.threads[r], r)
    ensures Allowed(cfg, s, r, OnResume(s, s.threads[r], guard))
  {
    match s.threads[r]
    case AwaitGlobal(_, _, _, _) => GlobalAllowed(cfg, s, r, guard);
    case SplitClaim(_, _, _, _, _) => SplitClaimAllowed(cfg, s, r, guard);
    case SplitReturn(_, _) => SplitReturnAllowed(cfg, s, r, guard);
    case CompatGlobal(_, _, _, _, _) => CompatAllowed(cfg, s, r, guard);
    case CompatScoped(_, _, _, _, _) => CompatAllowed(cfg, s, r, guard);
    case SplitCheck(_, _, _, _, _) => SplitCheckAllowed(cfg, s, r, guard);
    case AwaitScoped(_, _, _, _) => ScopedAllowed(cfg, s, r, guard);
    case CompatCanonical(_, _, _, _, _) => CompatAllowed(cfg, s, r, guard);
    case _ =>
  }

  lemma SplitCheckAllowed(cfg: Config, s: State, r: nat, guard: Guard)
    requires r < |s.threads| && Runnable(s, s.threads[r]) && s.threads[r].SplitCheck?
    ensures Allowed(cfg, s, r, OnResume(s, s.threads[r], guard))
  {
    var key := LineKey(s.threads[r].lines[0]);
    BackedGrows(s.grants, RS.Grant(key, s.clock, r), key, r);
  }

  lemma ScopedAllowed(cfg: Config, s: State, r: nat, guard: Guard)
    requires r < |s.threads| && Runnable(s, s.threads[r]) && ThreadBacked(s.grants, s.threads[r], r)
    requires s.threads[r].AwaitScoped?
    ensures Allowed(cfg, s, r, OnResume(s, s.threads[r], guard))
  {
  }

  lemma GlobalAllowed(cfg: Config, s: State, r: nat, guard: Guard)
    requires r < |s.threads| && Runnable(s, s.threads[r]) && ThreadBacked(s.grants, s.threads[r], r)
    requires s.threads[r].AwaitGlobal?
    ensures Allowed(cfg, s, r, OnResume(s, s.threads[r], guard))
  {
    var t := s.threads[r];
    var f := OnResume(s, t, guard);
    if f.Claim? {
      BackedGrows(s.grants, RS.Grant(f.key, s.clock, r), PaymentKey(t.proof, t.v), r);
    }
  }

  lemma CompatAllowed(cfg: Config, s: State, r: nat, guard: Guard)
    requires r < |s.threads| && Runnable(s, s.threads[r]) && ThreadBacked(s.grants, s.threads[r], r)
    requires s.threads[r].CompatGlobal? || s.threads[r].CompatScoped? || s.threads[r].CompatCanonical?
    ensures Allowed(cfg, s, r, OnResume(s, s.threads[r], guard))
  {
    var f := OnResume(s, s.threads[r], guard);
    if f.Claim? {
      BackedGrows(s.grants, RS.Grant(f.key, s.clock, r), GlobalKey("transfer", s.threads[r].v.txSignature.value), r);
    }
  }

  lemma SplitClaimAllowed(cfg: Config, s: State, r: nat, guard: Guard)
    requires r < |s.threads| && Runnable(s, s.threads[r]) && ThreadBacked(s.grants, s.threads[r], r)
    requires s.threads[r].SplitClaim?
    ensures Allowed(cfg, s, r, OnResume(s, s.threads[r], guard))
  {
    var t := s.threads[r];
    var f := OnResume(s, t, guard);
    if f.Claim? {
      var g := RS.Grant(f.key, s.clock, r);
      forall i | 0 <= i <= t.j
        ensures Backed(s.grants + [g], LineKey(t.lines[i]), r)
      {
        BackedGrows(s.grants, g, LineKey(t.lines[i]), r);
      }
      BackedGrows(s.grants, g, f.key, r);
    }
  }

  lemma SplitReturnAllowed(cfg: Config, s: State, r: nat, guard: Guard)
    requires r < |s.threads| && Runnable(s, s.threads[r]) && ThreadBacked(s.grants, s.threads[r], r)
    requires s.threads[r].SplitReturn?
    ensures Allowed(cfg, s, r, OnResume(s, s.threads[r], guard))
  {
  }

  lemma MoveKeeps(grants: seq<RS.Grant>, receipts: seq<Issued>, threads: seq<Thread>, r: nat, t: Thread)
    requires ThreadsBacked(grants, threads) && ReceiptsBacked(grants, receipts, threads)
    requires r < |threads| && ThreadBacked(grants, t, r) && (Spent(threads[r]) ==> Spent(t))
    ensures ThreadsBacked(grants, threads[r := t]) && ReceiptsBacked(grants, receipts, threads[r := t])
  {
  }

  lemma StoreKeeps(grants: seq<RS.Grant>, receipts: seq<Issued>, threads: seq<Thread>, r: nat, t: Thread,
                   x: SignedReceipt)
    requires ThreadsBacked(grants, threads) && ReceiptsBacked(grants, receipts, threads)
    requires r < |threads| && !Spent(threads[r]) && Spent(t) && NamesOnlyHeld(grants, x.payload, r)
    ensures ThreadsBacked(grants, threads[r := t]) && ReceiptsBacked(grants, receipts + [Issued(x, r)], threads[r := t])
  {
  }

  lemma PerformKeeps(cfg: Config, s: State, r: nat, f: Effect)
    requires Inv(cfg, s) && r < |s.threads| && Fits(s, f) && Allowed(cfg, s, r, f)
    ensures Inv(cfg, Perform(cfg, s, r, f))
  {
    var s' := Perform(cfg, s, r, f);
    var t := s'.threads[r];
    match f
    case Stay =>
    case Claim(key, t) =>
      RS.ClaimKeeps(s.seen, s.grants, cfg.replayTtlMs, s.clock, key, s.clock, r);
      if Free(s, key) {
        EverythingGrows(s.grants, RS.Grant(key, s.clock, r), s.receipts, s.threads);
      }
      MoveKeeps(s'.grants, s.receipts, s.threads, r, t);
    case Receipt(c, mode, v, splits, guard) =>
      ReceiptKeeps(cfg, s, r, f);
    case Serve(q, url, txSig, v, payerText, guard) =>
      ServeKeeps(cfg, s, r, f);
    case _ =>
      RS.CleanupTracks(s.seen, s.grants, cfg.replayTtlMs, s.clock, s.clock);
      MoveKeeps(s.grants, s.receipts, s.threads, r, t);
  }

  lemma ReceiptKeeps(cfg: Config, s: State, r: nat, f: Effect)
    requires Inv(cfg, s) && r < |s.threads| && Fits(s, f) && Allowed(cfg, s, r, f) && f.Receipt?
    ensures Inv(cfg, Perform(cfg, s, r, f))
  {
    var s' := Perform(cfg, s, r, f);
    if f.guard == Pass {
      StoreKeeps(s.grants, s.receipts, s.threads, r, s'.threads[r],
                 SignReceipt(cfg.crypto, s.prevHash, FinalizePayload(cfg, s, f.c, f.mode, f.v, f.splits)));
    } else {
      MoveKeeps(s.grants, s.receipts, s.threads, r, s'.threads[r]);
    }
  }

  lemma ServeKeeps(cfg: Config, s: State, r: nat, f: Effect)
    requires Inv(cfg, s) && r < |s.threads| && Fits(s, f) && Allowed(cfg, s, r, f) && f.Serve?
    ensures Inv(cfg, Perform(cfg, s, r, f))
  {
    var s' := Perform(cfg, s, r, f);
    if f.guard == Pass {
      var x := s'.receipts[|s.receipts|].signed;
      assert NamesOnlyHeld(s.grants, x.payload, r);
      StoreKeeps(s.grants, s.receipts, s.threads, r, s'.threads[r], x);
    } else {
      MoveKeeps(s.grants, s.receipts, s.threads, r, s'.threads[r]);
    }
  }

  // ---- requests that arrive, and whole runs ---------------------------------------------------

  /** A new request holds nothing yet. */
  predicate Fresh(t: Thread) {
    t.Done? || t.Delivering? || t.AwaitVerify? || t.SplitVerify? || t.CompatVerify?
  }

  ghost predicate Opens(s: State, s': State) {
    && s'.clock == s.clock && s'.seen == s.seen && s'.grants == s.grants && s'.receipts == s.receipts
    && |s'.threads| == |s.threads| + 1 && s'.threads == s.threads + [s'.threads[|s.threads|]]
    && Fresh(s'.threads[|s.threads|])
  }

  lemma OpensKeeps(cfg: Config, s: State, s': State)
    requires Inv(cfg, s) && Opens(s, s')
    ensures Inv(cfg, s')
  {
  }

  lemma FinalizeOpens(cfg: Config, s: State, c: nat, proof: Option<PaymentProof>, items: seq<(string, PaymentProof)>)
    ensures Opens(s, StartFinalize(cfg, s, c, proof, items))
  {
  }

  lemma GetOpens(cfg: Config, s: State, resource: string, commit: Option<nat>, compat: Option<CompatRequest>, p: Price)
    ensures Opens(s, GetResource(cfg, s, resource, commit, compat, p))
  {
    if !(commit.Some? && Deliverable(s, commit.value, resource)) && compat.Some? {
      CompatOpens(s, resource, compat.value);
    }
  }

  lemma CompatOpens(s: State, resource: string, req: CompatRequest)
    ensures Opens(s, StartCompat(s, resource, req))
  {
  }

  lemma QuoteOrCommitOpens(cfg: Config, s: State, e: Event)
    requires e.AskQuote? || e.PostCommit?
    ensures Opens(s, Step(cfg, s, e))
  {
  }

  lemma TickKeeps(cfg: Config, s: State, ms: nat)
    requires Inv(cfg, s)
    ensures Inv(cfg, s.(clock := s.clock + ms))
  {
  }

  lemma FinishKeeps(cfg: Config, s: State, r: nat, status: nat)
    requires Inv(cfg, s) && r < |s.threads| && s.threads[r].Delivering? && Known(s, s.threads[r].c)
    ensures Inv(cfg, OnFinish(s, r, s.threads[r].c, s.threads[r].receiptId, status))
  {
    var s' := OnFinish(s, r, s.threads[r].c, s.threads[r].receiptId, status);
    MoveKeeps(s.grants, s.receipts, s.threads, r, s'.threads[r]);
  }

  lemma VerdictKeeps(cfg: Config, s: State, r: nat, v: Verification, guard: Guard)
    requires Inv(cfg, s)
    ensures Inv(cfg, Step(cfg, s, Verdict(r, v, guard)))
  {
    if r < |s.threads| && Runnable(s, s.threads[r]) {
      VerdictAllowed(cfg, s, r, v, guard);
      PerformKeeps(cfg, s, r, OnVerdict(cfg, s, s.threads[r], v, guard));
    }
  }

  lemma ResumeKeeps(cfg: Config, s: State, r: nat, guard: Guard)
    requires Inv(cfg, s)
    ensures Inv(cfg, Step(cfg, s, Resume(r, guard)))
  {
    if r < |s.threads| && Runnable(s, s.threads[r]) {
      ResumeAllowed(cfg, s, r, guard);
      PerformKeeps(cfg, s, r, OnResume(s, s.threads[r], guard));
    }
  }

  lemma StepKeeps(cfg: Config, s: State, e: Event)
    requires Inv(cfg, s)
    ensures Inv(cfg, Step(cfg, s, e))
  {
    match e
    case Tick(ms) => TickKeeps(cfg, s, ms);
    case Verdict(r, v, guard) => VerdictKeeps(cfg, s, r, v, guard);
    case Resume(r, guard) => ResumeKeeps(cfg, s, r, guard);
    case Finish(r, status) =>
      if r < |s.threads| && s.threads[r].Delivering? && Known(s, s.threads[r].c) {
        FinishKeeps(cfg, s, r, status);
      }
    case Abort(r) =>
      if r < |s.threads| && !s.threads[r].Done? && !s.threads[r].Delivering? {
        MoveKeeps(s.grants, s.receipts, s.threads, r, Done(Dropped));
      }
    case FlushLedger(now) =>
    case PostFinalize(c, proof, items) =>
      FinalizeOpens(cfg, s, c, proof, items);
      OpensKeeps(cfg, s, Step(cfg, s, e));
    case Get(resource, commit, compat, p) =>
      GetOpens(cfg, s, resource, commit, compat, p);
      OpensKeeps(cfg, s, Step(cfg, s, e));
    case AskQuote(_, _) =>
      QuoteOrCommitOpens(cfg, s, e);
      OpensKeeps(cfg, s, Step(cfg, s, e));
    case PostCommit(_, _) =>
      QuoteOrCommitOpens(cfg, s, e);
      OpensKeeps(cfg, s, Step(cfg, s, e));
  }

  lemma {:induction false} RunKeeps(cfg: Config, start: nat, es: seq<Event>)
    ensures Inv(cfg, Run(cfg, start, es))
  {
    if es != [] {
      RunKeeps(cfg, start, es[..|es| - 1]);
      StepKeeps(cfg, Run(cfg, start, es[..|es| - 1]), es[|es| - 1]);
    }
  }

  // ---- every receipt names a payment, or is a netting receipt ------------------------------------

  predicate NamesSome(p: ReceiptPayload) {
    if p.splitProofs.Some? then p.splitProofs.value != []
    else (p.settlement == Transfer && p.txSignature.Some?) || (p.settlement == Stream && p.streamId.Some?)
  }

  ghost predicate AllNameSome(s: State) {
    forall x :: 0 <= x < |s.receipts| ==> NamesSome(s.receipts[x].signed.payload)
  }

  /** With netting off, a receipt is only issued for a payment. */
  ghost predicate PaidFor(f: Effect) {
    match f
    case Receipt(_, mode, v, splits, _) =>
      if splits.Some? then splits.value != []
      else (mode == Transfer && v.txSignature.Some?) || (mode == Stream && v.streamId.Some?)
    case Serve(_, _, txSig, v, _, _) => txSig.Some? && v.txSignature.Some?
    case _ => true
  }

  lemma EffectsPaidFor(cfg: Config, s: State, t: Thread, v: Verification, guard: Guard)
    requires !cfg.nettingEnabled && Runnable(s, t)
    ensures PaidFor(OnVerdict(cfg, s, t, v, guard)) && PaidFor(OnResume(s, t, guard))
  {
  }

  lemma PerformPaidFor(cfg: Config, s: State, r: nat, f: Effect)
    requires AllNameSome(s) && r < |s.threads| && Fits(s, f) && PaidFor(f)
    ensures AllNameSome(Perform(cfg, s, r, f))
  {
  }

  lemma {:induction false} RunPaidFor(cfg: Config, start: nat, es: seq<Event>)
    requires !cfg.nettingEnabled
    ensures AllNameSome(Run(cfg, start, es))
  {
    if es != [] {
      RunPaidFor(cfg, start, es[..|es| - 1]);
      StepPaidFor(cfg, Run(cfg, start, es[..|es| - 1]), es[|es| - 1]);
    }
  }

  lemma StepPaidFor(cfg: Config, s: State, e: Event)
    requires AllNameSome(s) && !cfg.nettingEnabled
    ensures AllNameSome(Step(cfg, s, e))
  {
    match e
    case Verdict(r, v, guard) =>
      if r < |s.threads| && Runnable(s, s.threads[r]) {
        EffectsPaidFor(cfg, s, s.threads[r], v, guard);
        PerformPaidFor(cfg, s, r, OnVerdict(cfg, s, s.threads[r], v, guard));
      }
    case Resume(r, guard) =>
      if r < |s.threads| && Runnable(s, s.threads[r]) {
        EffectsPaidFor(cfg, s, s.threads[r], Verification(false, false, None, None), guard);
        PerformPaidFor(cfg, s, r, OnResume(s, s.threads[r], guard));
      }
    case _ => OthersGrantNothing(cfg, s, e);
  }

  /** A payment that the receipt names. */
  function SomePayment(p: ReceiptPayload): RS.ReplayKey
    requires NamesSome(p)
  {
    if p.splitProofs.Some? then GlobalKey("transfer", p.splitProofs.value[0].txSignature)
    else if p.settlement == Transfer then GlobalKey("transfer", p.txSignature.value)
    else GlobalKey("stream", p.streamId.value)
  }

  // ---- the theorems --------------------------------------------------------------------------------

  /**
   * Two receipts never share an on-chain payment, unless it was claimed twice with the
   * whole lifetime of a replay key in between.
   */
  lemma SharedPaymentsAreFarApart(cfg: Config, start: nat, es: seq<Event>, x: nat, y: nat, key: RS.ReplayKey)
    returns (i: nat, j: nat)
    requires var s := Run(cfg, start, es);
             && x < |s.receipts| && y < |s.receipts| && x != y
             && Names(s.receipts[x].signed.payload, key) && Names(s.receipts[y].signed.payload, key)
    ensures var s := Run(cfg, start, es);
            && i < |s.grants| && j < |s.grants|
            && s.grants[i].key == key && s.grants[i].holder == s.receipts[x].issuer
            && s.grants[j].key == key && s.grants[j].holder == s.receipts[y].issuer
            && (s.grants[i].at + cfg.replayTtlMs <= s.grants[j].at ||
                s.grants[j].at + cfg.replayTtlMs <= s.grants[i].at)
  {
    RunKeeps(cfg, start, es);
    i, j := FarApart(cfg, Run(cfg, start, es), x, y, key);
  }

  lemma FarApart(cfg: Config, s: State, x: nat, y: nat, key: RS.ReplayKey) returns (i: nat, j: nat)
    requires Inv(cfg, s) && x < |s.receipts| && y < |s.receipts| && x != y
    requires Names(s.receipts[x].signed.payload, key) && Names(s.receipts[y].signed.payload, key)
    ensures i < |s.grants| && j < |s.grants|
    ensures s.grants[i].key == key && s.grants[i].holder == s.receipts[x].issuer
    ensures s.grants[j].key == key && s.grants[j].holder == s.receipts[y].issuer
    ensures s.grants[i].holder != s.grants[j].holder
    ensures s.grants[i].at + cfg.replayTtlMs <= s.grants[j].at || s.grants[j].at + cfg.replayTtlMs <= s.grants[i].at
  {
    assert NamesOnlyHeld(s.grants, s.receipts[x].signed.payload, s.receipts[x].issuer);
    assert NamesOnlyHeld(s.grants, s.receipts[y].signed.payload, s.receipts[y].issuer);
    i :| 0 <= i < |s.grants| && s.grants[i].key == key && s.grants[i].holder == s.receipts[x].issuer;
    j :| 0 <= j < |s.grants| && s.grants[j].key == key && s.grants[j].holder == s.receipts[y].issuer;
    assert s.receipts[x].issuer != s.receipts[y].issuer;
  }

  /** Once the lifetime of the keys has passed, no key is claimed. */
  lemma AllExpire(cfg: Config, s: State, key: RS.ReplayKey, t: nat)
    requires Inv(cfg, s) && t >= s.clock + cfg.replayTtlMs
    ensures !RS.Claimed(s.seen, key, t)
  {
  }

  /** Grants lie between the start of the server and now. */
  lemma {:induction false} GrantsSinceStart(cfg: Config, start: nat, es: seq<Event>)
    ensures var s := Run(cfg, start, es);
            s.clock >= start && forall i :: 0 <= i < |s.grants| ==> start <= s.grants[i].at <= s.clock
  {
    if es != [] {
      GrantsSinceStart(cfg, start, es[..|es| - 1]);
      GrantsLate(cfg, Run(cfg, start, es[..|es| - 1]), es[|es| - 1], start);
    }
  }

  lemma GrantsLate(cfg: Config, s: State, e: Event, start: nat)
    requires s.clock >= start && forall i :: 0 <= i < |s.grants| ==> start <= s.grants[i].at <= s.clock
    ensures var s' := Step(cfg, s, e);
            s'.clock >= start && forall i :: 0 <= i < |s'.grants| ==> start <= s'.grants[i].at <= s'.clock
  {
    match e
    case Verdict(r, v, guard) =>
      if r < |s.threads| && Runnable(s, s.threads[r]) {
        PerformGrants(cfg, s, r, OnVerdict(cfg, s, s.threads[r], v, guard));
      }
    case Resume(r, guard) =>
      if r < |s.threads| && Runnable(s, s.threads[r]) {
        PerformGrants(cfg, s, r, OnResume(s, s.threads[r], guard));
      }
    case _ => OthersGrantNothing(cfg, s, e);
  }

  lemma OthersGrantNothing(cfg: Config, s: State, e: Event)
    requires !e.Verdict? && !e.Resume?
    ensures var s' := Step(cfg, s, e); s'.grants == s.grants && s'.clock >= s.clock && s'.receipts == s.receipts
  {
    if e.PostFinalize? {
      FinalizeOpens(cfg, s, e.commitId, e.proof, e.items);
    } else if e.Get? {
      GetOpens(cfg, s, e.resource, e.commitHeader, e.compat, e.price);
    } else if e.AskQuote? || e.PostCommit? {
      QuoteOrCommitOpens(cfg, s, e);
    }
  }

  lemma PerformGrants(cfg: Config, s: State, r: nat, f: Effect)
    requires r < |s.threads| && Fits(s, f)
    ensures var s' := Perform(cfg, s, r, f);
            s'.clock == s.clock &&
              (s'.grants == s.grants || exists key :: s'.grants == s.grants + [RS.Grant(key, s.clock, r)])
  {
  }

  /** Different successful deliveries hand out different receipts. */
  lemma OneReceiptOneDelivery(cfg: Config, start: nat, es: seq<Event>, r: nat, q: nat)
    requires var s := Run(cfg, start, es);
             && r < |s.threads| && q < |s.threads| && s.threads[r].Done? && s.threads[q].Done?
             && s.threads[r].reply.Served? && s.threads[q].reply.Served?
             && s.threads[r].reply.receiptId == s.threads[q].reply.receiptId
    ensures r == q
  {
    D.RunLinks(cfg, start, es);
    D.RunTokens(cfg, start, es);
    SameReceiptSameThread(Run(cfg, start, es), r, q);
  }

  lemma SameReceiptSameThread(s: State, r: nat, q: nat)
    requires D.AllLinked(s) && D.Tokens(s) && r < |s.threads| && q < |s.threads|
    requires s.threads[r].Done? && s.threads[q].Done? && s.threads[r].reply.Served? && s.threads[q].reply.Served?
    requires s.threads[r].reply.receiptId == s.threads[q].reply.receiptId
    ensures r == q
  {
  }

  /**
   * In every run, two successful deliveries whose receipts name one payment go back to grants
   * of that payment to two different requests, a whole replay-key lifetime apart.
   */
  lemma DeliveriesSharePaymentsFarApart(cfg: Config, start: nat, es: seq<Event>, r: nat, q: nat, key: RS.ReplayKey)
    returns (i: nat, j: nat)
    requires var s := Run(cfg, start, es);
             && r < |s.threads| && q < |s.threads| && r != q
             && s.threads[r].Done? && s.threads[r].reply.Served? && s.threads[q].Done? && s.threads[q].reply.Served?
             && s.threads[r].reply.receiptId < |s.receipts| && s.threads[q].reply.receiptId < |s.receipts|
             && Names(s.receipts[s.threads[r].reply.receiptId].signed.payload, key)
             && Names(s.receipts[s.threads[q].reply.receiptId].signed.payload, key)
    ensures var s := Run(cfg, start, es);
            && i < |s.grants| && j < |s.grants| && s.grants[i].key == key && s.grants[j].key == key
            && s.grants[i].holder != s.grants[j].holder
            && (s.grants[i].at + cfg.replayTtlMs <= s.grants[j].at ||
                s.grants[j].at + cfg.replayTtlMs <= s.grants[i].at)
  {
    var s := Run(cfg, start, es);
    var x, y := s.threads[r].reply.receiptId, s.threads[q].reply.receiptId;
    if x == y {
      OneReceiptOneDelivery(cfg, start, es, r, q);
    }
    RunKeeps(cfg, start, es);
    i, j := FarApart(cfg, s, x, y, key);
  }

  lemma NamedPaymentBacked(cfg: Config, s: State, x: nat)
    requires Inv(cfg, s) && x < |s.receipts| && NamesSome(s.receipts[x].signed.payload)
    ensures Backed(s.grants, SomePayment(s.receipts[x].signed.payload), s.receipts[x].issuer)
  {
  }
}
