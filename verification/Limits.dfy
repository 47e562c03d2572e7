/**
 * Where the guarantees end: a payment can be used again once its replay keys have expired, and
 * overlapping finalize calls can undo a finalized commit, strand a delivery and pass the daily cap.
 */
module Limits {
  import opened Common
  import opened Types
  import opened Receipts
  import opened Protocol
  import C = Client
  import opened Handshake
  import opened Runs
  import opened Settling
  import opened Caps
  import RS = ReplayStore
  import P = Payments
  import D = Delivery

  // ---- a session is a run ------------------------------------------------------------------------

  lemma CommittingReaches(cfg: Config, start: nat, s: State, path: string, w: Session, quoteId: nat, payer: string)
    requires Reachable(cfg, start, s)
    ensures Reachable(cfg, start, Committing(cfg, s, path, w, quoteId, payer))
  {
    var a := Asked(cfg, s, path, w);
    StepReaches(cfg, start, s, Get(path, None, None, w.price));
    StepReaches(cfg, start, a, Tick(w.pause));
    StepReaches(cfg, start, Step(cfg, a, Tick(w.pause)), PostCommit(quoteId, payer));
  }

  lemma FinalizingReaches(cfg: Config, start: nat, s: State, c: nat, proof: PaymentProof, v: Verification)
    requires Reachable(cfg, start, s)
    ensures Reachable(cfg, start, Finalizing(cfg, s, c, proof, v))
  {
    StepReaches(cfg, start, s, PostFinalize(c, Some(proof), []));
    SettlesReaches(cfg, start, Step(cfg, s, PostFinalize(c, Some(proof), [])), |s.threads|, v);
  }

  lemma SettlesReaches(cfg: Config, start: nat, s: State, r: nat, v: Verification)
    requires Reachable(cfg, start, s)
    ensures Reachable(cfg, start, Settles(cfg, s, r, v))
  {
    StepReaches(cfg, start, s, Verdict(r, v, Pass));
    var b := Step(cfg, s, Verdict(r, v, Pass));
    StepReaches(cfg, start, b, Resume(r, Pass));
    var d := Step(cfg, b, Resume(r, Pass));
    StepReaches(cfg, start, d, Resume(r, Pass));
    StepReaches(cfg, start, Step(cfg, d, Resume(r, Pass)), Resume(r, Pass));
  }

  /** A session is a run of the server. */
  lemma SessionReaches(cfg: Config, start: nat, s: State, path: string, w: Session, m: C.Sent)
    requires Reachable(cfg, start, s)
    ensures Reachable(cfg, start, End(cfg, s, path, w, m))
  {
    var b := Committing(cfg, s, path, w, m.quoteId, m.payer);
    CommittingReaches(cfg, start, s, path, w, m.quoteId, m.payer);
    StepReaches(cfg, start, b, Tick(w.wait));
    var u := Step(cfg, b, Tick(w.wait));
    FinalizingReaches(cfg, start, u, m.commitId, m.proof, w.v);
    var f := Finalizing(cfg, u, m.commitId, m.proof, w.v);
    StepReaches(cfg, start, f, Get(path, Some(m.commitId), None, w.price));
    StepReaches(cfg, start, Step(cfg, f, Get(path, Some(m.commitId), None, w.price)), Finish(|f.threads|, 200));
  }

  // ---- a payment after its keys have expired ---------------------------------------------------------

  lemma ReachableInv(cfg: Config, start: nat, s: State)
    requires Reachable(cfg, start, s)
    ensures P.Inv(cfg, s)
  {
    var es :| s == Run(cfg, start, es);
    P.RunKeeps(cfg, start, es);
  }

  lemma SessionNames(cfg: Config, s: State, path: string, w: Session, payer: string, proof: PaymentProof,
                     r: SignedReceipt)
    requires SingleReady(proof, w.v) && ReceiptOf(cfg, s, path, w, payer, proof, r)
    ensures P.Names(r.payload, PaymentKey(proof, w.v))
  {
  }

  /**
   * From every reachable state: wait for the lifetime of a replay key, present a payment that
   * already backs a receipt, and if the verifier accepts it again it backs a second one, which
   * is delivered too. `t` is the time of the finalize call.
   */
  lemma PaymentsCanBeReused(cfg: Config, start: nat, s: State, x: nat, path: string, w: Session, payer: string,
                            proof: PaymentProof, t: nat)
    requires Reachable(cfg, start, s)
    requires SingleReady(proof, w.v) && w.v.ok
    requires x < |s.receipts| && P.Names(s.receipts[x].signed.payload, PaymentKey(proof, w.v))
    requires NormalizeCommitment(payer) == Some(payer) && w.price.split == [] && w.pause + w.wait < cfg.quoteTtlMs
    requires t == s.clock + cfg.replayTtlMs + w.pause + w.wait && CapsAllow(cfg, s, w.price.amount + w.price.fee, t)
    ensures var s1 := Step(cfg, s, Tick(cfg.replayTtlMs));
            var e := End(cfg, s1, path, w, Messages(s1, payer, proof));
            && Reachable(cfg, start, e) && e.clock == t && |e.receipts| == |s.receipts| + 1 &&
               e.receipts[..|s.receipts|] == s.receipts
            && P.Names(e.receipts[|s.receipts|].signed.payload, PaymentKey(proof, w.v))
            && LastReply(e) == Served(Stored(|s.commits|), |s.receipts|)
            && |s.threads| < |e.threads| && e.threads[..|s.threads|] == s.threads
  {
    var s1 := Step(cfg, s, Tick(cfg.replayTtlMs));
    ReachableInv(cfg, start, s);
    StepReaches(cfg, start, s, Tick(cfg.replayTtlMs));
    SessionReaches(cfg, start, s1, path, w, Messages(s1, payer, proof));
    ReusedGoesThrough(cfg, s, s1, path, w, payer, proof, t);
    SecondReceipt(cfg, s1, path, w, payer, proof);
    SessionCounts(cfg, s1, path, w, payer, proof, t);
  }

  lemma SecondReceipt(cfg: Config, s: State, path: string, w: Session, payer: string, proof: PaymentProof)
    requires GoesThrough(cfg, s, path, w, payer, proof) && SingleReady(proof, w.v)
    ensures var e := End(cfg, s, path, w, Messages(s, payer, proof));
            && |e.receipts| == |s.receipts| + 1 && e.receipts[..|s.receipts|] == s.receipts
            && P.Names(e.receipts[|s.receipts|].signed.payload, PaymentKey(proof, w.v))
            && LastReply(e) == Served(Stored(|s.commits|), |s.receipts|)
            && |s.threads| < |e.threads| && e.threads[..|s.threads|] == s.threads
  {
    var r := SessionAnswers(cfg, s, path, w, payer, proof);
    SessionNames(cfg, s, path, w, payer, proof, r);
  }

  lemma ReusedGoesThrough(cfg: Config, s: State, s1: State, path: string, w: Session, payer: string,
                          proof: PaymentProof, t: nat)
    requires P.Inv(cfg, s) && s1.clock == s.clock + cfg.replayTtlMs && t == s1.clock + w.pause + w.wait
    requires s1.seen == s.seen && s1.drill == s.drill && s1.beta == s.beta && SingleReady(proof, w.v) && w.v.ok
    requires NormalizeCommitment(payer) == Some(payer) && w.price.split == [] && w.pause + w.wait < cfg.quoteTtlMs
    requires CapsAllow(cfg, s, w.price.amount + w.price.fee, t)
    ensures GoesThrough(cfg, s1, path, w, payer, proof)
  {
    ProofGoodAgain(cfg, s, s1, NewQuote(cfg, s1, path, w.price), proof, w.v, t);
    OnchainOffered(cfg, s1, path, w.price, proof);
    CapsAllowLater(cfg, s, s1, w.price.amount + w.price.fee, t);
    GoesThroughWhen(cfg, s1, path, w, payer, proof, t);
  }

  lemma CapsAllowLater(cfg: Config, s: State, s1: State, total: nat, t: nat)
    requires s1.drill == s.drill && s1.beta == s.beta && CapsAllow(cfg, s, total, t)
    ensures CapsAllow(cfg, s1, total, t)
  {
  }

  lemma GoesThroughWhen(cfg: Config, s: State, path: string, w: Session, payer: string, proof: PaymentProof, t: nat)
    requires NormalizeCommitment(payer) == Some(payer) && w.price.split == [] && w.pause + w.wait < cfg.quoteTtlMs
    requires t == s.clock + w.pause + w.wait && CapsAllow(cfg, s, w.price.amount + w.price.fee, t)
    requires var q := NewQuote(cfg, s, path, w.price); proof.Mode() in q.settlement && ProofGood(s, q, proof, w.v, t)
    ensures GoesThrough(cfg, s, path, w, payer, proof)
  {
  }

  /** Transfers and streams are always offered. */
  lemma OnchainOffered(cfg: Config, s: State, path: string, p: Price, proof: PaymentProof)
    requires !proof.NettingProof?
    ensures proof.Mode() in NewQuote(cfg, s, path, p).settlement
  {
    var modes := NewQuote(cfg, s, path, p).settlement;
    assert modes[0] == Transfer && modes[1] == Stream;
  }

  lemma ProofGoodAgain(cfg: Config, s: State, s1: State, q: Quote, proof: PaymentProof, v: Verification, t: nat)
    requires P.Inv(cfg, s) && s1.seen == s.seen && t >= s.clock + cfg.replayTtlMs && SingleReady(proof, v) && v.ok
    ensures ProofGood(s1, q, proof, v, t)
  {
    P.AllExpire(cfg, s, PaymentKey(proof, v), t);
    P.AllExpire(cfg, s, PaymentScopedKey(q, proof, v), t);
  }

  // ---- payments nobody has used ------------------------------------------------------------------------

  /** A payment as the buyer presents it and as the verifier answers. */
  datatype Tender = Tender(proof: PaymentProof, v: Verification)

  /** The two payments claim different keys. */
  ghost predicate Different(q: Quote, x: Tender, y: Tender) {
    forall key :: !(ItsKey(q, x.proof, x.v, key) && ItsKey(q, y.proof, y.v, key))
  }

  function Signed(sig: string): Tender {
    Tender(TransferProof(sig, None), Verification(true, true, Some(sig), None))
  }

  /** Longer than anything that a claimed key names. */
  ghost predicate Unheard(seen: RS.Seen, sig: string) {
    sig != "" && forall key :: key in seen ==> |key.txSig| < |sig|
  }

  lemma {:induction false} UnheardExists(seen: RS.Seen) returns (sig: string)
    ensures Unheard(seen, sig)
    decreases |seen|
  {
    if seen == map[] {
      sig := "s";
    } else {
      var key :| key in seen;
      var rest := seen - {key};
      assert |rest.Keys| < |seen.Keys| by {
        assert rest.Keys == seen.Keys - {key};
      }
      sig := UnheardExists(rest);
      if |sig| <= |key.txSig| {
        sig := key.txSig + "s";
      }
      forall k | k in seen
        ensures |k.txSig| < |sig|
      {
        assert k == key || k in rest;
      }
    }
  }

  lemma UnheardIsGood(s: State, q: Quote, sig: string, t: nat)
    requires Unheard(s.seen, sig)
    ensures SingleReady(Signed(sig).proof, Signed(sig).v) && ProofGood(s, q, Signed(sig).proof, Signed(sig).v, t)
  {
    var x := Signed(sig);
    assert |PaymentKey(x.proof, x.v).txSig| > |sig| && PaymentScopedKey(q, x.proof, x.v).txSig == sig;
  }

  /** From any state on, whatever is quoted, two different payments are good. */
  lemma TwoGoodPayments(s: State, q: Quote, t: nat) returns (x: Tender, y: Tender)
    ensures x.proof.TransferProof? && y.proof.TransferProof? && Different(q, x, y)
    ensures ProofGood(s, q, x.proof, x.v, t) && ProofGood(s, q, y.proof, y.v, t)
  {
    var sig := UnheardExists(s.seen);
    x, y := Signed(sig), Signed(sig + "s");
    UnheardIsGood(s, q, sig, t);
    UnheardIsGood(s, q, sig + "s", t);
    assert |PaymentKey(x.proof, x.v).txSig| < |PaymentKey(y.proof, y.v).txSig|;
  }

  // ---- overlapping finalize calls ----------------------------------------------------------------------

  /** Two finalize calls on commit `c` have been admitted. */
  function Both(cfg: Config, s: State, c: nat, x: Tender, y: Tender): State {
    Step(cfg, Step(cfg, s, PostFinalize(c, Some(x.proof), [])), PostFinalize(c, Some(y.proof), []))
  }

  /** The first of the two calls completes. */
  function FirstDone(cfg: Config, s: State, c: nat, x: Tender, y: Tender): State {
    Settles(cfg, Both(cfg, s, c, x, y), |s.threads|, x.v)
  }

  /** And then the second. */
  function BothDone(cfg: Config, s: State, c: nat, x: Tender, y: Tender): State {
    Settles(cfg, FirstDone(cfg, s, c, x, y), |s.threads| + 1, y.v)
  }

  /** Both calls can be admitted, and the first pays well. */
  ghost predicate Overlappable(cfg: Config, s: State, c: nat, x: Tender, y: Tender) {
    Ready(cfg, s, c, x.proof) && Ready(cfg, s, c, y.proof) && ProofGood(s, QuoteOf(s, c), x.proof, x.v, s.clock)
  }

  /** `b` is `s` with both calls waiting for the verifier. */
  ghost predicate BothWait(cfg: Config, s: State, b: State, c: nat, x: Tender, y: Tender) {
    b == s.(drill := UsageAfterCheck(cfg.drill, s.drill, s.clock), beta := UsageAfterCheck(cfg.beta, s.beta, s.clock),
            threads := s.threads + [AwaitVerify(c, x.proof), AwaitVerify(c, y.proof)])
  }

  lemma BothAdmitted(cfg: Config, s: State, c: nat, x: Tender, y: Tender)
    requires Overlappable(cfg, s, c, x, y)
    ensures BothWait(cfg, s, Both(cfg, s, c, x, y), c, x, y)
  {
    Admits(cfg, s, c, x.proof);
    var a := Step(cfg, s, PostFinalize(c, Some(x.proof), []));
    assert Ready(cfg, a, c, y.proof);
    Admits(cfg, a, c, y.proof);
    assert a.threads + [AwaitVerify(c, y.proof)] == s.threads + [AwaitVerify(c, x.proof), AwaitVerify(c, y.proof)];
  }

  lemma FirstSettles(cfg: Config, s: State, c: nat, x: Tender, y: Tender)
    requires Overlappable(cfg, s, c, x, y)
    ensures var b := Both(cfg, s, c, x, y);
            && BothWait(cfg, s, b, c, x, y) && Known(b, c) && |s.threads| < |b.threads|
            && Settled(cfg, b, FirstDone(cfg, s, c, x, y), |s.threads|, c, x.proof, x.v)
  {
    BothAdmitted(cfg, s, c, x, y);
    AwaitSettles(cfg, Both(cfg, s, c, x, y), |s.threads|, c, x.proof, x.v);
  }

  /** What the first call claims does not stand in the way of a different payment. */
  lemma SecondAwaits(cfg: Config, b: State, f: State, r: nat, c: nat, x: Tender, y: Tender)
    requires Known(b, c) && r + 1 < |b.threads| && b.threads[r + 1] == AwaitVerify(c, y.proof)
    requires Settled(cfg, b, f, r, c, x.proof, x.v) && (y.proof.NettingProof? ==> cfg.nettingEnabled)
    requires ProofGood(b, QuoteOf(b, c), y.proof, y.v, b.clock) && Different(QuoteOf(b, c), x, y)
    ensures Awaits(cfg, f, r + 1, c, y.proof, y.v) && QuoteOf(f, c) == QuoteOf(b, c)
  {
    var q := QuoteOf(b, c);
    if !y.proof.NettingProof? {
      var k, l := PaymentKey(y.proof, y.v), PaymentScopedKey(q, y.proof, y.v);
      assert ItsKey(q, y.proof, y.v, k) && ItsKey(q, y.proof, y.v, l);
      assert Free(b, k) && Free(b, l);
    }
  }

  // ---- a refused proof undoes a finalized commit -----------------------------------------------------------

  lemma UndoneAt(cfg: Config, s: State, c: nat, x: Tender, y: Tender, resource: string)
    requires Overlappable(cfg, s, c, x, y) && !y.proof.NettingProof? && !y.v.ok
    ensures var f := FirstDone(cfg, s, c, x, y);
            var e := Step(cfg, f, Verdict(|s.threads| + 1, y.v, Pass));
            && c < |f.commits| && f.commits[c].status == Finalized && f.commits[c].receiptId == Some(|s.receipts|)
            && c < |e.commits| && e.commits[c].status == Status.Failed && e.commits[c].receiptId == Some(|s.receipts|)
            && !Deliverable(e, c, resource)
  {
    FirstSettles(cfg, s, c, x, y);
    RejectedLater(cfg, s, Both(cfg, s, c, x, y), FirstDone(cfg, s, c, x, y), c, x, y, resource);
  }

  lemma RejectedLater(cfg: Config, s: State, b: State, f: State, c: nat, x: Tender, y: Tender, resource: string)
    requires BothWait(cfg, s, b, c, x, y) && Known(b, c) && Settled(cfg, b, f, |s.threads|, c, x.proof, x.v)
    requires !y.proof.NettingProof? && !y.v.ok
    ensures var e := Step(cfg, f, Verdict(|s.threads| + 1, y.v, Pass));
            && c < |f.commits| && f.commits[c].status == Finalized && f.commits[c].receiptId == Some(|s.receipts|)
            && c < |e.commits| && e.commits[c].status == Status.Failed && e.commits[c].receiptId == Some(|s.receipts|)
            && !Deliverable(e, c, resource)
  {
    Answers(cfg, f, |s.threads| + 1, y.v);
  }

  // ---- two good payments pass the daily cap ------------------------------------------------------------------

  /** `total` more, twice, is too much for what `u` has recorded by time `t`. */
  predicate TwiceTooMuch(p: CapPolicy, u: Usage, total: nat, t: nat) {
    p.enabled && Rolled(u, t).finalized + 2 * total > p.daily
  }

  lemma RecordedTwice(p: CapPolicy, u: Usage, total: nat, t: nat)
    requires p.enabled
    ensures UsageAfterRecord(p, UsageAfterRecord(p, UsageAfterCheck(p, u, t), total, t), total, t).finalized ==
            Rolled(u, t).finalized + 2 * total
  {
  }

  /** Both calls pay well, with different payments. */
  ghost predicate BothPay(cfg: Config, s: State, c: nat, x: Tender, y: Tender) {
    && Overlappable(cfg, s, c, x, y) && ProofGood(s, QuoteOf(s, c), y.proof, y.v, s.clock)
    && Different(QuoteOf(s, c), x, y)
  }

  lemma CapPassedAt(cfg: Config, s: State, c: nat, x: Tender, y: Tender, w: Which)
    requires BothPay(cfg, s, c, x, y) && TwiceTooMuch(PolicyOf(cfg, w), UsageOf(s, w), QuoteOf(s, c).total, s.clock)
    ensures UsageOf(BothDone(cfg, s, c, x, y), w).finalized > PolicyOf(cfg, w).daily
  {
    FirstSettles(cfg, s, c, x, y);
    var b, f := Both(cfg, s, c, x, y), FirstDone(cfg, s, c, x, y);
    SecondAwaits(cfg, b, f, |s.threads|, c, x, y);
    AwaitSettles(cfg, f, |s.threads| + 1, c, y.proof, y.v);
    RecordedTwice(PolicyOf(cfg, w), UsageOf(s, w), QuoteOf(s, c).total, s.clock);
  }

  // ---- a replaced receipt strands its delivery ---------------------------------------------------------------

  /** A delivery of the first receipt is under way when the second call replaces it. */
  function Replaced(cfg: Config, s: State, c: nat, x: Tender, y: Tender, p: Price): State
    requires Known(s, c)
  {
    Settles(cfg, Step(cfg, FirstDone(cfg, s, c, x, y), Get(QuoteOf(s, c).resource, Some(c), None, p)),
            |s.threads| + 1, y.v)
  }

  /** Two receipts for `c`, and a delivery of the first one under way. */
  ghost predicate Overtaken(s: State, e: State, c: nat) {
    && Known(e, c) && e.commits[c].receiptId == Some(|s.receipts| + 1) && e.commits[c].consumedAt.Some?
    && e.threads == s.threads +
       [Done(FinalizeOk(c, |s.receipts|)), Done(FinalizeOk(c, |s.receipts| + 1)), Delivering(c, |s.receipts|)]
  }

  lemma DeliveryReplaced(cfg: Config, s: State, c: nat, x: Tender, y: Tender, p: Price)
    requires BothPay(cfg, s, c, x, y)
    ensures Overtaken(s, Replaced(cfg, s, c, x, y, p), c)
  {
    FirstSettles(cfg, s, c, x, y);
    var b, f := Both(cfg, s, c, x, y), FirstDone(cfg, s, c, x, y);
    SecondAwaits(cfg, b, f, |s.threads|, c, x, y);
    var d := Step(cfg, f, Get(QuoteOf(s, c).resource, Some(c), None, p));
    DeliveryStarts(cfg, s, b, f, c, x, y, p);
    AwaitSettles(cfg, d, |s.threads| + 1, c, y.proof, y.v);
    SecondReplaces(cfg, s, d, Replaced(cfg, s, c, x, y, p), c, y);
  }

  /** A delivery of the first receipt is under way, and the second call waits for the verifier. */
  ghost predicate DeliveringFirst(s: State, d: State, c: nat, y: Tender) {
    && Known(d, c) && d.commits[c].consumedAt.Some? && |d.receipts| == |s.receipts| + 1
    && d.threads == s.threads +
       [Done(FinalizeOk(c, |s.receipts|)), AwaitVerify(c, y.proof), Delivering(c, |s.receipts|)]
  }

  lemma DeliveryStarts(cfg: Config, s: State, b: State, f: State, c: nat, x: Tender, y: Tender, p: Price)
    requires BothPay(cfg, s, c, x, y) && BothWait(cfg, s, b, c, x, y) && Known(b, c)
    requires Settled(cfg, b, f, |s.threads|, c, x.proof, x.v) && Awaits(cfg, f, |s.threads| + 1, c, y.proof, y.v)
    ensures var d := Step(cfg, f, Get(QuoteOf(s, c).resource, Some(c), None, p));
            DeliveringFirst(s, d, c, y) && Awaits(cfg, d, |s.threads| + 1, c, y.proof, y.v)
  {
    assert Deliverable(f, c, QuoteOf(s, c).resource);
    var d := Step(cfg, f, Get(QuoteOf(s, c).resource, Some(c), None, p));
    assert d == StartDelivery(f, c, QuoteOf(s, c).resource);
    assert d.threads ==
      s.threads + [Done(FinalizeOk(c, |s.receipts|)), AwaitVerify(c, y.proof), Delivering(c, |s.receipts|)];
  }

  lemma SecondReplaces(cfg: Config, s: State, d: State, e: State, c: nat, y: Tender)
    requires DeliveringFirst(s, d, c, y) && Settled(cfg, d, e, |s.threads| + 1, c, y.proof, y.v)
    ensures Overtaken(s, e, c)
  {
    assert e.threads == d.threads[|s.threads| + 1 := Done(FinalizeOk(c, |s.receipts| + 1))];
  }

  /** The commit is consumed, but no delivery of it is under way or has succeeded. */
  ghost predicate Stranded(s: State, c: nat) {
    && c < |s.commits| && s.commits[c].consumedAt.Some?
    && forall r :: 0 <= r < |s.threads| ==> !D.Delivers(s.threads[r], c)
  }

  lemma StrandedAt(cfg: Config, s: State, c: nat, x: Tender, y: Tender, p: Price, status: nat)
    requires BothPay(cfg, s, c, x, y) && status >= 500
    requires forall r :: 0 <= r < |s.threads| ==> !D.Delivers(s.threads[r], c)
    ensures var e := Step(cfg, Replaced(cfg, s, c, x, y, p), Finish(|s.threads| + 2, status));
            Stranded(e, c)
  {
    DeliveryReplaced(cfg, s, c, x, y, p);
    FailureStrands(cfg, s, Replaced(cfg, s, c, x, y, p), c, status);
  }

  lemma FailureStrands(cfg: Config, s: State, d: State, c: nat, status: nat)
    requires status >= 500 && forall r :: 0 <= r < |s.threads| ==> !D.Delivers(s.threads[r], c)
    requires Overtaken(s, d, c)
    ensures var e := Step(cfg, d, Finish(|s.threads| + 2, status));
            Stranded(e, c)
  {
  }

  // ---- and these are states the server can be in -----------------------------------------------------------

  /** From this state a buyer can commit to a quote and then finalize it twice at once. */
  ghost predicate Opening(cfg: Config, start: nat, s: State, w: Session, payer: string) {
    && Reachable(cfg, start, s)
    && NormalizeCommitment(payer) == Some(payer) && w.price.split == [] && w.pause < cfg.quoteTtlMs
    && CapsAllow(cfg, s, w.price.amount + w.price.fee, s.clock + w.pause)
  }

  /** A fresh server is such a state for every price within its caps. */
  lemma FreshServerOpens(cfg: Config, start: nat, w: Session, payer: string)
    requires NormalizeCommitment(payer) == Some(payer) && w.price.split == [] && w.pause < cfg.quoteTtlMs
    requires var total := w.price.amount + w.price.fee;
             && DrillAmountAllowed(cfg.drill, total) && BetaAmountAllowed(cfg.beta, total)
             && (cfg.beta.enabled ==> total <= cfg.beta.daily)
    ensures Opening(cfg, start, Init(start), w, payer)
  {
    assert Init(start) == Run(cfg, start, []);
  }

  /** The server will quote this way to pay, and the payment will be good at the time of the commit. */
  ghost predicate Tendered(cfg: Config, s: State, path: string, w: Session, x: Tender) {
    var q := NewQuote(cfg, s, path, w.price);
    x.proof.Mode() in q.settlement && ProofGood(s, q, x.proof, x.v, s.clock + w.pause)
  }

  /** Two different good payments can always be tendered, netting or not. */
  lemma AlwaysTwoTenders(cfg: Config, s: State, path: string, w: Session) returns (x: Tender, y: Tender)
    ensures Tendered(cfg, s, path, w, x) && Tendered(cfg, s, path, w, y)
    ensures Different(NewQuote(cfg, s, path, w.price), x, y)
  {
    x, y := TwoGoodPayments(s, NewQuote(cfg, s, path, w.price), s.clock + w.pause);
    OnchainOffered(cfg, s, path, w.price, x.proof);
    OnchainOffered(cfg, s, path, w.price, y.proof);
  }

  /** `b` holds the buyer's commit, which nothing delivers yet. */
  ghost predicate OpenCommit(cfg: Config, s: State, b: State, path: string, w: Session) {
    && Known(b, |s.commits|) && QuoteOf(b, |s.commits|) == NewQuote(cfg, s, path, w.price)
    && b.drill == s.drill && b.beta == s.beta && b.seen == s.seen && b.clock == s.clock + w.pause
    && (forall r :: 0 <= r < |b.threads| ==> !D.Delivers(b.threads[r], |s.commits|))
  }

  /** The commit that the buyer makes from an opening: every payment tendered for it can be presented. */
  lemma CommitOverlappable(cfg: Config, start: nat, s: State, path: string, w: Session, payer: string)
    requires Opening(cfg, start, s, w, payer)
    ensures var b := Committing(cfg, s, path, w, |s.quotes|, payer);
            && Reachable(cfg, start, b) && OpenCommit(cfg, s, b, path, w)
            && (forall proof: PaymentProof :: proof.Mode() in NewQuote(cfg, s, path, w.price).settlement ==>
                  Ready(cfg, b, |s.commits|, proof))
  {
    CommittingReaches(cfg, start, s, path, w, |s.quotes|, payer);
    CommitSucceeds(cfg, s, path, w, payer);
    var b := Committing(cfg, s, path, w, |s.quotes|, payer);
    var es :| s == Run(cfg, start, es);
    D.RunLinks(cfg, start, es);
    NotDeliveredYet(cfg, s, b, path, w, payer);
    CommitIsOpen(cfg, s, b, path, w, payer);
    forall proof: PaymentProof | proof.Mode() in NewQuote(cfg, s, path, w.price).settlement
      ensures Ready(cfg, b, |s.commits|, proof)
    {
      ReadyWhenCommitted(cfg, s, b, path, w, payer, proof);
    }
  }

  lemma CommitIsOpen(cfg: Config, s: State, b: State, path: string, w: Session, payer: string)
    requires CommittedTo(cfg, s, b, path, w, payer)
    ensures Known(b, |s.commits|) && QuoteOf(b, |s.commits|) == NewQuote(cfg, s, path, w.price)
    ensures b.commits[|s.commits|] == Commit(|s.quotes|, payer, s.clock + w.pause, Pending, None, None, None)
  {
    assert b.commits[|s.commits|] == Commit(|s.quotes|, payer, s.clock + w.pause, Pending, None, None, None);
  }

  lemma ReadyWhenCommitted(cfg: Config, s: State, b: State, path: string, w: Session, payer: string,
                           proof: PaymentProof)
    requires CommittedTo(cfg, s, b, path, w, payer) && w.price.split == [] && w.pause < cfg.quoteTtlMs
    requires CapsAllow(cfg, s, w.price.amount + w.price.fee, s.clock + w.pause)
    requires proof.Mode() in NewQuote(cfg, s, path, w.price).settlement
    ensures Ready(cfg, b, |s.commits|, proof)
  {
    CommitIsOpen(cfg, s, b, path, w, payer);
    var q := NewQuote(cfg, s, path, w.price);
    assert CapsAllow(cfg, b, q.total, b.clock);
  }

  lemma NotDeliveredYet(cfg: Config, s: State, b: State, path: string, w: Session, payer: string)
    requires D.AllLinked(s) && CommittedTo(cfg, s, b, path, w, payer)
    ensures forall r :: 0 <= r < |b.threads| ==> !D.Delivers(b.threads[r], |s.commits|)
  {
    forall r | 0 <= r < |b.threads|
      ensures !D.Delivers(b.threads[r], |s.commits|)
    {
      if r < |s.threads| {
        assert b.threads[r] == s.threads[r] && D.Linked(s, s.threads[r], r);
      }
    }
  }

  lemma FirstDoneReaches(cfg: Config, start: nat, s: State, c: nat, x: Tender, y: Tender)
    requires Reachable(cfg, start, s)
    ensures Reachable(cfg, start, FirstDone(cfg, s, c, x, y))
  {
    StepReaches(cfg, start, s, PostFinalize(c, Some(x.proof), []));
    StepReaches(cfg, start, Step(cfg, s, PostFinalize(c, Some(x.proof), [])), PostFinalize(c, Some(y.proof), []));
    SettlesReaches(cfg, start, Both(cfg, s, c, x, y), |s.threads|, x.v);
  }

  /**
   * Without the condition that finalize calls on a commit do not overlap, `finalized` is not
   * absorbing: from every opening and for every good payment, a second call whose proof is
   * refused turns the paid commit into a failed one, for which nothing is delivered.
   */
  lemma OverlapUndoesFinalized(cfg: Config, start: nat, s: State, path: string, w: Session, payer: string,
                               x: Tender, y: Tender, resource: string)
    requires Opening(cfg, start, s, w, payer) && Tendered(cfg, s, path, w, x)
    requires !y.proof.NettingProof? && !y.v.ok
    ensures var b, c := Committing(cfg, s, path, w, |s.quotes|, payer), |s.commits|;
            var f := FirstDone(cfg, b, c, x, y);
            var e := Step(cfg, f, Verdict(|b.threads| + 1, y.v, Pass));
            && Reachable(cfg, start, f) && Reachable(cfg, start, e)
            && c < |f.commits| && f.commits[c].status == Finalized && f.commits[c].receiptId == Some(|b.receipts|)
            && c < |e.commits| && e.commits[c].status == Status.Failed && e.commits[c].receiptId == Some(|b.receipts|)
            && !Deliverable(e, c, resource)
  {
    var b := Committing(cfg, s, path, w, |s.quotes|, payer);
    CommitOverlappable(cfg, start, s, path, w, payer);
    OnchainOffered(cfg, s, path, w.price, y.proof);
    UndoneAt(cfg, b, |s.commits|, x, y, resource);
    FirstDoneReaches(cfg, start, b, |s.commits|, x, y);
    StepReaches(cfg, start, FirstDone(cfg, b, |s.commits|, x, y), Verdict(|b.threads| + 1, y.v, Pass));
  }

  /** What `Tendered` says of the quote holds of the commit too. */
  lemma TendersPay(cfg: Config, s: State, b: State, path: string, w: Session, x: Tender, y: Tender)
    requires OpenCommit(cfg, s, b, path, w) && Tendered(cfg, s, path, w, x) && Tendered(cfg, s, path, w, y)
    requires Ready(cfg, b, |s.commits|, x.proof) && Ready(cfg, b, |s.commits|, y.proof)
    requires Different(NewQuote(cfg, s, path, w.price), x, y)
    ensures BothPay(cfg, b, |s.commits|, x, y)
  {
  }

  /**
   * Two calls that were checked before either was recorded: the day's total passes the cap,
   * either cap, on the day that counted before or on a new one. `t` is the time of the commit.
   */
  lemma OverlapPassesDailyCap(cfg: Config, start: nat, s: State, path: string, w: Session, payer: string,
                              x: Tender, y: Tender, cap: Which, t: nat)
    requires Opening(cfg, start, s, w, payer) && t == s.clock + w.pause
    requires Tendered(cfg, s, path, w, x) && Tendered(cfg, s, path, w, y)
    requires Different(NewQuote(cfg, s, path, w.price), x, y)
    requires TwiceTooMuch(PolicyOf(cfg, cap), UsageOf(s, cap), w.price.amount + w.price.fee, t)
    ensures var b, c := Committing(cfg, s, path, w, |s.quotes|, payer), |s.commits|;
            var e := BothDone(cfg, b, c, x, y);
            Reachable(cfg, start, e) && UsageOf(e, cap).finalized > PolicyOf(cfg, cap).daily
  {
    var b := Committing(cfg, s, path, w, |s.quotes|, payer);
    CommitOverlappable(cfg, start, s, path, w, payer);
    TendersPay(cfg, s, b, path, w, x, y);
    CapPassedFrom(cfg, start, s, b, path, w, x, y, cap, t);
  }

  lemma CapPassedFrom(cfg: Config, start: nat, s: State, b: State, path: string, w: Session, x: Tender, y: Tender,
                      cap: Which, t: nat)
    requires Reachable(cfg, start, b) && OpenCommit(cfg, s, b, path, w) && BothPay(cfg, b, |s.commits|, x, y)
    requires TwiceTooMuch(PolicyOf(cfg, cap), UsageOf(s, cap), w.price.amount + w.price.fee, t) && b.clock == t
    ensures var e := BothDone(cfg, b, |s.commits|, x, y);
            Reachable(cfg, start, e) && UsageOf(e, cap).finalized > PolicyOf(cfg, cap).daily
  {
    CapPassedAt(cfg, b, |s.commits|, x, y, cap);
    FirstDoneReaches(cfg, start, b, |s.commits|, x, y);
    SettlesReaches(cfg, start, FirstDone(cfg, b, |s.commits|, x, y), |b.threads| + 1, y.v);
  }

  /**
   * Nor is a commit consumed only while it is being delivered or has been: from every opening,
   * when a delivery fails after an overlapping call has replaced its receipt, the token is not
   * given back.
   */
  lemma OverlapStrandsDelivery(cfg: Config, start: nat, s: State, path: string, w: Session, payer: string,
                               x: Tender, y: Tender, status: nat)
    requires Opening(cfg, start, s, w, payer) && status >= 500
    requires Tendered(cfg, s, path, w, x) && Tendered(cfg, s, path, w, y)
    requires Different(NewQuote(cfg, s, path, w.price), x, y)
    ensures var b, c := Committing(cfg, s, path, w, |s.quotes|, payer), |s.commits|;
            && Known(b, c)
            && var e := Step(cfg, Replaced(cfg, b, c, x, y, w.price), Finish(|b.threads| + 2, status));
               Reachable(cfg, start, e) && Stranded(e, c)
  {
    var b := Committing(cfg, s, path, w, |s.quotes|, payer);
    CommitOverlappable(cfg, start, s, path, w, payer);
    StrandedFrom(cfg, start, s, b, path, w, x, y, status);
  }

  lemma StrandedFrom(cfg: Config, start: nat, s: State, b: State, path: string, w: Session, x: Tender, y: Tender,
                     status: nat)
    requires Reachable(cfg, start, b) && OpenCommit(cfg, s, b, path, w) && status >= 500
    requires Tendered(cfg, s, path, w, x) && Tendered(cfg, s, path, w, y)
    requires Different(NewQuote(cfg, s, path, w.price), x, y)
    requires Ready(cfg, b, |s.commits|, x.proof) && Ready(cfg, b, |s.commits|, y.proof)
    ensures var e := Step(cfg, Replaced(cfg, b, |s.commits|, x, y, w.price), Finish(|b.threads| + 2, status));
            Reachable(cfg, start, e) && Stranded(e, |s.commits|)
  {
    TendersPay(cfg, s, b, path, w, x, y);
    StrandedReaches(cfg, start, b, |s.commits|, x, y, w.price, status);
  }

  lemma StrandedReaches(cfg: Config, start: nat, b: State, c: nat, x: Tender, y: Tender, p: Price, status: nat)
    requires Reachable(cfg, start, b) && BothPay(cfg, b, c, x, y) && status >= 500
    requires forall r :: 0 <= r < |b.threads| ==> !D.Delivers(b.threads[r], c)
    ensures var e := Step(cfg, Replaced(cfg, b, c, x, y, p), Finish(|b.threads| + 2, status));
            Reachable(cfg, start, e) && Stranded(e, c)
  {
    StrandedAt(cfg, b, c, x, y, p, status);
    ReplacedReaches(cfg, start, b, c, x, y, p);
    StepReaches(cfg, start, Replaced(cfg, b, c, x, y, p), Finish(|b.threads| + 2, status));
  }

  lemma ReplacedReaches(cfg: Config, start: nat, s: State, c: nat, x: Tender, y: Tender, p: Price)
    requires Reachable(cfg, start, s) && Known(s, c)
    ensures Reachable(cfg, start, Replaced(cfg, s, c, x, y, p))
  {
    FirstDoneReaches(cfg, start, s, c, x, y);
    var f := FirstDone(cfg, s, c, x, y);
    StepReaches(cfg, start, f, Get(QuoteOf(s, c).resource, Some(c), None, p));
    SettlesReaches(cfg, start, Step(cfg, f, Get(QuoteOf(s, c).resource, Some(c), None, p)), |s.threads| + 1, y.v);
  }
}
