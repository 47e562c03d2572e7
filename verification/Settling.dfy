/**
 * A finalize call from the verifier's answer to its receipt, whatever else is under way
 * (x402/src/server.ts).
 */
module Settling {
  import opened Common
  import opened Types
  import opened Receipts
  import opened Protocol
  import RS = ReplayStore
  import N = Netting

  // ---- single steps ------------------------------------------------------------------------------

  lemma Resumes(cfg: Config, s: State, r: nat)
    requires r < |s.threads| && Runnable(s, s.threads[r])
    ensures Step(cfg, s, Resume(r, Pass)) == Perform(cfg, s, r, OnResume(s, s.threads[r], Pass))
  {
  }

  lemma Answers(cfg: Config, s: State, r: nat, v: Verification)
    requires r < |s.threads| && Runnable(s, s.threads[r])
    ensures Step(cfg, s, Verdict(r, v, Pass)) == Perform(cfg, s, r, OnVerdict(cfg, s, s.threads[r], v, Pass))
  {
  }

  lemma DoneStays(cfg: Config, s: State, r: nat)
    requires r < |s.threads| && s.threads[r].Done?
    ensures Step(cfg, s, Resume(r, Pass)) == s
  {
    Resumes(cfg, s, r);
  }

  /** Nothing but the claims and thread `r` has changed. */
  ghost predicate Alone(s: State, e: State, r: nat) {
    && r < |s.threads| && |e.threads| == |s.threads| && e.threads == s.threads[r := e.threads[r]]
    && e == s.(seen := e.seen, grants := e.grants, threads := e.threads)
  }

  // ---- when a payment is good -----------------------------------------------------------------------

  /** The verifier accepts the proof, and neither of its keys is claimed at time `t`. */
  predicate ProofGood(s: State, q: Quote, proof: PaymentProof, v: Verification, t: nat) {
    proof.NettingProof? ||
    (&& v.ok && SingleReady(proof, v)
     && !RS.Claimed(s.seen, PaymentKey(proof, v), t) && !RS.Claimed(s.seen, PaymentScopedKey(q, proof, v), t))
  }

  /** Thread `r` waits for the verdict on a good payment for commit `c`. */
  ghost predicate Awaits(cfg: Config, s: State, r: nat, c: nat, proof: PaymentProof, v: Verification) {
    && r < |s.threads| && s.threads[r] == AwaitVerify(c, proof) && Known(s, c)
    && (proof.NettingProof? ==> cfg.nettingEnabled) && ProofGood(s, QuoteOf(s, c), proof, v, s.clock)
  }

  /** The verdict, and what follows it. */
  function Settles(cfg: Config, s: State, r: nat, v: Verification): State {
    Step(cfg, Step(cfg, Step(cfg, Step(cfg, s, Verdict(r, v, Pass)), Resume(r, Pass)), Resume(r, Pass)),
         Resume(r, Pass))
  }

  function ReceiptFrom(cfg: Config, s: State, c: nat, proof: PaymentProof, v: Verification): SignedReceipt
    requires Known(s, c)
  {
    SignReceipt(cfg.crypto, s.prevHash, FinalizePayload(cfg, s, c, proof.Mode(), Judged(cfg, proof, v), None))
  }

  /** A netting proof is charged to the ledger, and nothing else is. */
  function ChargesFor(s: State, c: nat, proof: PaymentProof): seq<N.Charge>
    requires Known(s, c)
  {
    if proof.NettingProof? then [ChargeOf(s, c)] else []
  }

  /** One of the two keys that a payment claims. */
  predicate ItsKey(q: Quote, proof: PaymentProof, v: Verification, key: RS.ReplayKey) {
    SingleReady(proof, v) && (key == PaymentKey(proof, v) || key == PaymentScopedKey(q, proof, v))
  }

  /** Between `s` and `e` only the keys of the payment may have been claimed. */
  ghost predicate OthersFree(s: State, e: State, q: Quote, proof: PaymentProof, v: Verification) {
    forall key :: !ItsKey(q, proof, v, key) ==> (Free(e, key) <==> Free(s, key))
  }

  /** Counters, records and thread `r` once the receipt is issued and the commit completed. */
  ghost predicate Settled(cfg: Config, s: State, e: State, r: nat, c: nat, proof: PaymentProof, v: Verification)
    requires Known(s, c) && r < |s.threads|
  {
    && e.quotes == s.quotes && e.clock == s.clock && e.memoIndex == s.memoIndex
    && e.commits == s.commits[c := Sealed(s.commits[c], |s.receipts|, proof.Mode())]
    && e.receipts == s.receipts + [Issued(ReceiptFrom(cfg, s, c, proof, v), r)]
    && e.prevHash == ReceiptFrom(cfg, s, c, proof, v).receiptHash
    && e.charges == s.charges + ChargesFor(s, c, proof)
    && e.threads == s.threads[r := Done(FinalizeOk(c, |s.receipts|))]
    && e.drill == UsageAfterRecord(cfg.drill, s.drill, QuoteOf(s, c).total, s.clock)
    && e.beta == UsageAfterRecord(cfg.beta, s.beta, QuoteOf(s, c).total, s.clock)
    && OthersFree(s, e, QuoteOf(s, c), proof, v)
  }

  // ---- issuing ---------------------------------------------------------------------------------------

  /** `i` has issued the receipt; with a waterfall it still waits for the fee ledger. */
  ghost predicate IssuedAt(cfg: Config, s: State, d: State, i: State, r: nat, c: nat, proof: PaymentProof,
                           v: Verification)
    requires Known(s, c) && r < |s.threads|
  {
    && i.quotes == s.quotes && i.clock == s.clock && i.memoIndex == s.memoIndex && i.seen == d.seen
    && i.receipts == s.receipts + [Issued(ReceiptFrom(cfg, s, c, proof, v), r)]
    && i.prevHash == ReceiptFrom(cfg, s, c, proof, v).receiptHash
    && i.charges == s.charges + ChargesFor(s, c, proof)
    && i.commits == (if QuoteOf(s, c).waterfall then s.commits
                     else s.commits[c := Sealed(s.commits[c], |s.receipts|, proof.Mode())])
    && i.threads == s.threads[r := if QuoteOf(s, c).waterfall then AwaitLedger(c, |s.receipts|, proof.Mode())
                                   else Done(FinalizeOk(c, |s.receipts|))]
    && i.drill == UsageAfterRecord(cfg.drill, s.drill, QuoteOf(s, c).total, s.clock)
    && i.beta == UsageAfterRecord(cfg.beta, s.beta, QuoteOf(s, c).total, s.clock)
  }

  function Issuing(cfg: Config, d: State, r: nat, c: nat, proof: PaymentProof, v: Verification): State
    requires r < |d.threads| && Known(d, c)
  {
    Perform(cfg, d, r, Receipt(c, proof.Mode(), Judged(cfg, proof, v), None, Pass))
  }

  lemma IssuesAt(cfg: Config, s: State, d: State, r: nat, c: nat, proof: PaymentProof, v: Verification)
    requires Known(s, c) && Alone(s, d, r)
    ensures IssuedAt(cfg, s, d, Issuing(cfg, d, r, c, proof, v), r, c, proof, v)
  {
    assert FinalizePayload(cfg, d, c, proof.Mode(), Judged(cfg, proof, v), None) ==
           FinalizePayload(cfg, s, c, proof.Mode(), Judged(cfg, proof, v), None);
  }

  /** At most one more step completes the commit. */
  lemma IssueSettles(cfg: Config, s: State, d: State, r: nat, c: nat, proof: PaymentProof, v: Verification)
    requires Known(s, c) && Alone(s, d, r) && OthersFree(s, d, QuoteOf(s, c), proof, v)
    ensures Settled(cfg, s, Step(cfg, Issuing(cfg, d, r, c, proof, v), Resume(r, Pass)), r, c, proof, v)
  {
    IssuesAt(cfg, s, d, r, c, proof, v);
    LastStep(cfg, s, d, Issuing(cfg, d, r, c, proof, v), r, c, proof, v);
  }

  lemma LastStep(cfg: Config, s: State, d: State, i: State, r: nat, c: nat, proof: PaymentProof, v: Verification)
    requires Known(s, c) && Alone(s, d, r) && OthersFree(s, d, QuoteOf(s, c), proof, v)
    requires IssuedAt(cfg, s, d, i, r, c, proof, v)
    ensures Settled(cfg, s, Step(cfg, i, Resume(r, Pass)), r, c, proof, v)
  {
    Resumes(cfg, i, r);
  }

  // ---- claiming -------------------------------------------------------------------------------------

  /** The keys a payment claims differ, so the first claim does not stand in the way of the second. */
  lemma SecondClaimFree(seen: RS.Seen, q: Quote, proof: PaymentProof, v: Verification, t: nat, ttl: nat)
    requires SingleReady(proof, v) && !RS.Claimed(seen, PaymentScopedKey(q, proof, v), t)
    ensures !RS.Claimed(RS.Claim(seen, PaymentKey(proof, v), t, ttl), PaymentScopedKey(q, proof, v), t)
  {
  }

  lemma ClaimsGlobal(cfg: Config, s: State, r: nat, c: nat, proof: PaymentProof, v: Verification)
    requires r < |s.threads| && s.threads[r] == AwaitVerify(c, proof) && Known(s, c) && v.ok && SingleReady(proof, v)
    requires !RS.Claimed(s.seen, PaymentKey(proof, v), s.clock)
    ensures var b := Step(cfg, s, Verdict(r, v, Pass));
            && Alone(s, b, r) && b.threads[r] == AwaitGlobal(c, proof, v, true)
            && b.seen == RS.Claim(s.seen, PaymentKey(proof, v), s.clock, cfg.replayTtlMs)
  {
    Answers(cfg, s, r, v);
  }

  lemma ClaimsScoped(cfg: Config, s: State, b: State, r: nat, c: nat, proof: PaymentProof, v: Verification)
    requires Known(s, c) && Alone(s, b, r) && b.threads[r] == AwaitGlobal(c, proof, v, true)
    requires SingleReady(proof, v) && !RS.Claimed(b.seen, PaymentScopedKey(QuoteOf(s, c), proof, v), s.clock)
    ensures var d := Step(cfg, b, Resume(r, Pass));
            && Alone(s, d, r) && d.threads[r] == AwaitScoped(c, proof, v, true)
            && d.seen == RS.Claim(b.seen, PaymentScopedKey(QuoteOf(s, c), proof, v), s.clock, cfg.replayTtlMs)
  {
    Resumes(cfg, b, r);
  }

  lemma TwoClaims(s: State, d: State, q: Quote, proof: PaymentProof, v: Verification, ttl: nat)
    requires SingleReady(proof, v) && d.clock == s.clock
    requires d.seen == RS.Claim(RS.Claim(s.seen, PaymentKey(proof, v), s.clock, ttl), PaymentScopedKey(q, proof, v),
                                s.clock, ttl)
    ensures OthersFree(s, d, q, proof, v)
  {
  }

  lemma NettingSettles(cfg: Config, s: State, r: nat, c: nat, proof: PaymentProof, v: Verification)
    requires Awaits(cfg, s, r, c, proof, v) && proof.NettingProof?
    ensures Settled(cfg, s, Settles(cfg, s, r, v), r, c, proof, v)
  {
    Answers(cfg, s, r, v);
    assert OnVerdict(cfg, s, s.threads[r], v, Pass) == Receipt(c, proof.Mode(), Judged(cfg, proof, v), None, Pass);
    IssueSettles(cfg, s, s, r, c, proof, v);
    DoneStays(cfg, Step(cfg, Issuing(cfg, s, r, c, proof, v), Resume(r, Pass)), r);
  }

  lemma OnchainSettles(cfg: Config, s: State, r: nat, c: nat, proof: PaymentProof, v: Verification)
    requires Awaits(cfg, s, r, c, proof, v) && !proof.NettingProof?
    ensures Settled(cfg, s, Settles(cfg, s, r, v), r, c, proof, v)
  {
    ClaimsGlobal(cfg, s, r, c, proof, v);
    SecondClaimFree(s.seen, QuoteOf(s, c), proof, v, s.clock, cfg.replayTtlMs);
    var b := Step(cfg, s, Verdict(r, v, Pass));
    ClaimsScoped(cfg, s, b, r, c, proof, v);
    var d := Step(cfg, b, Resume(r, Pass));
    TwoClaims(s, d, QuoteOf(s, c), proof, v, cfg.replayTtlMs);
    IssuesNext(cfg, s, d, r, c, proof, v);
    IssueSettles(cfg, s, d, r, c, proof, v);
  }

  lemma IssuesNext(cfg: Config, s: State, d: State, r: nat, c: nat, proof: PaymentProof, v: Verification)
    requires Known(s, c) && Alone(s, d, r) && d.threads[r] == AwaitScoped(c, proof, v, true)
    requires SingleReady(proof, v)
    ensures Step(cfg, d, Resume(r, Pass)) == Issuing(cfg, d, r, c, proof, v)
  {
    Resumes(cfg, d, r);
  }

  /** A good payment settles, whatever the other threads are doing. */
  lemma AwaitSettles(cfg: Config, s: State, r: nat, c: nat, proof: PaymentProof, v: Verification)
    requires Awaits(cfg, s, r, c, proof, v)
    ensures Settled(cfg, s, Settles(cfg, s, r, v), r, c, proof, v)
  {
    if proof.NettingProof? {
      NettingSettles(cfg, s, r, c, proof, v);
    } else {
      OnchainSettles(cfg, s, r, c, proof, v);
    }
  }
}
