/**
 * Exactly when one payment is one receipt and one delivery in all runs: if and only if the
 * verifier's window is shorter than the lifetime of replay keys (x402/src/server.ts).
 */
module WindowExact {
  import opened Common
  import opened Receipts
  import opened Types
  import opened Protocol
  import opened Payments
  import opened Window
  import opened Handshake
  import opened Runs
  import L = Limits
  import RS = ReplayStore

  const PATH := "/resource"

  /** A buyer's session over nothing, without any pause. */
  function Gratis(x: L.Tender): Session {
    Session(Price(0, 0, [], false), false, 0, 0, x.v)
  }

  lemma SomePayer() returns (payer: string)
    ensures NormalizeCommitment(payer) == Some(payer)
  {
    var zeros := seq(64, _ => '0');
    assert zeros[..2][1] == zeros[1];
    assert StripPrefix(zeros) == zeros;
    NormalizeIdempotent(zeros);
    payer := NormalizeCommitment(zeros).value;
  }

  /** Nothing is no amount that a cap refuses, as long as nothing is recorded. */
  lemma GratisAllowed(cfg: Config, s: State, t: nat)
    requires s.drill.finalized == 0 && s.beta.finalized == 0
    ensures CapsAllow(cfg, s, 0, t)
  {
  }

  lemma GratisGoesThrough(cfg: Config, start: nat, payer: string, x: L.Tender)
    requires cfg.quoteTtlMs > 0 && NormalizeCommitment(payer) == Some(payer) && x == L.Signed("s")
    ensures GoesThrough(cfg, Init(start), PATH, Gratis(x), payer, x.proof)
  {
    L.OnchainOffered(cfg, Init(start), PATH, Gratis(x).price, x.proof);
    GratisAllowed(cfg, Init(start), start);
  }

  /** The first session: one receipt for the payment, delivered by request 3, and nothing recorded. */
  ghost predicate OnceServed(e: State, start: nat, key: RS.ReplayKey) {
    && e.clock == start && |e.receipts| == 1 && |e.threads| == 4 && ServedFor(e, 3, key)
    && e.threads[3].reply.receiptId == 0 && e.drill.finalized == 0 && e.beta.finalized == 0
  }

  lemma FirstSession(cfg: Config, start: nat, payer: string, x: L.Tender) returns (e: State)
    requires cfg.quoteTtlMs > 0 && NormalizeCommitment(payer) == Some(payer) && x == L.Signed("s")
    ensures Reachable(cfg, start, e) && OnceServed(e, start, PaymentKey(x.proof, x.v))
  {
    var s := Init(start);
    assert s == Run(cfg, start, []);
    GratisGoesThrough(cfg, start, payer, x);
    L.SessionReaches(cfg, start, s, PATH, Gratis(x), Messages(s, payer, x.proof));
    e := End(cfg, s, PATH, Gratis(x), Messages(s, payer, x.proof));
    SessionLeaves(cfg, s, Gratis(x), payer, x.proof, start);
  }

  ghost predicate Untouched(s: State) {
    && s.quotes == [] && s.commits == [] && s.receipts == [] && s.threads == []
    && s.drill == Usage(None, 0) && s.beta == Usage(None, 0)
  }

  /** From `s` to `e` one receipt was issued, for the payment `key`, and delivered. */
  ghost predicate OneMoreServed(s: State, e: State, r: SignedReceipt, key: RS.ReplayKey) {
    && Names(r.payload, key) && e.receipts == s.receipts + [Issued(r, |s.threads| + 2)]
    && e.threads == s.threads + [Done(Quoted(|s.quotes|)), Done(Committed(|s.commits|)),
                                 Done(FinalizeOk(|s.commits|, |s.receipts|)),
                                 Done(Served(Stored(|s.commits|), |s.receipts|))]
  }

  lemma SessionIssues(cfg: Config, s: State, w: Session, payer: string, proof: PaymentProof) returns (r: SignedReceipt)
    requires GoesThrough(cfg, s, PATH, w, payer, proof) && SingleReady(proof, w.v)
    ensures OneMoreServed(s, End(cfg, s, PATH, w, Messages(s, payer, proof)), r, PaymentKey(proof, w.v))
  {
    r := SessionAnswers(cfg, s, PATH, w, payer, proof);
    L.SessionNames(cfg, s, PATH, w, payer, proof, r);
  }

  /** What a session over nothing leaves on a server that has done nothing yet. */
  lemma SessionLeaves(cfg: Config, s: State, w: Session, payer: string, proof: PaymentProof, t: nat)
    requires GoesThrough(cfg, s, PATH, w, payer, proof) && SingleReady(proof, w.v)
    requires w.price.amount + w.price.fee == 0 && t == s.clock + w.pause + w.wait && Untouched(s)
    ensures OnceServed(End(cfg, s, PATH, w, Messages(s, payer, proof)), t, PaymentKey(proof, w.v))
  {
    var r := SessionIssues(cfg, s, w, payer, proof);
    SessionCounts(cfg, s, PATH, w, payer, proof, t);
    ServedOnce(cfg, s, End(cfg, s, PATH, w, Messages(s, payer, proof)), r,
               PaymentKey(proof, w.v), NewQuote(cfg, s, PATH, w.price).total, t);
  }

  lemma ServedOnce(cfg: Config, s: State, e: State, r: SignedReceipt, key: RS.ReplayKey, total: nat, t: nat)
    requires Untouched(s) && total == 0 && e.clock == t && OneMoreServed(s, e, r, key)
    requires e.drill == CountedOnce(cfg.drill, s.drill, total, t) && e.beta == CountedOnce(cfg.beta, s.beta, total, t)
    ensures OnceServed(e, t, key)
  {
    NothingCounted(cfg.drill, t);
    NothingCounted(cfg.beta, t);
  }

  lemma NothingCounted(p: CapPolicy, t: nat)
    ensures CountedOnce(p, Usage(None, 0), 0, t).finalized == 0
  {
  }

  /** The same payment a lifetime later: if the verifier still accepts it, it is delivered for again. */
  lemma ServedTwice(cfg: Config, start: nat) returns (es: seq<Event>)
    requires cfg.quoteTtlMs > 0
    ensures var s := Run(cfg, start, es);
            s.clock == start + cfg.replayTtlMs && !ReceiptsInject(s) && !DeliveriesInject(s)
  {
    var payer := SomePayer();
    var x := L.Signed("s");
    var a := FirstSession(cfg, start, payer, x);
    GratisAllowed(cfg, a, start + cfg.replayTtlMs);
    L.PaymentsCanBeReused(cfg, start, a, 0, PATH, Gratis(x), payer, x.proof, start + cfg.replayTtlMs);
    var b := Step(cfg, a, Tick(cfg.replayTtlMs));
    var e := End(cfg, b, PATH, Gratis(x), Messages(b, payer, x.proof));
    NeitherInjects(a, e, start, PaymentKey(x.proof, x.v));
    es :| e == Run(cfg, start, es);
  }

  lemma NeitherInjects(a: State, e: State, start: nat, key: RS.ReplayKey)
    requires OnceServed(a, start, key)
    requires |e.receipts| == 2 && e.receipts[..1] == a.receipts && NamedBy(e, 1, key)
    requires |a.threads| < |e.threads| && e.threads[..|a.threads|] == a.threads
    requires LastReply(e).Served? && LastReply(e).receiptId == 1
    ensures !ReceiptsInject(e) && !DeliveriesInject(e)
  {
    assert e.receipts[0] == a.receipts[0] && NamedBy(e, 0, key);
    assert e.threads[3] == a.threads[3];
    assert ServedFor(e, 3, key) && ServedFor(e, |e.threads| - 1, key);
  }

  ghost predicate AlwaysOneReceipt(cfg: Config, age: nat) {
    forall born, start: nat, es :: Timely(cfg, born, age, start, es) ==> ReceiptsInject(Run(cfg, start, es))
  }

  ghost predicate AlwaysOneDelivery(cfg: Config, age: nat) {
    forall born, start: nat, es :: Timely(cfg, born, age, start, es) ==> DeliveriesInject(Run(cfg, start, es))
  }

  lemma ShortWindowSuffices(cfg: Config, age: nat)
    requires age < cfg.replayTtlMs
    ensures AlwaysOneReceipt(cfg, age) && AlwaysOneDelivery(cfg, age)
  {
    forall born, start: nat, es | Timely(cfg, born, age, start, es)
      ensures ReceiptsInject(Run(cfg, start, es)) && DeliveriesInject(Run(cfg, start, es))
    {
      OnePaymentOneReceipt(cfg, born, age, start, es);
      OnePaymentOneDelivery(cfg, born, age, start, es);
    }
  }

  lemma LongWindowFails(cfg: Config, age: nat)
    requires age >= cfg.replayTtlMs && cfg.quoteTtlMs > 0
    ensures !AlwaysOneReceipt(cfg, age) && !AlwaysOneDelivery(cfg, age)
  {
    var es := ServedTwice(cfg, 0);
    YoungRunsAreTimely(cfg, age, 0, es);
    assert Timely(cfg, BornAt(0), age, 0, es);
    assert !ReceiptsInject(Run(cfg, 0, es)) && !DeliveriesInject(Run(cfg, 0, es));
  }

  /**
   * Whenever every payment is accepted and claimed within `age` milliseconds: no payment backs
   * two receipts, and none is delivered for twice, in all runs, if and only if `age` is less
   * than the lifetime of replay keys.
   */
  lemma WindowExactly(cfg: Config, age: nat)
    requires cfg.quoteTtlMs > 0
    ensures AlwaysOneReceipt(cfg, age) <==> age < cfg.replayTtlMs
    ensures AlwaysOneDelivery(cfg, age) <==> age < cfg.replayTtlMs
  {
    if age < cfg.replayTtlMs {
      ShortWindowSuffices(cfg, age);
    } else {
      LongWindowFails(cfg, age);
    }
  }

  /** With the defaults, transfers of at most 900 seconds against keys of 24 hours, it always holds. */
  lemma DefaultsInject(cfg: Config, born: RS.ReplayKey -> nat, start: nat, es: seq<Event>)
    requires cfg.replayTtlMs == DEFAULT_REPLAY_TTL_MS && Timely(cfg, born, DEFAULT_PROOF_AGE_S * 1000, start, es)
    ensures ReceiptsInject(Run(cfg, start, es)) && DeliveriesInject(Run(cfg, start, es))
  {
    OnePaymentOneReceipt(cfg, born, DEFAULT_PROOF_AGE_S * 1000, start, es);
    OnePaymentOneDelivery(cfg, born, DEFAULT_PROOF_AGE_S * 1000, start, es);
  }
}
