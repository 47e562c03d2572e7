/**
 * When an uninterrupted handshake goes through: exactly if the buyer can afford the quote and
 * pay it, and the server finds nothing wrong (x402/src/client.ts against x402/src/server.ts).
 */
module HandshakeExact {
  import opened Common
  import opened Types
  import opened Receipts
  import opened Protocol
  import opened Client
  import opened Handshake
  import opened Settling
  import RS = ReplayStore

  // ---- a call that fails stays failed -----------------------------------------------------------

  ghost predicate Over(s: State, r: nat) {
    r < |s.threads| && s.threads[r].Done? && s.threads[r].reply.Refused?
  }

  lemma OverStays(cfg: Config, s: State, r: nat, v: Verification)
    requires Over(s, r)
    ensures Step(cfg, s, Resume(r, Pass)) == s && Step(cfg, s, Verdict(r, v, Pass)) == s
  {
    DoneStays(cfg, s, r);
    Answers(cfg, s, r, v);
  }

  /** What the checks before the first await ask for. */
  predicate Admissible(cfg: Config, s: State, c: nat, proof: PaymentProof) {
    Known(s, c) &&
    var q := QuoteOf(s, c);
    && !Expired(q, s.clock) && q.split == [] && proof.Mode() in q.settlement &&
       (proof.NettingProof? ==> cfg.nettingEnabled)
    && CapsAllow(cfg, s, q.total, s.clock)
  }

  lemma NotAdmitted(cfg: Config, s: State, c: nat, proof: PaymentProof)
    requires Known(s, c) && s.commits[c].receiptId.None? && !Admissible(cfg, s, c, proof)
    ensures var a := Step(cfg, s, PostFinalize(c, Some(proof), []));
            |a.threads| == |s.threads| + 1 && Over(a, |s.threads|)
  {
    assert Admit(cfg, s, c, Some(proof), []).t.Done? && Admit(cfg, s, c, Some(proof), []).t.reply.Refused?;
  }

  lemma Refuses(cfg: Config, s: State, c: nat, proof: PaymentProof, v: Verification)
    requires Known(s, c) && s.commits[c].receiptId.None? && !Admissible(cfg, s, c, proof)
    ensures !LastReply(Finalizing(cfg, s, c, proof, v)).FinalizeOk?
  {
    NotAdmitted(cfg, s, c, proof);
    OverStays(cfg, Step(cfg, s, PostFinalize(c, Some(proof), [])), |s.threads|, v);
  }

  // ---- a proof that is not good -------------------------------------------------------------------

  /** Thread `r` waits for the verdict on an on-chain payment for commit `c`. */
  ghost predicate Asks(s: State, r: nat, c: nat, proof: PaymentProof) {
    Known(s, c) && r < |s.threads| && s.threads[r] == AwaitVerify(c, proof) && !proof.NettingProof?
  }

  lemma RejectedProof(cfg: Config, s: State, r: nat, c: nat, proof: PaymentProof, v: Verification)
    requires Asks(s, r, c, proof) && !(v.ok && SingleReady(proof, v))
    ensures var b := Step(cfg, s, Verdict(r, v, Pass)); |b.threads| == |s.threads| && Over(b, r)
  {
    Answers(cfg, s, r, v);
  }

  lemma GlobalTaken(cfg: Config, s: State, r: nat, c: nat, proof: PaymentProof, v: Verification)
    requires Asks(s, r, c, proof) && v.ok && SingleReady(proof, v) && RS.Claimed(s.seen, PaymentKey(proof, v), s.clock)
    ensures var d := Step(cfg, Step(cfg, s, Verdict(r, v, Pass)), Resume(r, Pass));
            |d.threads| == |s.threads| && Over(d, r)
  {
    Answers(cfg, s, r, v);
    var b := Step(cfg, s, Verdict(r, v, Pass));
    assert b.threads == s.threads[r := AwaitGlobal(c, proof, v, false)];
    Resumes(cfg, b, r);
  }

  lemma ScopedTaken(cfg: Config, s: State, r: nat, c: nat, proof: PaymentProof, v: Verification)
    requires Asks(s, r, c, proof) && v.ok && SingleReady(proof, v) && !RS.Claimed(s.seen, PaymentKey(proof, v), s.clock)
    requires RS.Claimed(s.seen, PaymentScopedKey(QuoteOf(s, c), proof, v), s.clock)
    ensures var d := Step(cfg, Step(cfg, Step(cfg, s, Verdict(r, v, Pass)), Resume(r, Pass)), Resume(r, Pass));
            |d.threads| == |s.threads| && Over(d, r)
  {
    ClaimsGlobal(cfg, s, r, c, proof, v);
    var b := Step(cfg, s, Verdict(r, v, Pass));
    ScopedRefused(cfg, s, b, r, c, proof, v);
    Resumes(cfg, Step(cfg, b, Resume(r, Pass)), r);
  }

  lemma ScopedRefused(cfg: Config, s: State, b: State, r: nat, c: nat, proof: PaymentProof, v: Verification)
    requires Known(s, c) && Alone(s, b, r) && b.threads[r] == AwaitGlobal(c, proof, v, true) && SingleReady(proof, v)
    requires b.seen == RS.Claim(s.seen, PaymentKey(proof, v), s.clock, cfg.replayTtlMs)
    requires RS.Claimed(s.seen, PaymentScopedKey(QuoteOf(s, c), proof, v), s.clock)
    ensures var d := Step(cfg, b, Resume(r, Pass)); Alone(s, d, r) && d.threads[r] == AwaitScoped(c, proof, v, false)
  {
    Resumes(cfg, b, r);
  }

  lemma BadProofFails(cfg: Config, s: State, c: nat, proof: PaymentProof, v: Verification)
    requires Ready(cfg, s, c, proof) && !ProofGood(s, QuoteOf(s, c), proof, v, s.clock)
    ensures !LastReply(Finalizing(cfg, s, c, proof, v)).FinalizeOk?
  {
    Admits(cfg, s, c, proof);
    BadVerdictFails(cfg, Step(cfg, s, PostFinalize(c, Some(proof), [])), |s.threads|, c, proof, v);
  }

  lemma BadVerdictFails(cfg: Config, a: State, r: nat, c: nat, proof: PaymentProof, v: Verification)
    requires Asks(a, r, c, proof) && !ProofGood(a, QuoteOf(a, c), proof, v, a.clock)
    ensures var e := Settles(cfg, a, r, v); |e.threads| == |a.threads| && Over(e, r)
  {
    var b := Step(cfg, a, Verdict(r, v, Pass));
    var d := Step(cfg, b, Resume(r, Pass));
    if !(v.ok && SingleReady(proof, v)) {
      RejectedProof(cfg, a, r, c, proof, v);
      OverStays(cfg, b, r, v);
    } else if RS.Claimed(a.seen, PaymentKey(proof, v), a.clock) {
      GlobalTaken(cfg, a, r, c, proof, v);
      OverStays(cfg, d, r, v);
    } else {
      ScopedTaken(cfg, a, r, c, proof, v);
      OverStays(cfg, Step(cfg, d, Resume(r, Pass)), r, v);
    }
  }

  // ---- the session ------------------------------------------------------------------------------------

  lemma LateCommitFails(cfg: Config, s: State, path: string, w: Session, payer: string)
    requires w.pause >= cfg.quoteTtlMs
    ensures CommitReply(cfg, s, path, w, |s.quotes|, payer).None?
  {
    var a := Asked(cfg, s, path, w);
    assert a.quotes[|s.quotes|] == NewQuote(cfg, s, path, w.price);
    var t := Step(cfg, a, Tick(w.pause));
    assert Expired(t.quotes[|s.quotes|], t.clock);
    assert Step(cfg, t, PostCommit(|s.quotes|, payer)) == Spawn(t, Done(Refused(410)));
  }

  /** The commit as the finalize call finds it. */
  ghost predicate Waiting(cfg: Config, s: State, u: State, path: string, w: Session) {
    && Known(u, |s.commits|) && QuoteOf(u, |s.commits|) == NewQuote(cfg, s, path, w.price)
    && u.commits[|s.commits|].receiptId.None? && u.commits[|s.commits|].consumedAt.None?
    && u.seen == s.seen && u.drill == s.drill && u.beta == s.beta && u.clock == s.clock + w.pause + w.wait
  }

  lemma CommitWaits(cfg: Config, s: State, b: State, path: string, w: Session, payer: string)
    requires CommittedTo(cfg, s, b, path, w, payer)
    ensures Waiting(cfg, s, b.(clock := b.clock + w.wait), path, w)
  {
    var u := b.(clock := b.clock + w.wait);
    assert u.commits[|s.commits|] == Commit(|s.quotes|, payer, s.clock + w.pause, Pending, None, None, None);
    assert u.quotes[|s.quotes|] == NewQuote(cfg, s, path, w.price);
  }

  lemma FinalizeOnlyIf(cfg: Config, s: State, u: State, path: string, w: Session, payer: string, proof: PaymentProof)
    requires Waiting(cfg, s, u, path, w) && NormalizeCommitment(payer) == Some(payer)
    requires LastReply(Finalizing(cfg, u, |s.commits|, proof, w.v)).FinalizeOk?
    ensures GoesThrough(cfg, s, path, w, payer, proof)
  {
    if !Admissible(cfg, u, |s.commits|, proof) {
      Refuses(cfg, u, |s.commits|, proof, w.v);
    }
    if !ProofGood(u, QuoteOf(u, |s.commits|), proof, w.v, u.clock) {
      BadProofFails(cfg, u, |s.commits|, proof, w.v);
    }
    AdmissibleMeans(cfg, s, u, path, w, proof);
  }

  lemma AdmissibleMeans(cfg: Config, s: State, u: State, path: string, w: Session, proof: PaymentProof)
    requires Waiting(cfg, s, u, path, w) && Admissible(cfg, u, |s.commits|, proof)
    requires ProofGood(u, QuoteOf(u, |s.commits|), proof, w.v, u.clock)
    ensures w.pause + w.wait < cfg.quoteTtlMs
    ensures var q, t := NewQuote(cfg, s, path, w.price), s.clock + w.pause + w.wait;
            q.split == [] && proof.Mode() in q.settlement && CapsAllow(cfg, s, q.total, t) &&
              ProofGood(s, q, proof, w.v, t)
  {
  }

  lemma PaidOnlyIf(cfg: Config, s: State, path: string, w: Session, payer: string, proof: PaymentProof)
    requires NormalizeCommitment(payer) == Some(payer)
    requires CommitReply(cfg, s, path, w, |s.quotes|, payer).Some?
    requires FinalizedReply(cfg, s, path, w, Messages(s, payer, proof)).Some?
    ensures GoesThrough(cfg, s, path, w, payer, proof)
  {
    if w.pause >= cfg.quoteTtlMs {
      LateCommitFails(cfg, s, path, w, payer);
    }
    CommitSucceeds(cfg, s, path, w, payer);
    var b := Committing(cfg, s, path, w, |s.quotes|, payer);
    CommitWaits(cfg, s, b, path, w, payer);
    assert Step(cfg, b, Tick(w.wait)) == b.(clock := b.clock + w.wait);
    FinalizeOnlyIf(cfg, s, b.(clock := b.clock + w.wait), path, w, payer, proof);
  }

  // ---- both directions ----------------------------------------------------------------------------------

  /** The buyer affords the quote, has a way to pay it, and names itself properly. */
  predicate Willing(o: Buying, d: Requirements, spentToday: nat) {
    && Affordable(o, d.quote.total, spentToday).None?
    && ChooseSettlement(o, d).Some? && NormalizeCommitment(o.payer).Some?
  }

  /** A paid call was one the buyer was willing to make, and its commit and finalize calls were answered well. */
  lemma PaidMeansAnswered(c: Crypto, o: Buying, peer: Peer, spentToday: nat)
    requires peer.first.Demand? && Fetch(c, o, peer, spentToday).Paid?
    ensures var d := FillIn(peer.first.requirements);
            && Willing(o, d, spentToday)
            && var payer := NormalizeCommitment(o.payer).value;
               && peer.commit(d.quote.quoteId, payer).Some?
               && peer.finalize(Sent(d.quote.quoteId, payer, peer.commit(d.quote.quoteId, payer).value,
                                     ChooseSettlement(o, d).value)).Some?
  {
  }

  lemma PaidGoesThrough(cfg: Config, s: State, o: Buying, path: string, w: Session, spentToday: nat)
    requires Fetch(cfg.crypto, o, Server(cfg, s, path, w), spentToday).Paid?
    ensures var d := FillIn(Offer(cfg, NewQuote(cfg, s, path, w.price), w.useNetting));
            && Willing(o, d, spentToday)
            && GoesThrough(cfg, s, path, w, NormalizeCommitment(o.payer).value, ChooseSettlement(o, d).value)
  {
    var peer := Server(cfg, s, path, w);
    var d := FillIn(Offer(cfg, NewQuote(cfg, s, path, w.price), w.useNetting));
    PaidMeansAnswered(cfg.crypto, o, peer, spentToday);
    var payer, proof := NormalizeCommitment(o.payer).value, ChooseSettlement(o, d).value;
    NormalizeIdempotent(o.payer);
    CommitIsNext(cfg, s, path, w, payer);
    assert peer.finalize(Messages(s, payer, proof)).Some?;
    PaidOnlyIf(cfg, s, path, w, payer, proof);
  }

  lemma CommitIsNext(cfg: Config, s: State, path: string, w: Session, payer: string)
    requires NormalizeCommitment(payer) == Some(payer) && Server(cfg, s, path, w).commit(|s.quotes|, payer).Some?
    ensures Server(cfg, s, path, w).commit(|s.quotes|, payer) == Some(|s.commits|)
  {
    if w.pause >= cfg.quoteTtlMs {
      LateCommitFails(cfg, s, path, w, payer);
    } else {
      CommitAnswer(cfg, s, path, w, payer);
    }
  }

  // ---- the request that the receipt is for ---------------------------------------------------------------

  /** A paid call whose every question was answered has accepted the delivery. */
  lemma PaidMeansDelivered(c: Crypto, o: Buying, peer: Peer, spentToday: nat, m: Sent, r: SignedReceipt)
    requires peer.first.Demand? && Fetch(c, o, peer, spentToday).Paid?
    requires var d := FillIn(peer.first.requirements);
             && ChooseSettlement(o, d) == Some(m.proof) && NormalizeCommitment(o.payer) == Some(m.payer)
             && m.quoteId == d.quote.quoteId && peer.commit(m.quoteId, m.payer) == Some(m.commitId)
             && peer.finalize(m).Some? && peer.receipt(m, peer.finalize(m).value.receiptId) == Some(r)
    ensures Deliver(c, o, peer.deliver(m), r, TermsOf(peer.first.requirements.quote, m), m.commitId).Paid?
  {
  }

  /** A response that carries a receipt is accepted only for the request that the receipt is for. */
  lemma CarriedForThis(c: Crypto, o: Buying, fields: seq<(string, Json)>, r: SignedReceipt, x: Terms, commitId: nat)
    requires forall i :: 0 <= i < |fields| ==> fields[i].0 != "receipt"
    requires Deliver(c, o, Response(200, JObject(fields + [("receipt", JReceipt(r))]), None), r, x, commitId).Paid?
    ensures r.payload.requestDigest == RequestDigest(c, o.verb, o.path, o.body)
  {
    EmbedThenExtract(fields, JReceipt(r));
  }

  lemma PaidForThis(cfg: Config, s: State, o: Buying, path: string, w: Session, spentToday: nat)
    requires Fetch(cfg.crypto, o, Server(cfg, s, path, w), spentToday).Paid?
    ensures SameRequest(cfg.crypto, o, path)
  {
    PaidGoesThrough(cfg, s, o, path, w, spentToday);
    var peer := Server(cfg, s, path, w);
    var d := FillIn(Offer(cfg, NewQuote(cfg, s, path, w.price), w.useNetting));
    var payer, proof := NormalizeCommitment(o.payer).value, ChooseSettlement(o, d).value;
    var m := Messages(s, payer, proof);
    var r := SessionAnswers(cfg, s, path, w, payer, proof);
    PaidMeansDelivered(cfg.crypto, o, peer, spentToday, m, r);
    FulfilledBodyHasNoReceipt(path);
    CarriedForThis(cfg.crypto, o, FulfilledBody(path), r, TermsOf(peer.first.requirements.quote, m), m.commitId);
  }

  /**
   * The handshake in both directions: an uninterrupted call is paid if and only if the buyer is
   * willing, at the time of the finalize call the quote lives, its mode and amount are allowed,
   * and the payment verifies and has not been used, and the request is the one that the receipt
   * for the bare path is for.
   */
  lemma HandshakeExactly(cfg: Config, s: State, o: Buying, path: string, w: Session, spentToday: nat)
    requires SignaturesVerify(cfg.crypto)
    ensures var d := FillIn(Offer(cfg, NewQuote(cfg, s, path, w.price), w.useNetting));
            Fetch(cfg.crypto, o, Server(cfg, s, path, w), spentToday).Paid? <==>
            && Willing(o, d, spentToday)
            && GoesThrough(cfg, s, path, w, NormalizeCommitment(o.payer).value, ChooseSettlement(o, d).value)
            && SameRequest(cfg.crypto, o, path)
  {
    var d := FillIn(Offer(cfg, NewQuote(cfg, s, path, w.price), w.useNetting));
    if Fetch(cfg.crypto, o, Server(cfg, s, path, w), spentToday).Paid? {
      PaidGoesThrough(cfg, s, o, path, w, spentToday);
      PaidForThis(cfg, s, o, path, w, spentToday);
    } else if Willing(o, d, spentToday) && SameRequest(cfg.crypto, o, path) {
      var payer, proof := NormalizeCommitment(o.payer).value, ChooseSettlement(o, d).value;
      if GoesThrough(cfg, s, path, w, payer, proof) {
        HandshakeCompletes(cfg, s, o, path, w, spentToday, payer, proof);
      }
    }
  }

  /**
   * So a GET whose target differs from the bare path of the resource, by a query say, is never
   * paid, unless two texts have one hash.
   */
  lemma QueriesAreNotPaid(cfg: Config, s: State, o: Buying, path: string, w: Session, spentToday: nat)
    requires o.verb == "GET" && o.body.None? && Fetch(cfg.crypto, o, Server(cfg, s, path, w), spentToday).Paid?
    ensures o.path == path ||
            Collides(cfg.crypto.hash, RequestText(cfg.crypto, "GET", o.path, None),
                     RequestText(cfg.crypto, "GET", path, None))
  {
    PaidForThis(cfg, s, o, path, w, spentToday);
    if RequestText(cfg.crypto, "GET", o.path, None) == RequestText(cfg.crypto, "GET", path, None) {
      SameTextSamePath(cfg.crypto, o.path, path);
    }
  }

  lemma SameTextSamePath(c: Crypto, a: string, b: string)
    requires RequestText(c, "GET", a, None) == RequestText(c, "GET", b, None)
    ensures a == b
  {
    var tail := "|" + CanonicalBody(c, None);
    assert RequestText(c, "GET", a, None) == "GET|" + a + tail && RequestText(c, "GET", b, None) == "GET|" + b + tail;
    SameMiddle("GET|", a, b, tail);
  }

  lemma SameMiddle(front: string, a: string, b: string, tail: string)
    requires front + a + tail == front + b + tail
    ensures a == b
  {
    assert |a| == |b|;
    assert a == (front + a + tail)[|front|..|front| + |a|];
    assert b == (front + b + tail)[|front|..|front| + |b|];
  }
}
