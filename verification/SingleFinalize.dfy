/**
 * A finalize call with one proof, left alone: exactly when it settles, what it then stores, and
 * what a refusal leaves behind (x402/src/server.ts).
 */
module SingleFinalize {
  import opened Common
  import opened Types
  import opened Receipts
  import opened Protocol
  import opened Settling
  import H = Handshake
  import RS = ReplayStore
  import N = Netting

  // ---- what the call asks for ------------------------------------------------------------------

  function CountedToday(u: Usage, now: nat): nat {
    if u.day == Some(now / (24 * 60 * 60 * 1000)) then u.finalized else 0
  }

  /** The amount is within the transaction cap and, with what was counted today, within the daily one. */
  predicate Within(p: CapPolicy, u: Usage, total: nat, now: nat) {
    p.enabled ==> total <= p.maxTx && CountedToday(u, now) + total <= p.daily
  }

  /** The quote lives, offers the way to pay, and fits the caps. */
  predicate Admitted(cfg: Config, s: State, c: nat, proof: PaymentProof)
    requires Known(s, c)
  {
    var q := QuoteOf(s, c);
    && s.clock < q.expiresAt && proof.Mode() in q.settlement && (proof.NettingProof? ==> cfg.nettingEnabled)
    && Within(cfg.drill, s.drill, q.total, s.clock) && Within(cfg.beta, s.beta, q.total, s.clock)
  }

  /** The verifier accepts the payment and names it; nothing is asked about netting. */
  predicate Confirmed(proof: PaymentProof, v: Verification) {
    match proof
    case TransferProof(_, _) => v.ok && v.txSignature.Some? && v.txSignature.value != ""
    case StreamProof(_) => v.ok && v.streamId.Some? && v.streamId.value != ""
    case NettingProof => true
  }

  predicate Unused(s: State, key: RS.ReplayKey) {
    key in s.seen ==> s.seen[key] <= s.clock
  }

  /** No memory of this payment, nor of one under its name with these very terms. */
  predicate NameUnused(s: State, q: Quote, kind: string, id: string, name: string) {
    && Unused(s, RS.ReplayKey("dnp-core", kind + ":" + id, RS.Star, RS.Star, RS.Star))
    && Unused(s, RS.ReplayKey("dnp-core", name, RS.Atomic(q.total), RS.Text(q.recipient), RS.Text(q.mint)))
  }

  predicate Unspent(s: State, q: Quote, proof: PaymentProof, v: Verification)
    requires Confirmed(proof, v)
  {
    match proof
    case TransferProof(_, _) => NameUnused(s, q, "transfer", v.txSignature.value, v.txSignature.value)
    case StreamProof(_) => NameUnused(s, q, "stream", v.streamId.value, "stream:" + v.streamId.value)
    case NettingProof => true
  }

  // ---- what it stores ----------------------------------------------------------------------------

  /** A payment that is only netted: nothing of it is on chain. */
  const OPAQUE := Verification(true, false, None, None)

  /** `x` is the server's signed receipt, next in its chain, that states quote `q` and the payment `v`. */
  ghost predicate States(cfg: Config, s: State, x: SignedReceipt, q: Quote, commit: CommitRef, payer: string,
                         url: string, mode: Settlement, v: Verification) {
    var c, p := cfg.crypto, x.payload;
    && x.prevHash == s.prevHash && x.receiptHash == c.hash(c.encodeReceipt(s.prevHash, p))
    && x.signature == c.sign(x.receiptHash) && x.signerPublicKey == c.publicKey
    && p.receiptId == |s.receipts| && p.quoteId == q.quoteId && p.commitId == commit && p.resource == q.resource
    && p.recipient == q.recipient && p.mint == q.mint && p.amount == q.amount && p.fee == q.fee && p.total == q.total
    && p.payer == payer && p.settlement == mode && p.settledOnchain == v.settledOnchain
    && p.txSignature == v.txSignature && p.streamId == v.streamId && p.createdAt == s.clock
    && p.requestDigest == c.hash("GET|" + url + "|" + c.json(JNull))
    && p.responseDigest == c.hash("200|" + c.json(JObject(FulfilledBody(q.resource))))
  }

  lemma DigestTexts(c: Crypto, url: string, body: Json)
    ensures RequestDigest(c, "GET", url, None) == c.hash("GET|" + url + "|" + c.json(JNull))
    ensures ResponseDigest(c, 200, Some(body)) == c.hash("200|" + c.json(body))
  {
    assert "GET" + "|" + url + "|" + c.json(JNull) == "GET|" + url + "|" + c.json(JNull);
    assert Decimal(200) == Decimal(20) + [DigitChar(0)] && Decimal(20) == Decimal(2) + [DigitChar(0)];
    assert Decimal(200) + "|" + c.json(body) == "200|" + c.json(body);
  }

  /** A receipt that the server signs in state `s` states what went into it. */
  lemma SignedStates(cfg: Config, s: State, q: Quote, commit: CommitRef, payer: string, url: string, mode: Settlement,
                     v: Verification, splits: Option<seq<SplitProof>>)
    ensures var x := SignReceipt(cfg.crypto, s.prevHash, Payload(cfg, s, q, commit, payer, url, mode, v, splits));
            States(cfg, s, x, q, commit, payer, url, mode, v) && x.payload.splitProofs == splits
  {
    DigestTexts(cfg.crypto, url, JObject(FulfilledBody(q.resource)));
  }

  /** The total is counted once, on the day of the call, if the cap is in force. */
  ghost predicate Counted(p: CapPolicy, u: Usage, u': Usage, total: nat, now: nat) {
    if p.enabled then u' == Usage(Some(now / (24 * 60 * 60 * 1000)), CountedToday(u, now) + total) else u' == u
  }

  /** One receipt more, the commit finalized with it, and the total counted. */
  ghost predicate SettledFor(cfg: Config, s: State, e: State, c: nat, proof: PaymentProof, v: Verification)
    requires Known(s, c)
  {
    var q, n := QuoteOf(s, c), |s.receipts|;
    && |e.receipts| == n + 1 && e.receipts[..n] == s.receipts && e.receipts[n].issuer == |s.threads|
    && States(cfg, s, e.receipts[n].signed, q, Stored(c), s.commits[c].payer, q.resource, proof.Mode(),
              if proof.NettingProof? then OPAQUE else v)
    && e.receipts[n].signed.payload.splitProofs.None?
    && e.commits == s.commits[c := s.commits[c].(status := Finalized, mode := Some(proof.Mode()), receiptId := Some(n))]
    && e.threads == s.threads + [Done(FinalizeOk(c, n))] && e.quotes == s.quotes
    && e.charges == s.charges +
         (if proof.NettingProof?
          then [N.Charge(s.commits[c].payer, q.recipient, q.amount, q.fee, q.quoteId, c, s.clock, None)] else [])
    && Counted(cfg.drill, s.drill, e.drill, q.total, s.clock) && Counted(cfg.beta, s.beta, e.beta, q.total, s.clock)
  }

  /** No receipt; the commit fails if the payment was rejected, and stays as it is otherwise. */
  ghost predicate RefusedFor(s: State, e: State, c: nat, rejected: bool)
    requires Known(s, c)
  {
    && |e.threads| == |s.threads| + 1 && e.threads == s.threads + [e.threads[|s.threads|]]
    && e.threads[|s.threads|].Done? && e.threads[|s.threads|].reply.Refused?
    && e.receipts == s.receipts && e.signed == s.signed && e.charges == s.charges && e.quotes == s.quotes
    && e.commits == if rejected then s.commits[c := s.commits[c].(status := Failed)] else s.commits
  }

  // ---- admission -----------------------------------------------------------------------------------

  /** The commit has no receipt yet with which to answer the call. */
  predicate Unanswered(s: State, c: nat)
    requires Known(s, c)
  {
    s.commits[c].status == Finalized && s.commits[c].receiptId.Some? ==> s.commits[c].receiptId.value >= |s.receipts|
  }

  lemma Admits(cfg: Config, s: State, c: nat, proof: PaymentProof)
    requires Known(s, c) && Unanswered(s, c) && QuoteOf(s, c).split == []
    ensures var a, r := Step(cfg, s, PostFinalize(c, Some(proof), [])), |s.threads|;
            && |a.threads| == r + 1 && a == s.(drill := a.drill, beta := a.beta, threads := s.threads + [a.threads[r]])
            && if Admitted(cfg, s, c, proof) then
                 && a.threads[r] == AwaitVerify(c, proof)
                 && a.drill == UsageAfterCheck(cfg.drill, s.drill, s.clock)
                 && a.beta == UsageAfterCheck(cfg.beta, s.beta, s.clock)
               else a.threads[r].Done? && a.threads[r].reply.Refused?
  {
  }

  // ---- refusals after it ---------------------------------------------------------------------------

  lemma DoneForGood(cfg: Config, s: State, r: nat, v: Verification)
    requires r < |s.threads| && s.threads[r].Done?
    ensures Step(cfg, s, Resume(r, Pass)) == s && Step(cfg, s, Verdict(r, v, Pass)) == s && Settles(cfg, s, r, v) == s
  {
    DoneStays(cfg, s, r);
    Answers(cfg, s, r, v);
  }

  /** Thread `r` waits for the verdict. */
  ghost predicate Asks(a: State, r: nat, c: nat, proof: PaymentProof) {
    Known(a, c) && r < |a.threads| && a.threads[r] == AwaitVerify(c, proof)
  }

  lemma Rejects(cfg: Config, a: State, r: nat, c: nat, proof: PaymentProof, v: Verification)
    requires Asks(a, r, c, proof) && !Confirmed(proof, v)
    ensures Settles(cfg, a, r, v) ==
            a.(commits := a.commits[c := a.commits[c].(status := Failed)],
               threads := a.threads[r := Done(Refused(402))])
  {
    Answers(cfg, a, r, v);
    DoneForGood(cfg, Step(cfg, a, Verdict(r, v, Pass)), r, v);
  }

  /** Nothing but the claims has changed, and the request is refused. */
  ghost predicate TurnedAway(a: State, e: State, r: nat) {
    Alone(a, e, r) && e.threads[r].Done? && e.threads[r].reply.Refused?
  }

  lemma Spent(cfg: Config, a: State, r: nat, c: nat, proof: PaymentProof, v: Verification)
    requires Asks(a, r, c, proof) && Confirmed(proof, v) && !proof.NettingProof?
    requires !ProofGood(a, QuoteOf(a, c), proof, v, a.clock)
    ensures TurnedAway(a, Settles(cfg, a, r, v), r)
  {
    var b := Step(cfg, a, Verdict(r, v, Pass));
    var d := Step(cfg, b, Resume(r, Pass));
    if Free(a, PaymentKey(proof, v)) {
      ClaimsGlobal(cfg, a, r, c, proof, v);
      ScopedSpent(cfg, a, b, r, c, proof, v);
      DoneForGood(cfg, Step(cfg, d, Resume(r, Pass)), r, v);
    } else {
      GlobalSpent(cfg, a, r, c, proof, v);
      DoneForGood(cfg, d, r, v);
    }
  }

  lemma GlobalSpent(cfg: Config, a: State, r: nat, c: nat, proof: PaymentProof, v: Verification)
    requires Asks(a, r, c, proof) && Confirmed(proof, v) && !proof.NettingProof? && !Free(a, PaymentKey(proof, v))
    ensures TurnedAway(a, Step(cfg, Step(cfg, a, Verdict(r, v, Pass)), Resume(r, Pass)), r)
  {
    Answers(cfg, a, r, v);
    var b := Step(cfg, a, Verdict(r, v, Pass));
    assert b.threads == a.threads[r := AwaitGlobal(c, proof, v, false)];
    Resumes(cfg, b, r);
  }

  lemma ScopedSpent(cfg: Config, a: State, b: State, r: nat, c: nat, proof: PaymentProof, v: Verification)
    requires Known(a, c) && Alone(a, b, r) && b.threads[r] == AwaitGlobal(c, proof, v, true) && SingleReady(proof, v)
    requires b.seen == RS.Claim(a.seen, PaymentKey(proof, v), a.clock, cfg.replayTtlMs)
    requires RS.Claimed(a.seen, PaymentScopedKey(QuoteOf(a, c), proof, v), a.clock)
    ensures TurnedAway(a, Step(cfg, Step(cfg, b, Resume(r, Pass)), Resume(r, Pass)), r)
  {
    Resumes(cfg, b, r);
    Resumes(cfg, Step(cfg, b, Resume(r, Pass)), r);
  }

  // ---- both directions -------------------------------------------------------------------------------

  /** A confirmed payment is good exactly if it is unspent. */
  lemma GoodMeansUnspent(s: State, q: Quote, proof: PaymentProof, v: Verification)
    requires Confirmed(proof, v)
    ensures ProofGood(s, q, proof, v, s.clock) <==> Unspent(s, q, proof, v)
  {
  }

  lemma Settlement(cfg: Config, s: State, a: State, e: State, c: nat, proof: PaymentProof, v: Verification)
    requires Known(s, c)
    requires a == s.(drill := UsageAfterCheck(cfg.drill, s.drill, s.clock),
                     beta := UsageAfterCheck(cfg.beta, s.beta, s.clock), threads := s.threads + [AwaitVerify(c, proof)])
    requires Settled(cfg, a, e, |s.threads|, c, proof, v)
    ensures SettledFor(cfg, s, e, c, proof, v)
  {
    var q, w := QuoteOf(s, c), Judged(cfg, proof, v);
    SignedStates(cfg, a, q, Stored(c), s.commits[c].payer, q.resource, proof.Mode(), w, None);
  }

  /**
   * A finalize call with one proof for a commit that has no receipt yet settles if and only if
   * the quote lives, offers the way to pay and fits the caps, the verifier accepts the payment,
   * and nothing under its name was used. It is then counted once, and one receipt states quote,
   * commit, payer and payment; otherwise nothing is signed or charged, and the commit fails only
   * over a payment that the verifier rejects.
   */
  lemma SettlesExactly(cfg: Config, s: State, c: nat, proof: PaymentProof, v: Verification)
    requires Known(s, c) && Unanswered(s, c) && QuoteOf(s, c).split == []
    ensures var e := H.Finalizing(cfg, s, c, proof, v);
            if !Admitted(cfg, s, c, proof) then RefusedFor(s, e, c, false)
            else if !Confirmed(proof, v) then RefusedFor(s, e, c, true)
            else if !Unspent(s, QuoteOf(s, c), proof, v) then RefusedFor(s, e, c, false)
            else SettledFor(cfg, s, e, c, proof, v)
  {
    var a, r := Step(cfg, s, PostFinalize(c, Some(proof), [])), |s.threads|;
    Admits(cfg, s, c, proof);
    if !Admitted(cfg, s, c, proof) {
      DoneForGood(cfg, a, r, v);
    } else if !Confirmed(proof, v) {
      Rejects(cfg, a, r, c, proof, v);
    } else {
      GoodMeansUnspent(s, QuoteOf(s, c), proof, v);
      AdmittedSettles(cfg, s, a, c, proof, v);
    }
  }

  lemma AdmittedSettles(cfg: Config, s: State, a: State, c: nat, proof: PaymentProof, v: Verification)
    requires Known(s, c) && Admitted(cfg, s, c, proof) && Confirmed(proof, v)
    requires a == s.(drill := UsageAfterCheck(cfg.drill, s.drill, s.clock),
                     beta := UsageAfterCheck(cfg.beta, s.beta, s.clock), threads := s.threads + [AwaitVerify(c, proof)])
    ensures var e := Settles(cfg, a, |s.threads|, v);
            if ProofGood(s, QuoteOf(s, c), proof, v, s.clock) then SettledFor(cfg, s, e, c, proof, v)
            else RefusedFor(s, e, c, false)
  {
    var r := |s.threads|;
    if ProofGood(s, QuoteOf(s, c), proof, v, s.clock) {
      assert Awaits(cfg, a, r, c, proof, v);
      AwaitSettles(cfg, a, r, c, proof, v);
      Settlement(cfg, s, a, Settles(cfg, a, r, v), c, proof, v);
    } else {
      Spent(cfg, a, r, c, proof, v);
    }
  }
}
