/**
 * The three paid routes: what a GET does for a commit, for a payment in its headers, and for
 * neither, in every reachable state (x402/src/server.ts).
 */
module PaidRoutes {
  import opened Common
  import opened Types
  import opened Receipts
  import opened Protocol
  import opened Settling
  import opened SingleFinalize
  import RS = ReplayStore
  import A = Affirmations
  import B = Books
  import D = Delivery
  import opened Runs

  // ---- the memo index ------------------------------------------------------------------------------

  /** The index finds, for every memo, the latest quote that has it. */
  ghost predicate Indexed(s: State) {
    && (forall m :: m in s.memoIndex ==> s.memoIndex[m] < |s.quotes| && s.quotes[s.memoIndex[m]].memoHash == m)
    && (forall i :: 0 <= i < |s.quotes| ==>
          s.quotes[i].memoHash in s.memoIndex && i <= s.memoIndex[s.quotes[i].memoHash])
  }

  predicate SameQuotes(s: State, s': State) {
    s'.quotes == s.quotes && s'.memoIndex == s.memoIndex
  }

  lemma IssueIndexes(cfg: Config, s: State, resource: string, p: Price)
    requires Indexed(s)
    ensures Indexed(IssueQuote(cfg, s, resource, p))
  {
  }

  lemma PerformSameQuotes(cfg: Config, s: State, r: nat, f: Effect)
    requires r < |s.threads| && Fits(s, f)
    ensures SameQuotes(s, Perform(cfg, s, r, f))
  {
  }

  lemma OthersSameQuotes(cfg: Config, s: State, e: Event)
    requires !e.AskQuote? && !e.Get? && !e.Verdict? && !e.Resume?
    ensures SameQuotes(s, Step(cfg, s, e))
  {
  }

  lemma GetIndexes(cfg: Config, s: State, resource: string, commit: Option<nat>, compat: Option<CompatRequest>,
                   p: Price)
    requires Indexed(s)
    ensures Indexed(GetResource(cfg, s, resource, commit, compat, p))
  {
    if !(commit.Some? && Deliverable(s, commit.value, resource)) && compat.None? {
      IssueIndexes(cfg, s, resource, p);
    }
  }

  lemma StepIndexed(cfg: Config, s: State, e: Event)
    requires Indexed(s)
    ensures Indexed(Step(cfg, s, e))
  {
    match e
    case AskQuote(resource, p) => IssueIndexes(cfg, s, resource, p);
    case Get(resource, commit, compat, p) => GetIndexes(cfg, s, resource, commit, compat, p);
    case Verdict(r, v, guard) =>
      if r < |s.threads| && Runnable(s, s.threads[r]) {
        PerformSameQuotes(cfg, s, r, OnVerdict(cfg, s, s.threads[r], v, guard));
      }
    case Resume(r, guard) =>
      if r < |s.threads| && Runnable(s, s.threads[r]) {
        PerformSameQuotes(cfg, s, r, OnResume(s, s.threads[r], guard));
      }
    case _ => OthersSameQuotes(cfg, s, e);
  }

  lemma {:induction false} RunIndexed(cfg: Config, start: nat, es: seq<Event>)
    ensures Indexed(Run(cfg, start, es))
  {
    if es != [] {
      RunIndexed(cfg, start, es[..|es| - 1]);
      StepIndexed(cfg, Run(cfg, start, es[..|es| - 1]), es[|es| - 1]);
    }
  }

  // ---- payment demanded -------------------------------------------------------------------------------

  /** The demand for `resource` at time `t`: price, destination, expiry, modes, and the memo of them all. */
  ghost predicate Demands(cfg: Config, q: Quote, id: nat, resource: string, p: Price, t: nat) {
    && q.quoteId == id && q.resource == resource && q.amount == p.amount && q.fee == p.fee
    && q.total == p.amount + p.fee && q.recipient == cfg.recipient && q.mint == cfg.mint
    && q.expiresAt == t + cfg.quoteTtlMs
    && Transfer in q.settlement && Stream in q.settlement && (Netting in q.settlement <==> cfg.nettingEnabled)
    && q.memoHash == cfg.crypto.hash(Decimal(id) + ":" + resource + ":" + Decimal(p.amount + p.fee) + ":" +
                                     Decimal(t + cfg.quoteTtlMs))
    && q.waterfall == p.waterfall && q.split == if p.waterfall then p.split else []
  }

  /** A request without commit or payment is quoted: one new quote, that the index now finds, and nothing else. */
  lemma QuotedExactly(cfg: Config, s: State, resource: string, p: Price)
    ensures var s', n := Step(cfg, s, Get(resource, None, None, p)), |s.quotes|;
            && s' == Step(cfg, s, AskQuote(resource, p))
            && |s'.quotes| == n + 1 && s'.quotes[..n] == s.quotes && Demands(cfg, s'.quotes[n], n, resource, p, s.clock)
            && s' == s.(quotes := s'.quotes, memoIndex := s.memoIndex[s'.quotes[n].memoHash := n],
                        threads := s.threads + [Done(Quoted(n))])
  {
  }

  // ---- payment in the headers --------------------------------------------------------------------------

  /** Quote `i` is the latest with the memo of the header, lives, and has exactly the terms of the header. */
  ghost predicate Meets(s: State, req: CompatRequest, resource: string, i: nat) {
    && i < |s.quotes| && req.memo == s.quotes[i].memoHash
    && (forall j :: i < j < |s.quotes| ==> s.quotes[j].memoHash != req.memo)
    && resource == s.quotes[i].resource && req.recipient == s.quotes[i].recipient && req.amount == s.quotes[i].total
    && (req.mint.None? || req.mint.value == "" || req.mint.value == s.quotes[i].mint)
    && s.clock < s.quotes[i].expiresAt
  }

  predicate Unprocessable(req: CompatRequest) {
    !req.supported || req.amount == 0 || |req.recipient| < 16
  }

  predicate Overdue(req: CompatRequest, now: nat) {
    req.expiresAt.Some? && req.expiresAt.value != 0 && req.expiresAt.value < now
  }

  /** The header carries a transaction signature, or some other proof. */
  predicate HasProof(req: CompatRequest) {
    (req.txSig.Some? && req.txSig.value != "") || req.blob != ""
  }

  /** What becomes of a payment in the headers. */
  ghost predicate HeaderTaken(s: State, s': State, resource: string, req: CompatRequest) {
    && |s'.threads| == |s.threads| + 1
    && var t := s'.threads[|s.threads|];
       && s' == s.(threads := s.threads + [t])
       && (forall i: nat :: t.CompatVerify? && t.q == i <==>
             && !Unprocessable(req) && !Overdue(req, s.clock) && HasProof(req) && req.consistent
             && req.memo != "" && Meets(s, req, resource, i))
       && (t.CompatVerify? ==>
             && t.url == req.url && t.blob == req.blob
             && t.txSig == if req.txSig.Some? && req.txSig.value != "" && !req.evm then req.txSig else None)
       && (!t.CompatVerify? ==> t == Done(Refused(
             if Unprocessable(req) then 422 else if !Overdue(req, s.clock) && !HasProof(req) then 400 else 409)))
  }

  /**
   * In every reachable state a payment in the headers reaches the verifier for quote `i` if and
   * only if the header is processable, not overdue, carries a proof consistent with it and a memo,
   * and meets quote `i`: its memo, resource, recipient and total, its mint if one is named, and
   * the quote has not expired. Any other is refused: 422 if it is not processable, 400 if it has
   * no proof, 409 otherwise. Nothing else changes.
   */
  lemma HeaderReachesExactly(cfg: Config, start: nat, s: State, resource: string, req: CompatRequest, p: Price)
    requires Reachable(cfg, start, s)
    ensures HeaderTaken(s, Step(cfg, s, Get(resource, None, Some(req), p)), resource, req)
  {
    ReachableIndexed(cfg, start, s);
    TakesHeader(cfg, s, resource, req, p);
  }

  lemma ReachableIndexed(cfg: Config, start: nat, s: State)
    requires Reachable(cfg, start, s)
    ensures Indexed(s)
  {
    var es :| s == Run(cfg, start, es);
    RunIndexed(cfg, start, es);
  }

  lemma TakesHeader(cfg: Config, s: State, resource: string, req: CompatRequest, p: Price)
    requires Indexed(s)
    ensures HeaderTaken(s, Step(cfg, s, Get(resource, None, Some(req), p)), resource, req)
  {
    FindsLatest(s, resource, req);
    assert Step(cfg, s, Get(resource, None, Some(req), p)) == StartCompat(s, resource, req);
  }

  lemma FindsLatest(s: State, resource: string, req: CompatRequest)
    requires Indexed(s)
    ensures forall i: nat :: FindIssuedQuote(s, req, resource) == Some(i) <==>
      req.memo != "" && Meets(s, req, resource, i)
  {
    forall i: nat
      ensures FindIssuedQuote(s, req, resource) == Some(i) <==> req.memo != "" && Meets(s, req, resource, i)
    {
      if req.memo != "" && Meets(s, req, resource, i) {
        assert i <= s.memoIndex[req.memo];
      }
    }
  }

  // ---- and served --------------------------------------------------------------------------------------

  /** The transfer is good: accepted, canonical, and none of its keys is claimed. */
  predicate TransferGood(s: State, q: Quote, sig: string, v: Verification) {
    && v.ok && v.txSignature.Some? && v.txSignature.value != ""
    && NameUnused(s, q, "transfer", v.txSignature.value, sig)
    && NameUnused(s, q, "transfer", v.txSignature.value, v.txSignature.value)
  }

  /** The request was served with the next receipt, whose payer is the hash of `text`. */
  ghost predicate ServedFor(cfg: Config, s: State, e: State, r: nat, q: Quote, url: string, mode: Settlement,
                            v: Verification, text: string)
    requires r < |s.threads|
  {
    && |e.receipts| == |s.receipts| + 1 && e.receipts[..|s.receipts|] == s.receipts
    && e.receipts[|s.receipts|].issuer == r
    && States(cfg, s, e.receipts[|s.receipts|].signed, q, Synthetic(r), cfg.crypto.hash(text), url, mode, v)
    && e.receipts[|s.receipts|].signed.payload.splitProofs.None?
    && e.threads == s.threads[r := Done(Served(Synthetic(r), |s.receipts|))]
    && e.commits == s.commits && e.quotes == s.quotes && e.drill == s.drill && e.beta == s.beta
  }

  ghost predicate NotServed(s: State, e: State, r: nat)
    requires r < |s.threads|
  {
    && |e.threads| == |s.threads| && e.threads == s.threads[r := e.threads[r]]
    && e.threads[r].Done? && e.threads[r].reply.Refused?
    && e.receipts == s.receipts && e.commits == s.commits && e.signed == s.signed
  }

  /** The verdict on request `r`, and what follows it. */
  function Judgement(cfg: Config, s: State, r: nat, v: Verification): State {
    Step(cfg, Step(cfg, Step(cfg, Step(cfg, s, Verdict(r, v, Pass)), Resume(r, Pass)), Resume(r, Pass)),
         Resume(r, Pass))
  }

  lemma Serves(cfg: Config, s: State, d: State, r: nat, q: nat, url: string, txSig: Option<string>, v: Verification,
               text: string)
    requires Alone(s, d, r) && q < |s.quotes|
    ensures ServedFor(cfg, s, Perform(cfg, d, r, Serve(q, url, txSig, v, text, Pass)), r, s.quotes[q], url,
                      CompatProof(txSig).Mode(), v, text)
  {
    SignedStates(cfg, d, s.quotes[q], Synthetic(r), cfg.crypto.hash(text), url, CompatProof(txSig).Mode(), v, None);
  }

  lemma OpaqueJudged(cfg: Config, s: State, r: nat, v: Verification)
    requires r < |s.threads| && s.threads[r].CompatVerify? && s.threads[r].q < |s.quotes| && s.threads[r].txSig.None?
    ensures var t, e := s.threads[r], Judgement(cfg, s, r, v);
            if cfg.nettingEnabled then ServedFor(cfg, s, e, r, s.quotes[t.q], t.url, Netting, OPAQUE, t.blob)
            else NotServed(s, e, r)
  {
    var t := s.threads[r];
    Settling.Answers(cfg, s, r, v);
    var e := Step(cfg, s, Verdict(r, v, Pass));
    if cfg.nettingEnabled {
      Serves(cfg, s, s, r, t.q, t.url, None, Judged(cfg, NettingProof, v), t.blob);
    }
    DoneForGood(cfg, e, r, v);
  }

  /** The state after a claim of request `r`: nobody else is touched. */
  lemma ClaimsKey(cfg: Config, s: State, d: State, r: nat, key: RS.ReplayKey, t: Thread)
    requires Alone(s, d, r)
    ensures var e := Perform(cfg, d, r, Claim(key, t));
            Alone(s, e, r) && e.threads[r] == t && e.seen == RS.Claim(d.seen, key, d.clock, cfg.replayTtlMs)
  {
  }

  lemma TransferJudged(cfg: Config, s: State, r: nat, v: Verification)
    requires r < |s.threads| && s.threads[r].CompatVerify? && s.threads[r].q < |s.quotes| && s.threads[r].txSig.Some?
    ensures var t, e := s.threads[r], Judgement(cfg, s, r, v);
            var q := s.quotes[t.q];
            if TransferGood(s, q, t.txSig.value, v)
            then ServedFor(cfg, s, e, r, q, t.url, Transfer, v, v.txSignature.value)
            else NotServed(s, e, r)
  {
    var t := s.threads[r];
    Settling.Answers(cfg, s, r, v);
    var a := Step(cfg, s, Verdict(r, v, Pass));
    if v.ok && Present(v.txSignature) {
      var key := GlobalKey("transfer", v.txSignature.value);
      assert a == Perform(cfg, s, r, Claim(key, CompatGlobal(t.q, t.url, t.txSig, v, Free(s, key))));
      ClaimsKey(cfg, s, s, r, key, CompatGlobal(t.q, t.url, t.txSig, v, Free(s, key)));
      GlobalJudged(cfg, s, a, r, t, v);
    } else {
      DoneForGood(cfg, a, r, v);
    }
  }

  lemma GlobalJudged(cfg: Config, s: State, a: State, r: nat, t: Thread, v: Verification)
    requires r < |s.threads| && t == s.threads[r] && t.CompatVerify? && t.q < |s.quotes| && t.txSig.Some?
    requires v.ok && Present(v.txSignature) && Alone(s, a, r)
    requires var key := GlobalKey("transfer", v.txSignature.value);
             && a.threads[r] == CompatGlobal(t.q, t.url, t.txSig, v, Free(s, key))
             && a.seen == RS.Claim(s.seen, key, s.clock, cfg.replayTtlMs)
    ensures var e := Step(cfg, Step(cfg, Step(cfg, a, Resume(r, Pass)), Resume(r, Pass)), Resume(r, Pass));
            var q := s.quotes[t.q];
            if TransferGood(s, q, t.txSig.value, v)
            then ServedFor(cfg, s, e, r, q, t.url, Transfer, v, v.txSignature.value)
            else NotServed(s, e, r)
  {
    var q := s.quotes[t.q];
    Resumes(cfg, a, r);
    var b := Step(cfg, a, Resume(r, Pass));
    if Free(s, GlobalKey("transfer", v.txSignature.value)) {
      var key := ScopedKey(t.txSig.value, q.total, q.recipient, q.mint);
      assert b == Perform(cfg, a, r, Claim(key, CompatScoped(t.q, t.url, t.txSig, v, Free(a, key))));
      ClaimsKey(cfg, s, a, r, key, CompatScoped(t.q, t.url, t.txSig, v, Free(a, key)));
      assert Free(a, key) <==> Free(s, key);
      var canonical := ScopedKey(v.txSignature.value, q.total, q.recipient, q.mint);
      assert canonical != key && Free(s, key) ==> (Free(b, canonical) <==> Free(s, canonical));
      ScopedJudged(cfg, s, b, r, t, v);
    } else {
      DoneForGood(cfg, b, r, v);
    }
  }

  lemma ScopedJudged(cfg: Config, s: State, b: State, r: nat, t: Thread, v: Verification)
    requires r < |s.threads| && t == s.threads[r] && t.CompatVerify? && t.q < |s.quotes| && t.txSig.Some?
    requires v.ok && Present(v.txSignature) && Alone(s, b, r) && Free(s, GlobalKey("transfer", v.txSignature.value))
    requires var q := s.quotes[t.q];
             var key, canonical := ScopedKey(t.txSig.value, q.total, q.recipient, q.mint),
               ScopedKey(v.txSignature.value, q.total, q.recipient, q.mint);
             && b.threads[r] == CompatScoped(t.q, t.url, t.txSig, v, Free(s, key))
             && (canonical != key && Free(s, key) ==> (Free(b, canonical) <==> Free(s, canonical)))
    ensures var e := Step(cfg, Step(cfg, b, Resume(r, Pass)), Resume(r, Pass));
            var q := s.quotes[t.q];
            if TransferGood(s, q, t.txSig.value, v)
            then ServedFor(cfg, s, e, r, q, t.url, Transfer, v, v.txSignature.value)
            else NotServed(s, e, r)
  {
    var q := s.quotes[t.q];
    Resumes(cfg, b, r);
    var d := Step(cfg, b, Resume(r, Pass));
    if Free(s, ScopedKey(t.txSig.value, q.total, q.recipient, q.mint)) && t.txSig != v.txSignature {
      var key := ScopedKey(v.txSignature.value, q.total, q.recipient, q.mint);
      assert d == Perform(cfg, b, r, Claim(key, CompatCanonical(t.q, t.url, t.txSig, v, Free(b, key))));
      ClaimsKey(cfg, s, b, r, key, CompatCanonical(t.q, t.url, t.txSig, v, Free(b, key)));
      CanonicalJudged(cfg, s, d, r, t, v);
    } else {
      if Free(s, ScopedKey(t.txSig.value, q.total, q.recipient, q.mint)) {
        Serves(cfg, s, b, r, t.q, t.url, t.txSig, v, v.txSignature.value);
      }
      DoneForGood(cfg, d, r, v);
    }
  }

  lemma CanonicalJudged(cfg: Config, s: State, d: State, r: nat, t: Thread, v: Verification)
    requires r < |s.threads| && t == s.threads[r] && t.CompatVerify? && t.q < |s.quotes| && t.txSig.Some?
    requires Present(v.txSignature) && Alone(s, d, r) && d.threads[r].CompatCanonical?
    requires d.threads[r] == CompatCanonical(t.q, t.url, t.txSig, v, d.threads[r].granted)
    ensures var e := Step(cfg, d, Resume(r, Pass));
            if d.threads[r].granted then ServedFor(cfg, s, e, r, s.quotes[t.q], t.url, Transfer, v, v.txSignature.value)
            else NotServed(s, e, r)
  {
    Resumes(cfg, d, r);
    if d.threads[r].granted {
      Serves(cfg, s, d, r, t.q, t.url, t.txSig, v, v.txSignature.value);
    }
  }

  /**
   * A header payment at the verifier, left alone, is served if and only if its transfer is good,
   * or it is an opaque proof and netting is enabled. Its receipt is signed, next in the chain, and
   * states the quote, the transfer, this very request, and the body that is delivered.
   */
  lemma HeaderServedExactly(cfg: Config, s: State, r: nat, v: Verification)
    requires r < |s.threads| && s.threads[r].CompatVerify? && s.threads[r].q < |s.quotes|
    ensures var t, e := s.threads[r], Judgement(cfg, s, r, v);
            var q := s.quotes[t.q];
            match t.txSig
            case Some(sig) =>
              if TransferGood(s, q, sig, v) then ServedFor(cfg, s, e, r, q, t.url, Transfer, v, v.txSignature.value)
              else NotServed(s, e, r)
            case None =>
              if cfg.nettingEnabled then ServedFor(cfg, s, e, r, q, t.url, Netting, OPAQUE, t.blob)
              else NotServed(s, e, r)
  {
    if s.threads[r].txSig.Some? {
      TransferJudged(cfg, s, r, v);
    } else {
      OpaqueJudged(cfg, s, r, v);
    }
  }

  /** The whole call, from every reachable state and left alone: which header payments are served. */
  lemma HeaderPaysExactly(cfg: Config, start: nat, s: State, resource: string, req: CompatRequest, p: Price,
                          v: Verification, i: nat)
    requires Reachable(cfg, start, s)
    requires !Unprocessable(req) && !Overdue(req, s.clock) && HasProof(req) && req.consistent
    requires req.memo != "" && Meets(s, req, resource, i)
    ensures var g, r := Step(cfg, s, Get(resource, None, Some(req), p)), |s.threads|;
            var e := Judgement(cfg, g, r, v);
            && r < |g.threads|
            && if req.txSig.Some? && req.txSig.value != "" && !req.evm then
                 if TransferGood(s, s.quotes[i], req.txSig.value, v)
                 then ServedFor(cfg, g, e, r, s.quotes[i], req.url, Transfer, v, v.txSignature.value)
                 else NotServed(g, e, r)
               else if cfg.nettingEnabled then ServedFor(cfg, g, e, r, s.quotes[i], req.url, Netting, OPAQUE, req.blob)
               else NotServed(g, e, r)
  {
    HeaderReachesExactly(cfg, start, s, resource, req, p);
    HeaderServedExactly(cfg, Step(cfg, s, Get(resource, None, Some(req), p)), |s.threads|, v);
  }

  /** The header repeats the terms of the demand that is made at time `t` under id `id`. */
  ghost predicate Repeats(cfg: Config, req: CompatRequest, id: nat, resource: string, p: Price, t: nat) {
    && req.memo == cfg.crypto.hash(Decimal(id) + ":" + resource + ":" + Decimal(p.amount + p.fee) + ":" +
                                   Decimal(t + cfg.quoteTtlMs))
    && req.recipient == cfg.recipient && req.amount == p.amount + p.fee && req.mint == Some(cfg.mint)
  }

  /** The state after the demand and a pause. */
  function AskedAndPaused(cfg: Config, s: State, resource: string, p: Price, pause: nat): State {
    Step(cfg, Step(cfg, s, Get(resource, None, None, p)), Tick(pause))
  }

  /** A demand can be met: while it lives, a header that repeats its terms reaches the verifier for its quote. */
  lemma DemandCanBeMet(cfg: Config, start: nat, s: State, resource: string, p: Price, pause: nat, req: CompatRequest)
    requires Reachable(cfg, start, s)
    requires pause < cfg.quoteTtlMs && Repeats(cfg, req, |s.quotes|, resource, p, s.clock)
    requires !Unprocessable(req) && !Overdue(req, s.clock + pause) && HasProof(req) && req.consistent && req.memo != ""
    ensures var t := AskedAndPaused(cfg, s, resource, p, pause);
            var s' := Step(cfg, t, Get(resource, None, Some(req), p));
            && |s'.threads| == |t.threads| + 1 && s'.threads[|t.threads|].CompatVerify?
            && s'.threads[|t.threads|].q == |s.quotes|
  {
    ReachableIndexed(cfg, start, s);
    DemandMet(cfg, s, resource, p, pause, req);
  }

  lemma DemandMet(cfg: Config, s: State, resource: string, p: Price, pause: nat, req: CompatRequest)
    requires Indexed(s) && pause < cfg.quoteTtlMs && Repeats(cfg, req, |s.quotes|, resource, p, s.clock)
    requires !Unprocessable(req) && !Overdue(req, s.clock + pause) && HasProof(req) && req.consistent && req.memo != ""
    ensures var t := AskedAndPaused(cfg, s, resource, p, pause);
            var s' := Step(cfg, t, Get(resource, None, Some(req), p));
            && |s'.threads| == |t.threads| + 1 && s'.threads[|t.threads|].CompatVerify?
            && s'.threads[|t.threads|].q == |s.quotes|
  {
    var t := AskedAndPaused(cfg, s, resource, p, pause);
    QuotedExactly(cfg, s, resource, p);
    StepIndexed(cfg, s, Get(resource, None, None, p));
    StepIndexed(cfg, Step(cfg, s, Get(resource, None, None, p)), Tick(pause));
    MeetsDemand(cfg, s, t, resource, p, pause, req);
    TakesHeader(cfg, t, resource, req, p);
  }

  lemma MeetsDemand(cfg: Config, s: State, t: State, resource: string, p: Price, pause: nat, req: CompatRequest)
    requires |t.quotes| == |s.quotes| + 1 && t.clock == s.clock + pause && pause < cfg.quoteTtlMs
    requires Demands(cfg, t.quotes[|s.quotes|], |s.quotes|, resource, p, s.clock)
    requires Repeats(cfg, req, |s.quotes|, resource, p, s.clock)
    ensures Meets(t, req, resource, |s.quotes|)
  {
  }

  // ---- delivery for a commit ------------------------------------------------------------------------------

  /** A delivery of commit `c` is under way, has succeeded, or failed without giving the token back. */
  predicate Delivered(t: Thread, c: nat) {
    match t
    case Delivering(d, _) => d == c
    case Done(Served(Stored(d), _)) => d == c
    case Done(ServeFailed(d, _, restored)) => d == c && !restored
    case _ => false
  }

  /** The commit is finalized for this very resource, and no delivery of it is under way or has used it up. */
  ghost predicate Redeemable(s: State, c: nat, resource: string) {
    && c < |s.commits| && s.commits[c].quoteId < |s.quotes| && s.quotes[s.commits[c].quoteId].resource == resource
    && s.commits[c].status == Finalized && s.commits[c].receiptId.Some?
    && forall r :: 0 <= r < |s.threads| ==> !Delivered(s.threads[r], c)
  }

  /** The delivery of commit `c` that request `|s.threads|` begins. */
  ghost predicate BeginsDelivery(s: State, s': State, c: nat, resource: string)
    requires c < |s.commits| && s.commits[c].receiptId.Some?
  {
    var x := s.commits[c].receiptId.value;
    && x < |s.receipts| && s.receipts[x].signed.payload.commitId == Stored(c)
    && s.receipts[x].signed.payload.resource == resource && s.receipts[x].signed.payload.payer == s.commits[c].payer
    && s' == s.(commits := s.commits[c := s.commits[c].(consumedAt := Some(s.clock))],
                threads := s.threads + [Delivering(c, x)])
  }

  /**
   * In every reachable state a GET that names a commit is delivered to if and only if the commit
   * is finalized for that resource and no delivery of it is under way or has used it up; what is
   * handed out is then the receipt of that commit, for that resource and its payer. Otherwise the
   * commit makes no difference.
   */
  lemma DeliversExactly(cfg: Config, start: nat, s: State, resource: string, c: nat, compat: Option<CompatRequest>,
                        p: Price)
    requires Reachable(cfg, start, s)
    ensures var s' := Step(cfg, s, Get(resource, Some(c), compat, p));
            if Redeemable(s, c, resource) then BeginsDelivery(s, s', c, resource)
            else s' == Step(cfg, s, Get(resource, None, compat, p))
  {
    var es :| s == Run(cfg, start, es);
    D.RunLinks(cfg, start, es);
    D.RunTokens(cfg, start, es);
    A.RunHeard(cfg, start, es);
    B.ReceiptsStateIssuedTerms(cfg, start, es);
    Delivers(cfg, s, A.Answers(cfg, start, es), resource, c, compat, p);
  }

  lemma Delivers(cfg: Config, s: State, h: seq<A.Answer>, resource: string, c: nat, compat: Option<CompatRequest>,
                 p: Price)
    requires D.AllLinked(s) && D.Tokens(s) && A.Heard(cfg, s, h) && B.TermsIssued(s)
    ensures var s' := Step(cfg, s, Get(resource, Some(c), compat, p));
            if Redeemable(s, c, resource) then BeginsDelivery(s, s', c, resource)
            else s' == Step(cfg, s, Get(resource, None, compat, p))
  {
    RedeemableMeans(s, c, resource);
    if Deliverable(s, c, resource) {
      RightReceipt(cfg, s, h, c);
    }
  }

  lemma RedeemableMeans(s: State, c: nat, resource: string)
    requires D.AllLinked(s) && D.Tokens(s)
    ensures Redeemable(s, c, resource) <==> Deliverable(s, c, resource)
  {
    assert forall r :: 0 <= r < |s.threads| ==> (Delivered(s.threads[r], c) <==> D.Holds(s.threads[r]) == Some(c));
    if c < |s.commits| {
      assert s.commits[c].consumedAt.Some? <==> D.Held(s, c);
    }
  }

  /** The receipt of a commit is for the commit's quote and payer. */
  lemma RightReceipt(cfg: Config, s: State, h: seq<A.Answer>, c: nat)
    requires D.AllLinked(s) && A.Heard(cfg, s, h) && B.TermsIssued(s)
    requires c < |s.commits| && s.commits[c].receiptId.Some?
    ensures var x := s.commits[c].receiptId.value;
            && x < |s.receipts| && s.receipts[x].signed.payload.commitId == Stored(c) && Known(s, c)
            && s.receipts[x].signed.payload.resource == QuoteOf(s, c).resource
            && s.receipts[x].signed.payload.payer == s.commits[c].payer
  {
    var x := s.commits[c].receiptId.value;
    assert D.ReceiptFor(s, x, c);
    assert A.PayloadHeard(cfg, s, h, s.receipts[x].issuer, s.receipts[x].signed.payload, x);
  }
}
