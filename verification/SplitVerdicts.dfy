/**
 * A whole direct-split request that nobody interrupts, from its finalize call over the verdicts
 * on its lines to its receipt: it settles exactly if it is payable (x402/src/server.ts).
 */
module SplitVerdicts {
  import opened Common
  import opened Types
  import opened Protocol
  import opened DirectSplit
  import opened Settling
  import opened Receipts
  import opened SingleFinalize
  import R = SplitRuns
  import RS = ReplayStore

  // ---- the verdicts --------------------------------------------------------------------------------

  /** The verifier answers request `r` line by line, `k` times. */
  function Told(cfg: Config, s: State, r: nat, answers: Answers, k: nat): State {
    if k == 0 then s else Step(cfg, Told(cfg, s, r, answers, k - 1), Verdict(r, answers(k - 1), Pass))
  }

  /** The first `k` lines are proved, and the next one, if there is one, has a transfer proof. */
  predicate OnTrack(q: Quote, proofs: map<string, PaymentProof>, answers: Answers, k: nat)
    requires k <= |q.split|
  {
    Proved(q, proofs, answers, k) && (k < |q.split| ==> HasTransfer(q, proofs, k))
  }

  function Failed(commit: Commit): Commit {
    commit.(status := Protocol.Failed)
  }

  /** Where `k` verdicts lead. */
  ghost predicate Tells(s: State, e: State, r: nat, c: nat, proofs: map<string, PaymentProof>, answers: Answers, k: nat)
    requires r < |s.threads| && Known(s, c) && k <= |QuoteOf(s, c).split| && QuoteOf(s, c).split != []
  {
    var q := QuoteOf(s, c);
    if !OnTrack(q, proofs, answers, k) then Stopped(s, e, r, c, proofs, answers)
    else
      var lines := LinesOf(q, proofs, answers, k);
      if k < |q.split| then e == s.(threads := s.threads[r := SplitVerify(c, proofs, lines)])
      else e == s.(seen := RS.Cleanup(s.seen, s.clock),
                   threads := s.threads[r := SplitCheck(c, lines, 0, false, !Free(s, LineKey(lines[0])))])
  }

  /** The request is refused; the commit has failed exactly if the verifier turned a line down. */
  ghost predicate Stopped(s: State, e: State, r: nat, c: nat, proofs: map<string, PaymentProof>, answers: Answers)
    requires r < |s.threads| && Known(s, c)
  {
    && |e.threads| == |s.threads| && e.threads[r].Done? && e.threads[r].reply.Refused?
    && e == s.(commits := if Denied(QuoteOf(s, c), proofs, answers) then s.commits[c := Failed(s.commits[c])]
                          else s.commits,
               threads := s.threads[r := e.threads[r]])
  }

  lemma NextVerdict(cfg: Config, s: State, e: State, r: nat, c: nat, proofs: map<string, PaymentProof>,
                    answers: Answers, k: nat)
    requires r < |s.threads| && Known(s, c) && k < |QuoteOf(s, c).split|
    requires OnTrack(QuoteOf(s, c), proofs, answers, k) && Tells(s, e, r, c, proofs, answers, k)
    ensures Tells(s, Step(cfg, e, Verdict(r, answers(k), Pass)), r, c, proofs, answers, k + 1)
  {
    var q := QuoteOf(s, c);
    var lines := LinesOf(q, proofs, answers, k);
    Settling.Answers(cfg, e, r, answers(k));
    ProvedStep(q, proofs, answers, k);
    if Proved(q, proofs, answers, k + 1) {
      if k + 1 < |q.split| {
        ProvedStep(q, proofs, answers, k + 1);
        if !HasTransfer(q, proofs, k + 1) {
          StopDecides(q, proofs, answers, k + 1);
        }
      }
    } else {
      StopDecides(q, proofs, answers, k);
    }
  }

  lemma StoppedStays(cfg: Config, s: State, e: State, r: nat, c: nat, proofs: map<string, PaymentProof>,
                     answers: Answers, v: Verification)
    requires r < |s.threads| && Known(s, c) && Stopped(s, e, r, c, proofs, answers)
    ensures Step(cfg, e, Verdict(r, v, Pass)) == e
  {
    Settling.Answers(cfg, e, r, v);
  }

  lemma StoppedTells(s: State, e: State, r: nat, c: nat, proofs: map<string, PaymentProof>, answers: Answers, k: nat)
    requires r < |s.threads| && Known(s, c) && 0 < k <= |QuoteOf(s, c).split|
    requires !OnTrack(QuoteOf(s, c), proofs, answers, k - 1) && Stopped(s, e, r, c, proofs, answers)
    ensures Tells(s, e, r, c, proofs, answers, k)
  {
    var q := QuoteOf(s, c);
    if Proved(q, proofs, answers, k) {
      assert HasTransfer(q, proofs, k - 1) && Proved(q, proofs, answers, k - 1);
    }
  }

  lemma NothingTold(s: State, r: nat, c: nat, proofs: map<string, PaymentProof>, answers: Answers)
    requires r < |s.threads| && s.threads[r] == SplitVerify(c, proofs, []) && Known(s, c)
    requires QuoteOf(s, c).split != [] && HasTransfer(QuoteOf(s, c), proofs, 0)
    ensures Tells(s, s, r, c, proofs, answers, 0)
  {
    assert s.threads[r := s.threads[r]] == s.threads;
  }

  lemma {:induction false} ToldTells(cfg: Config, s: State, r: nat, c: nat, proofs: map<string, PaymentProof>,
                                     answers: Answers, k: nat)
    requires r < |s.threads| && s.threads[r] == SplitVerify(c, proofs, []) && Known(s, c)
    requires k <= |QuoteOf(s, c).split| && QuoteOf(s, c).split != [] && HasTransfer(QuoteOf(s, c), proofs, 0)
    ensures Tells(s, Told(cfg, s, r, answers, k), r, c, proofs, answers, k)
  {
    if k == 0 {
      NothingTold(s, r, c, proofs, answers);
    } else {
      var e := Told(cfg, s, r, answers, k - 1);
      ToldTells(cfg, s, r, c, proofs, answers, k - 1);
      if OnTrack(QuoteOf(s, c), proofs, answers, k - 1) {
        NextVerdict(cfg, s, e, r, c, proofs, answers, k - 1);
      } else {
        StoppedStays(cfg, s, e, r, c, proofs, answers, answers(k - 1));
        StoppedTells(s, e, r, c, proofs, answers, k);
      }
    }
  }

  /**
   * The verdicts on all lines of a split, from the first one on and with nothing in between, take
   * the request to the look at its keys if and only if every line has a transfer proof that is
   * accepted under a signature of its own; it then carries exactly these lines. Otherwise it is
   * refused, and the commit fails if and only if the verifier turned a line down.
   */
  lemma VerdictsExactly(cfg: Config, s: State, r: nat, c: nat, proofs: map<string, PaymentProof>, answers: Answers)
    requires r < |s.threads| && s.threads[r] == SplitVerify(c, proofs, []) && Known(s, c)
    requires QuoteOf(s, c).split != [] && HasTransfer(QuoteOf(s, c), proofs, 0)
    ensures var q := QuoteOf(s, c);
            var n := |q.split|;
            var e := Told(cfg, s, r, answers, n);
            && |e.threads| == |s.threads| && (e.threads[r].SplitCheck? <==> Proved(q, proofs, answers, n))
            && if Proved(q, proofs, answers, n) then
                 var lines := LinesOf(q, proofs, answers, n);
                 e == s.(seen := RS.Cleanup(s.seen, s.clock),
                         threads := s.threads[r := SplitCheck(c, lines, 0, false, !Free(s, LineKey(lines[0])))])
               else Stopped(s, e, r, c, proofs, answers)
  {
    ToldTells(cfg, s, r, c, proofs, answers, |QuoteOf(s, c).split|);
  }

  // ---- the receipt -------------------------------------------------------------------------------------

  function SplitPayload(cfg: Config, s: State, c: nat, lines: seq<SplitLine>): ReceiptPayload
    requires Known(s, c) && AllVerified(lines) && lines != []
  {
    FinalizePayload(cfg, s, c, Transfer, PrimaryVerification(lines), Some(SplitProofsOf(lines)))
  }

  /** The receipt is stored, the commit completed, and the total counted, once. */
  ghost predicate Issued(cfg: Config, g: State, d: State, r: nat, c: nat, lines: seq<SplitLine>)
    requires r < |g.threads| && Known(g, c) && AllVerified(lines) && lines != []
  {
    && d.receipts == g.receipts +
         [Protocol.Issued(SignReceipt(cfg.crypto, g.prevHash, SplitPayload(cfg, g, c, lines)), r)]
    && d.commits == g.commits[c := Sealed(g.commits[c], |g.receipts|, Transfer)]
    && d.threads == g.threads[r := Done(FinalizeOk(c, |g.receipts|))]
    && d.quotes == g.quotes && d.seen == g.seen && d.clock == g.clock
    && d.drill == UsageAfterRecord(cfg.drill, g.drill, QuoteOf(g, c).total, g.clock)
    && d.beta == UsageAfterRecord(cfg.beta, g.beta, QuoteOf(g, c).total, g.clock)
  }

  function Twice(cfg: Config, s: State, r: nat): State {
    Step(cfg, Step(cfg, s, Resume(r, Pass)), Resume(r, Pass))
  }

  /** The receipt is stored and counted; with a waterfall the commit still waits for the fee ledger. */
  ghost predicate Kept(cfg: Config, g: State, d: State, r: nat, c: nat, lines: seq<SplitLine>)
    requires r < |g.threads| && Known(g, c) && AllVerified(lines) && lines != []
  {
    var n, ledger := |g.receipts|, QuoteOf(g, c).waterfall;
    && d.receipts == g.receipts +
         [Protocol.Issued(SignReceipt(cfg.crypto, g.prevHash, SplitPayload(cfg, g, c, lines)), r)]
    && d.commits == (if ledger then g.commits else g.commits[c := Sealed(g.commits[c], n, Transfer)])
    && d.threads == g.threads[r := if ledger then AwaitLedger(c, n, Transfer) else Done(FinalizeOk(c, n))]
    && d.quotes == g.quotes && d.seen == g.seen && d.clock == g.clock
    && d.drill == UsageAfterRecord(cfg.drill, g.drill, QuoteOf(g, c).total, g.clock)
    && d.beta == UsageAfterRecord(cfg.beta, g.beta, QuoteOf(g, c).total, g.clock)
  }

  lemma SplitStores(cfg: Config, g: State, r: nat, c: nat, lines: seq<SplitLine>)
    requires r < |g.threads| && Known(g, c) && g.threads[r] == SplitReturn(c, lines)
    requires AllVerified(lines) && lines != [] && lines[Primary(lines)].proof.TransferProof?
    ensures Kept(cfg, g, Step(cfg, g, Resume(r, Pass)), r, c, lines)
  {
    Resumes(cfg, g, r);
    assert Step(cfg, g, Resume(r, Pass)) ==
           IssueFinalize(cfg, g, r, c, Transfer, PrimaryVerification(lines), Some(SplitProofsOf(lines)), Pass);
  }

  lemma SplitCompletes(cfg: Config, g: State, d: State, r: nat, c: nat, lines: seq<SplitLine>)
    requires r < |g.threads| && Known(g, c) && AllVerified(lines) && lines != []
    requires Kept(cfg, g, d, r, c, lines)
    ensures Issued(cfg, g, Step(cfg, d, Resume(r, Pass)), r, c, lines)
  {
    Resumes(cfg, d, r);
  }

  lemma SplitIssues(cfg: Config, g: State, r: nat, c: nat, lines: seq<SplitLine>)
    requires r < |g.threads| && Known(g, c) && g.threads[r] == SplitReturn(c, lines)
    requires AllVerified(lines) && lines != [] && lines[Primary(lines)].proof.TransferProof?
    ensures Issued(cfg, g, Twice(cfg, g, r), r, c, lines)
  {
    SplitStores(cfg, g, r, c, lines);
    SplitCompletes(cfg, g, Step(cfg, g, Resume(r, Pass)), r, c, lines);
  }

  // ---- the whole request ---------------------------------------------------------------------------------

  /** The finalize call for a split gets as far as its lines. */
  predicate SplitOpen(cfg: Config, s: State, c: nat, items: seq<(string, PaymentProof)>)
    requires Known(s, c)
  {
    && s.clock < QuoteOf(s, c).expiresAt && items != []
    && Within(cfg.drill, s.drill, QuoteOf(s, c).total, s.clock)
    && Within(cfg.beta, s.beta, QuoteOf(s, c).total, s.clock)
  }

  function Begun(cfg: Config, s: State, c: nat, proof: Option<PaymentProof>, items: seq<(string, PaymentProof)>)
    : State
  {
    Step(cfg, s, PostFinalize(c, proof, items))
  }

  /** The request waits for its first line, or is refused at once. */
  lemma SplitBegins(cfg: Config, s: State, c: nat, proof: Option<PaymentProof>, items: seq<(string, PaymentProof)>)
    requires Known(s, c) && Unanswered(s, c) && QuoteOf(s, c).split != []
    ensures var e, r := Begun(cfg, s, c, proof, items), |s.threads|;
            && |e.threads| == |s.threads| + 1
            && e == s.(drill := e.drill, beta := e.beta, threads := s.threads + [e.threads[r]])
            && if SplitOpen(cfg, s, c, items) && NoRepeats(items) &&
                    HasTransfer(QuoteOf(s, c), ByFeeLine(items), 0) then
                 && e.threads[r] == SplitVerify(c, ByFeeLine(items), [])
                 && e.drill == UsageAfterCheck(cfg.drill, s.drill, s.clock)
                 && e.beta == UsageAfterCheck(cfg.beta, s.beta, s.clock)
               else e.threads[r].Done? && e.threads[r].reply.Refused?
  {
  }

  /** Receipt, commit and counters once the lines have been paid, and exactly their keys claimed. */
  ghost predicate SettledWith(cfg: Config, s: State, f: State, c: nat, lines: seq<SplitLine>)
    requires Known(s, c) && AllVerified(lines) && lines != []
  {
    var q, t, n, main := QuoteOf(s, c), s.clock, |s.receipts|, lines[Primary(lines)].v;
    && |f.receipts| == n + 1 && f.receipts[..n] == s.receipts && f.receipts[n].issuer == |s.threads|
    && States(cfg, s, f.receipts[n].signed, q, Stored(c), s.commits[c].payer, q.resource, Transfer,
              Verification(true, main.settledOnchain, main.txSignature, None))
    && f.receipts[n].signed.payload.splitProofs == Some(SplitProofsOf(lines))
    && f.commits == s.commits[c := s.commits[c].(status := Finalized, mode := Some(Transfer), receiptId := Some(n))]
    && f.threads == s.threads + [Done(FinalizeOk(c, n))]
    && Counted(cfg.drill, s.drill, f.drill, q.total, t) && Counted(cfg.beta, s.beta, f.beta, q.total, t)
    && R.Added(q.mint, cfg.replayTtlMs, t, s.seen, f.seen, lines, |lines|)
  }

  /** The request has settled, for the lines of the quote in order. */
  ghost predicate SplitSettled(cfg: Config, s: State, f: State, c: nat, proofs: map<string, PaymentProof>,
                               answers: Answers)
    requires Known(s, c) && QuoteOf(s, c).split != [] && Proved(QuoteOf(s, c), proofs, answers, |QuoteOf(s, c).split|)
  {
    var lines := LinesOf(QuoteOf(s, c), proofs, answers, |QuoteOf(s, c).split|);
    SettledWith(cfg, s, f, c, lines) && ProvesInOrder(QuoteOf(s, c), answers, SplitProofsOf(lines))
  }

  /** The request is refused: no receipt and no claim; the commit fails only over a denied line. */
  ghost predicate SplitRefused(s: State, f: State, c: nat, denied: bool)
    requires Known(s, c)
  {
    && |f.threads| == |s.threads| + 1 && f.threads == s.threads + [f.threads[|s.threads|]]
    && f.threads[|s.threads|].Done? && f.threads[|s.threads|].reply.Refused?
    && f.receipts == s.receipts && SameClaims(s.seen, f.seen, s.clock)
    && f.commits == if denied then s.commits[c := Failed(s.commits[c])] else s.commits
  }

  lemma ToldDone(cfg: Config, s: State, r: nat, answers: Answers, k: nat)
    requires r < |s.threads| && s.threads[r].Done?
    ensures Told(cfg, s, r, answers, k) == s
  {
    if k > 0 {
      ToldDone(cfg, s, r, answers, k - 1);
      Settling.Answers(cfg, s, r, answers(k - 1));
    }
  }

  /** Forgetting expired keys changes no later answer. */
  lemma CleanupSame(seen: RS.Seen, t: nat, mint: string, lines: seq<SplitLine>)
    requires AllVerified(lines)
    ensures SameClaims(seen, RS.Cleanup(seen, t), t)
    ensures R.NoneClaimed(mint, t, RS.Cleanup(seen, t), lines) <==> Unclaimed(seen, mint, lines, R.Still(t))
  {
    assert forall k :: RS.Claimed(RS.Cleanup(seen, t), k, t) <==> RS.Claimed(seen, k, t);
  }

  lemma AddedSame(mint: string, ttl: nat, t: nat, seen: RS.Seen, after: RS.Seen, lines: seq<SplitLine>)
    requires AllVerified(lines) && R.Added(mint, ttl, t, RS.Cleanup(seen, t), after, lines, |lines|)
    ensures R.Added(mint, ttl, t, seen, after, lines, |lines|)
  {
    forall k, u: nat | u >= t
      ensures RS.Claimed(after, k, u) <==>
              RS.Claimed(seen, k, u) || ClaimedFor(mint, lines, |lines|, R.Still(t), ttl, k, u)
    {
      assert RS.Claimed(RS.Cleanup(seen, t), k, u) <==> RS.Claimed(seen, k, u);
    }
  }

  /** `a` is `s` with the caps checked and the request at its first line. */
  ghost predicate Waits(cfg: Config, s: State, a: State, t: Thread) {
    a == s.(drill := UsageAfterCheck(cfg.drill, s.drill, s.clock), beta := UsageAfterCheck(cfg.beta, s.beta, s.clock),
            threads := s.threads + [t])
  }

  /** Past the verdicts, with verified lines. */
  lemma VerifiedSplit(cfg: Config, s: State, a: State, e: State, c: nat, lines: seq<SplitLine>) returns (f: State)
    requires Known(s, c) && AllVerified(lines) && DistinctSignatures(lines) && lines != []
    requires forall i :: 0 <= i < |lines| ==> lines[i].proof.TransferProof?
    requires Waits(cfg, s, a, SplitCheck(c, lines, 0, false, !Free(s, LineKey(lines[0]))))
    requires e == a.(seen := RS.Cleanup(s.seen, s.clock))
    ensures R.Leads(cfg, e, f, |s.threads|)
    ensures if Unclaimed(s.seen, QuoteOf(s, c).mint, lines, R.Still(s.clock)) && ValidSplit(lines)
      then SettledWith(cfg, s, f, c, lines) else SplitRefused(s, f, c, false)
  {
    var mint, r := QuoteOf(s, c).mint, |s.threads|;
    CleanupSame(s.seen, s.clock, mint, lines);
    assert Free(e, LineKey(lines[0])) <==> Free(s, LineKey(lines[0]));
    var g := R.UninterruptedSplit(cfg, e, r, c, lines);
    f := g;
    if R.NoneClaimed(mint, s.clock, e.seen, lines) && ValidSplit(lines) {
      f := Twice(cfg, g, r);
      R.TwoLead(cfg, g, r);
      R.LeadsOn(cfg, e, g, f, r);
      SplitIssues(cfg, g, r, c, lines);
      AddedSame(mint, cfg.replayTtlMs, s.clock, s.seen, g.seen, lines);
      SettlesFrom(cfg, s, a, g, f, c, lines);
    } else {
      RefusedFrom(cfg, s, a, e, g, c, lines);
    }
  }

  lemma RefusedFrom(cfg: Config, s: State, a: State, e: State, g: State, c: nat, lines: seq<SplitLine>)
    requires Known(s, c) && |a.threads| == |s.threads| + 1 && Waits(cfg, s, a, a.threads[|s.threads|])
    requires e == a.(seen := RS.Cleanup(s.seen, s.clock)) && Alone(e, g, |s.threads|)
    requires g.threads[|s.threads|].Done? && g.threads[|s.threads|].reply.Refused?
    requires SameClaims(e.seen, g.seen, s.clock)
    ensures SplitRefused(s, g, c, false)
  {
    forall k, t: nat | t >= s.clock
      ensures RS.Claimed(g.seen, k, t) <==> RS.Claimed(s.seen, k, t)
    {
      assert RS.Claimed(RS.Cleanup(s.seen, s.clock), k, t) <==> RS.Claimed(s.seen, k, t);
    }
  }

  lemma SettlesFrom(cfg: Config, s: State, a: State, g: State, f: State, c: nat, lines: seq<SplitLine>)
    requires Known(s, c) && AllVerified(lines) && lines != []
    requires |a.threads| == |s.threads| + 1 && Waits(cfg, s, a, a.threads[|s.threads|])
    requires g == a.(seen := g.seen, grants := g.grants, threads := a.threads[|s.threads| := SplitReturn(c, lines)])
    requires R.Added(QuoteOf(s, c).mint, cfg.replayTtlMs, s.clock, s.seen, g.seen, lines, |lines|)
    requires Issued(cfg, g, f, |s.threads|, c, lines)
    ensures SettledWith(cfg, s, f, c, lines)
  {
    var q := QuoteOf(s, c);
    SignedStates(cfg, g, q, Stored(c), s.commits[c].payer, q.resource, Transfer, PrimaryVerification(lines),
                 Some(SplitProofsOf(lines)));
  }

  lemma AllTransfers(q: Quote, proofs: map<string, PaymentProof>, answers: Answers, n: nat)
    requires n <= |q.split| && Proved(q, proofs, answers, n)
    ensures forall i :: 0 <= i < n ==> LinesOf(q, proofs, answers, n)[i].proof.TransferProof?
  {
    forall i | 0 <= i < n
      ensures LinesOf(q, proofs, answers, n)[i].proof.TransferProof?
    {
      assert HasTransfer(q, proofs, i) && LinesOf(q, proofs, answers, n)[i] == LineAt(q, proofs, answers, i);
    }
  }

  /** From the verdicts on, with every line proved. */
  lemma ProvedSplit(cfg: Config, s: State, a: State, e: State, c: nat, proofs: map<string, PaymentProof>,
                    answers: Answers, lines: seq<SplitLine>)
    returns (f: State)
    requires Known(s, c) && QuoteOf(s, c).split != [] && Proved(QuoteOf(s, c), proofs, answers, |QuoteOf(s, c).split|)
    requires lines == LinesOf(QuoteOf(s, c), proofs, answers, |QuoteOf(s, c).split|)
    requires Waits(cfg, s, a, SplitCheck(c, lines, 0, false, !Free(s, LineKey(lines[0]))))
    requires e == a.(seen := RS.Cleanup(s.seen, s.clock))
    ensures R.Leads(cfg, e, f, |s.threads|)
    ensures if Unclaimed(s.seen, QuoteOf(s, c).mint, lines, R.Still(s.clock)) && ValidSplit(lines)
      then SplitSettled(cfg, s, f, c, proofs, answers) else SplitRefused(s, f, c, false)
  {
    AllTransfers(QuoteOf(s, c), proofs, answers, |QuoteOf(s, c).split|);
    ProofsMatch(QuoteOf(s, c), proofs, answers);
    f := VerifiedSplit(cfg, s, a, e, c, lines);
  }

  /** From the first verdict on. */
  lemma WaitingSplit(cfg: Config, s: State, a: State, c: nat, proofs: map<string, PaymentProof>, answers: Answers)
    returns (f: State)
    requires Known(s, c) && QuoteOf(s, c).split != [] && HasTransfer(QuoteOf(s, c), proofs, 0)
    requires Waits(cfg, s, a, SplitVerify(c, proofs, []))
    ensures R.Leads(cfg, Told(cfg, a, |s.threads|, answers, |QuoteOf(s, c).split|), f, |s.threads|)
    ensures var q := QuoteOf(s, c);
            if && Proved(q, proofs, answers, |q.split|)
               && Unclaimed(s.seen, q.mint, LinesOf(q, proofs, answers, |q.split|), R.Still(s.clock))
               && ValidSplit(LinesOf(q, proofs, answers, |q.split|))
            then SplitSettled(cfg, s, f, c, proofs, answers) else SplitRefused(s, f, c, Denied(q, proofs, answers))
  {
    var q, r := QuoteOf(s, c), |s.threads|;
    var e := Told(cfg, a, r, answers, |q.split|);
    VerdictsExactly(cfg, a, r, c, proofs, answers);
    if Proved(q, proofs, answers, |q.split|) {
      NotDenied(q, proofs, answers);
      f := ProvedSplit(cfg, s, a.(threads := e.threads), e, c, proofs, answers,
                       LinesOf(q, proofs, answers, |q.split|));
    } else {
      f := e;
      LeadsToItself(cfg, e, r);
    }
  }

  /**
   * A finalize call on a split, answered line by line and left alone, settles if and only if the
   * quote lives, the caps allow its total, and the request is payable: it names every fee line
   * once with a transfer, the verifier accepts each under a signature of its own, none of their
   * keys is claimed, and the amounts are right. It then stores one receipt that states the lines
   * in order, completes the commit, is counted once, and claims exactly its keys; otherwise it is
   * refused, claims nothing, and fails the commit only over a line that the verifier denied.
   */
  lemma SplitSettlesExactly(cfg: Config, s: State, c: nat, proof: Option<PaymentProof>,
                            items: seq<(string, PaymentProof)>, answers: Answers)
    returns (f: State)
    requires Known(s, c) && Unanswered(s, c) && QuoteOf(s, c).split != []
    ensures R.Leads(cfg, Told(cfg, Begun(cfg, s, c, proof, items), |s.threads|, answers, |QuoteOf(s, c).split|), f,
                    |s.threads|)
    ensures var q, proofs := QuoteOf(s, c), ByFeeLine(items);
            if SplitOpen(cfg, s, c, items) && Payable(s.seen, q, items, answers, R.Still(s.clock))
            then SplitSettled(cfg, s, f, c, proofs, answers)
            else SplitRefused(s, f, c, SplitOpen(cfg, s, c, items) && NoRepeats(items) && Denied(q, proofs, answers))
  {
    var q, r := QuoteOf(s, c), |s.threads|;
    var a := Begun(cfg, s, c, proof, items);
    SplitBegins(cfg, s, c, proof, items);
    if a.threads[r].SplitVerify? {
      f := WaitingSplit(cfg, s, a, c, ByFeeLine(items), answers);
    } else {
      ToldDone(cfg, a, r, answers, |q.split|);
      f := a;
      LeadsToItself(cfg, a, r);
    }
  }

  lemma LeadsToItself(cfg: Config, s: State, r: nat)
    ensures R.Leads(cfg, s, s, r)
  {
    assert s == R.Go(cfg, s, r, 0);
  }
}
