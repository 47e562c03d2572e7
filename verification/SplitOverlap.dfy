/**
 * Direct splits that do overlap other requests: a claim loop that is refused midway leaves keys
 * claimed for which no receipt is ever issued (x402/src/server.ts).
 */
module SplitOverlap {
  import opened Common
  import opened Types
  import opened Receipts
  import opened Protocol
  import opened DirectSplit
  import opened Runs
  import T = Settling
  import RS = ReplayStore
  import D = Delivery
  import P = Payments
  import F = Finality
  import H = Handshake
  import L = Limits
  import S = SplitRuns
  import G = SingleFinalize
  import V = SplitVerdicts

  // ---- who holds no key ------------------------------------------------------------------------

  /** A request that has not been granted any key yet. */
  predicate Unclaiming(t: Thread) {
    || t.AwaitVerify? || t.SplitVerify? || t.SplitCheck? || t.CompatVerify?
    || (t.SplitClaim? && t.j == 0 && !t.scoped && !t.granted)
  }

  ghost predicate HoldsNone(grants: seq<RS.Grant>, r: nat) {
    forall i :: 0 <= i < |grants| ==> grants[i].holder != r
  }

  ghost predicate Tidy(s: State) {
    && (forall r :: 0 <= r < |s.threads| && Unclaiming(s.threads[r]) ==> HoldsNone(s.grants, r))
    && (forall i :: 0 <= i < |s.grants| ==> s.grants[i].holder < |s.threads|)
  }

  /** A segment that is granted a key leaves its thread claiming; no thread becomes unclaiming. */
  ghost predicate TidyEffect(s: State, t: Thread, f: Effect) {
    match f
    case Move(u) => Unclaiming(u) ==> Unclaiming(t)
    case Sweep(u) => Unclaiming(u) ==> Unclaiming(t)
    case Claim(key, u) => Unclaiming(u) ==> Unclaiming(t) && !Free(s, key)
    case _ => true
  }

  lemma VerdictTidy(cfg: Config, s: State, t: Thread, v: Verification, guard: Guard)
    requires Runnable(s, t)
    ensures TidyEffect(s, t, OnVerdict(cfg, s, t, v, guard))
  {
  }

  lemma ResumeTidy(s: State, t: Thread, guard: Guard)
    requires Runnable(s, t)
    ensures TidyEffect(s, t, OnResume(s, t, guard))
  {
  }

  lemma PerformTidy(cfg: Config, s: State, r: nat, f: Effect)
    requires Tidy(s) && r < |s.threads| && Fits(s, f) && TidyEffect(s, s.threads[r], f)
    ensures Tidy(Perform(cfg, s, r, f))
  {
  }

  /** A request arrives, or a response goes out. */
  lemma RequestTidy(cfg: Config, s: State, s': State)
    requires Tidy(s) && s'.grants == s.grants && |s.threads| <= |s'.threads|
    requires forall r :: 0 <= r < |s.threads| ==> s'.threads[r] == s.threads[r] || !Unclaiming(s'.threads[r])
    ensures Tidy(s')
  {
  }

  lemma StepTidy(cfg: Config, s: State, e: Event)
    requires Tidy(s)
    ensures Tidy(Step(cfg, s, e))
  {
    match e
    case Verdict(r, v, guard) =>
      if r < |s.threads| && Runnable(s, s.threads[r]) {
        VerdictTidy(cfg, s, s.threads[r], v, guard);
        PerformTidy(cfg, s, r, OnVerdict(cfg, s, s.threads[r], v, guard));
      }
    case Resume(r, guard) =>
      if r < |s.threads| && Runnable(s, s.threads[r]) {
        ResumeTidy(s, s.threads[r], guard);
        PerformTidy(cfg, s, r, OnResume(s, s.threads[r], guard));
      }
    case Abort(r) =>
      if r < |s.threads| && !s.threads[r].Done? && !s.threads[r].Delivering? {
        PerformTidy(cfg, s, r, Move(Done(Dropped)));
      }
    case PostFinalize(c, proof, items) =>
      P.FinalizeOpens(cfg, s, c, proof, items);
      RequestTidy(cfg, s, Step(cfg, s, e));
    case Get(resource, commit, compat, p) =>
      P.GetOpens(cfg, s, resource, commit, compat, p);
      RequestTidy(cfg, s, Step(cfg, s, e));
    case AskQuote(_, _) =>
      P.QuoteOrCommitOpens(cfg, s, e);
      RequestTidy(cfg, s, Step(cfg, s, e));
    case PostCommit(_, _) =>
      P.QuoteOrCommitOpens(cfg, s, e);
      RequestTidy(cfg, s, Step(cfg, s, e));
    case Finish(_, _) => RequestTidy(cfg, s, Step(cfg, s, e));
    case Tick(_) => RequestTidy(cfg, s, Step(cfg, s, e));
    case FlushLedger(_) => RequestTidy(cfg, s, Step(cfg, s, e));
  }

  lemma {:induction false} RunTidy(cfg: Config, start: nat, es: seq<Event>)
    ensures Tidy(Run(cfg, start, es))
  {
    if es != [] {
      RunTidy(cfg, start, es[..|es| - 1]);
      StepTidy(cfg, Run(cfg, start, es[..|es| - 1]), es[|es| - 1]);
    }
  }

  // ---- a request that is over issues nothing more --------------------------------------------------

  ghost predicate Barren(s: State, r: nat) {
    r < |s.threads| && s.threads[r].Done? && forall x :: 0 <= x < |s.receipts| ==> s.receipts[x].issuer != r
  }

  lemma PerformBarren(cfg: Config, s: State, q: nat, f: Effect, r: nat)
    requires Barren(s, r) && q < |s.threads| && q != r && Fits(s, f)
    ensures Barren(Perform(cfg, s, q, f), r)
  {
  }

  lemma StepBarren(cfg: Config, s: State, e: Event, r: nat)
    requires Barren(s, r)
    ensures Barren(Step(cfg, s, e), r)
  {
    match e
    case Verdict(q, v, guard) =>
      if q < |s.threads| && Runnable(s, s.threads[q]) && q != r {
        PerformBarren(cfg, s, q, OnVerdict(cfg, s, s.threads[q], v, guard), r);
      }
    case Resume(q, guard) =>
      if q < |s.threads| && Runnable(s, s.threads[q]) && q != r {
        PerformBarren(cfg, s, q, OnResume(s, s.threads[q], guard), r);
      }
    case PostFinalize(c, proof, items) => RequestBarren(cfg, s, e, r);
    case Get(resource, commit, compat, p) => RequestBarren(cfg, s, e, r);
    case AskQuote(_, _) => RequestBarren(cfg, s, e, r);
    case PostCommit(_, _) => RequestBarren(cfg, s, e, r);
    case _ => QuietBarren(cfg, s, e, r);
  }

  lemma RequestBarren(cfg: Config, s: State, e: Event, r: nat)
    requires Barren(s, r) && (e.PostFinalize? || e.Get? || e.AskQuote? || e.PostCommit?)
    ensures Barren(Step(cfg, s, e), r)
  {
    if e.PostFinalize? {
      P.FinalizeOpens(cfg, s, e.commitId, e.proof, e.items);
    } else if e.Get? {
      P.GetOpens(cfg, s, e.resource, e.commitHeader, e.compat, e.price);
    } else {
      P.QuoteOrCommitOpens(cfg, s, e);
    }
    OpensBarren(s, Step(cfg, s, e), r);
  }

  lemma OpensBarren(s: State, s': State, r: nat)
    requires Barren(s, r) && P.Opens(s, s')
    ensures Barren(s', r)
  {
  }

  lemma QuietBarren(cfg: Config, s: State, e: Event, r: nat)
    requires Barren(s, r) && (e.Tick? || e.FlushLedger? || e.Finish? || e.Abort?)
    ensures Barren(Step(cfg, s, e), r)
  {
  }

  lemma {:induction false} StaysBarren(cfg: Config, s: State, more: seq<Event>, r: nat)
    requires Barren(s, r)
    ensures Barren(After(cfg, s, more), r)
  {
    if more != [] {
      StaysBarren(cfg, s, more[..|more| - 1], r);
      StepBarren(cfg, After(cfg, s, more[..|more| - 1]), more[|more| - 1], r);
    }
  }

  // ---- the refused claim ------------------------------------------------------------------------------

  /** Request `r` is over without a receipt, now and for ever. */
  ghost predicate Fruitless(cfg: Config, s: State, r: nat) {
    forall more :: Barren(After(cfg, s, more), r)
  }

  lemma BarrenForGood(cfg: Config, s: State, r: nat)
    requires Barren(s, r)
    ensures Fruitless(cfg, s, r)
  {
    forall more
      ensures Barren(After(cfg, s, more), r)
    {
      StaysBarren(cfg, s, more, r);
    }
  }

  /**
   * A request that breaks off before its receipt is signed never gets one, and nothing is undone:
   * what it has claimed stays claimed.
   */
  lemma BrokenOff(cfg: Config, start: nat, s: State, r: nat)
    requires Reachable(cfg, start, s) && r < |s.threads|
    requires !s.threads[r].Done? && !s.threads[r].Delivering? && !s.threads[r].AwaitLedger?
    ensures var e := Step(cfg, s, Abort(r));
            e == s.(threads := s.threads[r := Done(Dropped)]) && Fruitless(cfg, e, r)
  {
    var es :| s == Run(cfg, start, es);
    F.RunIsSound(cfg, start, es);
    assert D.Linked(s, s.threads[r], r);
    BarrenForGood(cfg, Step(cfg, s, Abort(r)), r);
  }

  /**
   * A direct split whose claim is refused ends there, with its commit as it was and no receipt
   * ever issued for it; it leaves keys claimed if and only if it was not at its very first key,
   * namely those of all lines before, and the first key of its line if the second was refused.
   */
  lemma RefusedClaim(cfg: Config, start: nat, s: State, r: nat)
    requires Reachable(cfg, start, s) && r < |s.threads| && s.threads[r].SplitClaim? && !s.threads[r].granted
    ensures var t, e := s.threads[r], Step(cfg, s, Resume(r, Pass));
            && r < |e.threads| && e.threads[r] == Done(Refused(409)) && e.commits == s.commits && Fruitless(cfg, e, r)
            && AllVerified(t.lines) && t.j < |t.lines|
            && P.LinesBacked(e.grants, t.lines, if t.scoped then t.j + 1 else t.j, r)
            && (HoldsNone(e.grants, r) <==> t.j == 0 && !t.scoped)
  {
    var es :| s == Run(cfg, start, es);
    F.RunIsSound(cfg, start, es);
    RunTidy(cfg, start, es);
    RefusedStep(cfg, s, r);
    BarrenForGood(cfg, Step(cfg, s, Resume(r, Pass)), r);
  }

  lemma RefusedStep(cfg: Config, s: State, r: nat)
    requires F.Sound(cfg, s) && Tidy(s) && r < |s.threads| && s.threads[r].SplitClaim? && !s.threads[r].granted
    ensures var t, e := s.threads[r], Step(cfg, s, Resume(r, Pass));
            && r < |e.threads| && e.threads[r] == Done(Refused(409)) && e.commits == s.commits && Barren(e, r)
            && AllVerified(t.lines) && t.j < |t.lines|
            && P.LinesBacked(e.grants, t.lines, if t.scoped then t.j + 1 else t.j, r)
            && (HoldsNone(e.grants, r) <==> t.j == 0 && !t.scoped)
  {
    var t := s.threads[r];
    assert D.Linked(s, t, r) && P.ThreadBacked(s.grants, t, r);
    T.Resumes(cfg, s, r);
    if t.j > 0 || t.scoped {
      assert P.Backed(s.grants, LineKey(t.lines[0]), r);
    }
  }

  // ---- and it happens ----------------------------------------------------------------------------------

  /** A two-line split and a single transfer are both waiting for the verifier. */
  ghost predicate Racing(s: State, r: nat, q: nat) {
    && r < |s.threads| && q < |s.threads| && r != q
    && s.threads[r].SplitVerify? && s.threads[q].AwaitVerify? && s.threads[q].proof.TransferProof?
    && var c, proofs := s.threads[r].c, s.threads[r].proofs;
       && Known(s, c) && Known(s, s.threads[q].c) && s.threads[r].lines == [] && |QuoteOf(s, c).split| == 2
       && var a, b := QuoteOf(s, c).split[0], QuoteOf(s, c).split[1];
          && a.feeLineId != b.feeLineId && a.feeLineId in proofs && b.feeLineId in proofs
          && FullTransfer(proofs[a.feeLineId], a.amount) && FullTransfer(proofs[b.feeLineId], b.amount)
  }

  predicate FullTransfer(proof: PaymentProof, amount: nat) {
    proof.TransferProof? && (proof.amountHint.Some? ==> proof.amountHint.value >= amount)
  }

  function Good(sig: string): Verification {
    Verification(true, true, Some(sig), None)
  }

  /** The lines of the split once both are verified. */
  function RacingLines(s: State, r: nat): seq<SplitLine>
    requires r < |s.threads| && s.threads[r].SplitVerify? && Known(s, s.threads[r].c) &&
      |QuoteOf(s, s.threads[r].c).split| == 2
    requires forall i :: 0 <= i < 2 ==> QuoteOf(s, s.threads[r].c).split[i].feeLineId in s.threads[r].proofs
  {
    var split, proofs := QuoteOf(s, s.threads[r].c).split, s.threads[r].proofs;
    [SplitLine(split[0], proofs[split[0].feeLineId], Good("a")),
     SplitLine(split[1], proofs[split[1].feeLineId], Good("b"))]
  }

  ghost predicate NothingClaimed(s: State) {
    forall key :: Free(s, key)
  }

  lemma BothVerify(cfg: Config, s: State, r: nat, q: nat)
    requires Racing(s, r, q)
    ensures forall i :: 0 <= i < 2 ==> QuoteOf(s, s.threads[r].c).split[i].feeLineId in s.threads[r].proofs
    ensures var c, lines := s.threads[r].c, RacingLines(s, r);
            var one := Step(cfg, s, Verdict(r, Good("a"), Pass));
            var two := Step(cfg, one, Verdict(r, Good("b"), Pass));
            && T.Alone(s, two, r) && two.grants == s.grants && two.seen == RS.Cleanup(s.seen, s.clock)
            && S.Sane(two, r, c, lines) && ValidSplit(lines)
            && two.threads[r] == SplitCheck(c, lines, 0, false, !Free(two, LineKey(lines[0])))
  {
    var c, lines := s.threads[r].c, RacingLines(s, r);
    FirstVerifies(cfg, s, r, q);
    var one := Step(cfg, s, Verdict(r, Good("a"), Pass));
    SecondVerifies(cfg, s, one, r, q);
  }

  lemma FirstVerifies(cfg: Config, s: State, r: nat, q: nat)
    requires Racing(s, r, q)
    ensures forall i :: 0 <= i < 2 ==> QuoteOf(s, s.threads[r].c).split[i].feeLineId in s.threads[r].proofs
    ensures Step(cfg, s, Verdict(r, Good("a"), Pass)) ==
            s.(threads := s.threads[r := SplitVerify(s.threads[r].c, s.threads[r].proofs, [RacingLines(s, r)[0]])])
  {
    var t, line := s.threads[r], RacingLines(s, r)[0];
    assert t.lines + [line] == [line];
    assert OnVerdict(cfg, s, t, Good("a"), Pass) == Move(SplitVerify(t.c, t.proofs, [line]));
    T.Answers(cfg, s, r, Good("a"));
  }

  lemma SecondVerifies(cfg: Config, s: State, one: State, r: nat, q: nat)
    requires Racing(s, r, q)
    requires forall i :: 0 <= i < 2 ==> QuoteOf(s, s.threads[r].c).split[i].feeLineId in s.threads[r].proofs
    requires one == s.(threads := s.threads[r := SplitVerify(s.threads[r].c, s.threads[r].proofs,
                                                             [RacingLines(s, r)[0]])])
    ensures var c, lines := s.threads[r].c, RacingLines(s, r);
            var two := Step(cfg, one, Verdict(r, Good("b"), Pass));
            && T.Alone(s, two, r) && two.grants == s.grants && two.seen == RS.Cleanup(s.seen, s.clock)
            && S.Sane(two, r, c, lines) && ValidSplit(lines)
            && two.threads[r] == SplitCheck(c, lines, 0, false, !Free(two, LineKey(lines[0])))
  {
    var lines := RacingLines(s, r);
    assert !SeenSignature([lines[0]], Some("b"));
    assert [lines[0]] + [lines[1]] == lines;
    T.Answers(cfg, one, r, Good("b"));
  }

  lemma {:induction false} ResumptionsLead(cfg: Config, s: State, r: nat, k: nat)
    ensures Leads(cfg, s, S.Go(cfg, s, r, k))
    decreases k
  {
    if k == 0 {
      assert After(cfg, s, []) == s;
    } else {
      var e := Step(cfg, s, Resume(r, Pass));
      S.GoFirst(cfg, s, r, k);
      ResumptionsLead(cfg, e, r, k - 1);
      StepLeads(cfg, s, Resume(r, Pass));
      LeadsOn(cfg, s, e, S.Go(cfg, e, r, k - 1));
    }
  }

  /** Thread `r` has claimed all of its first line, and `q` is still waiting. */
  ghost predicate HalfClaimed(cfg: Config, s: State, r: nat, q: nat, c: nat, lines: seq<SplitLine>) {
    && S.Sane(s, r, c, lines) && |lines| == 2 && s.threads[r] == SplitClaim(c, lines, 0, true, true)
    && lines[1].v.txSignature == Some("b") && Free(s, LineKey(lines[1]))
    && q < |s.threads| && q != r && s.threads[q].AwaitVerify? && s.threads[q].proof.TransferProof? &&
       Known(s, s.threads[q].c)
  }

  /** The verdict on the other payment comes in between, and takes the key of the second line. */
  lemma KeyTaken(cfg: Config, s: State, r: nat, q: nat, c: nat, lines: seq<SplitLine>)
    requires HalfClaimed(cfg, s, r, q, c, lines) && cfg.replayTtlMs > 0
    ensures var a := Step(cfg, s, Verdict(q, Good("b"), Pass));
            && S.Sane(a, r, c, lines) && a.threads[r] == SplitClaim(c, lines, 0, true, true)
            && !Free(a, LineKey(lines[1]))
  {
    T.Answers(cfg, s, q, Good("b"));
  }

  lemma RacedOut(cfg: Config, start: nat, s: State, r: nat, q: nat, c: nat, lines: seq<SplitLine>) returns (e: State)
    requires Reachable(cfg, start, s) && HalfClaimed(cfg, s, r, q, c, lines) && cfg.replayTtlMs > 0
    ensures Leads(cfg, s, e) && Stranded(cfg, e, r, lines)
  {
    KeyTaken(cfg, s, r, q, c, lines);
    StepReaches(cfg, start, s, Verdict(q, Good("b"), Pass));
    e := ClaimsTooLate(cfg, start, Step(cfg, s, Verdict(q, Good("b"), Pass)), r, c, lines);
    StepLeads(cfg, s, Verdict(q, Good("b"), Pass));
    LeadsOn(cfg, s, Step(cfg, s, Verdict(q, Good("b"), Pass)), e);
  }

  lemma ClaimsTooLate(cfg: Config, start: nat, a: State, r: nat, c: nat, lines: seq<SplitLine>) returns (e: State)
    requires Reachable(cfg, start, a) && S.Sane(a, r, c, lines) && |lines| == 2
    requires a.threads[r] == SplitClaim(c, lines, 0, true, true) && !Free(a, LineKey(lines[1]))
    ensures Leads(cfg, a, e) && Stranded(cfg, e, r, lines)
  {
    S.ClaimNext(cfg, a, r, c, lines, 0);
    var b := Step(cfg, a, Resume(r, Pass));
    StepReaches(cfg, start, a, Resume(r, Pass));
    e := Step(cfg, b, Resume(r, Pass));
    RefusedClaim(cfg, start, b, r);
    StepLeads(cfg, a, Resume(r, Pass));
    StepLeads(cfg, b, Resume(r, Pass));
    LeadsOn(cfg, a, b, e);
  }

  /** Request `r` ended without a receipt, now and for ever, but its first line's payment is claimed. */
  ghost predicate Stranded(cfg: Config, e: State, r: nat, lines: seq<SplitLine>) {
    && r < |e.threads| && e.threads[r] == Done(Refused(409)) && Fruitless(cfg, e, r)
    && AllVerified(lines) && lines != [] && P.Backed(e.grants, LineKey(lines[0]), r)
  }

  /** With no key claimed, the split gets through its pre-check and claims its first line. */
  lemma ClaimsFirstLine(cfg: Config, s: State, r: nat, q: nat) returns (e: State)
    requires Racing(s, r, q) && NothingClaimed(s)
    ensures Leads(cfg, s, e)
    ensures forall i :: 0 <= i < 2 ==> QuoteOf(s, s.threads[r].c).split[i].feeLineId in s.threads[r].proofs
    ensures HalfClaimed(cfg, e, r, q, s.threads[r].c, RacingLines(s, r))
  {
    BothVerify(cfg, s, r, q);
    var c, lines := s.threads[r].c, RacingLines(s, r);
    var one := Step(cfg, s, Verdict(r, Good("a"), Pass));
    var two := Step(cfg, one, Verdict(r, Good("b"), Pass));
    StepLeads(cfg, s, Verdict(r, Good("a"), Pass));
    StepLeads(cfg, one, Verdict(r, Good("b"), Pass));
    LeadsOn(cfg, s, one, two);
    assert forall key :: Free(two, key) <==> Free(s, key);
    e := HalfClaims(cfg, two, r, q, c, lines);
    LeadsOn(cfg, s, two, e);
  }

  lemma HalfClaims(cfg: Config, s: State, r: nat, q: nat, c: nat, lines: seq<SplitLine>) returns (e: State)
    requires S.Sane(s, r, c, lines) && |lines| == 2 && ValidSplit(lines) && NothingClaimed(s)
    requires lines[0].v.txSignature == Some("a") && lines[1].v.txSignature == Some("b")
    requires s.threads[r] == SplitCheck(c, lines, 0, false, !Free(s, LineKey(lines[0])))
    requires q < |s.threads| && q != r && s.threads[q].AwaitVerify? && s.threads[q].proof.TransferProof? &&
      Known(s, s.threads[q].c)
    ensures Leads(cfg, s, e) && HalfClaimed(cfg, e, r, q, c, lines)
  {
    var f := S.CheckPhase(cfg, s, r, c, lines, 0, false);
    var k: nat :| f == S.Go(cfg, s, r, k);
    ResumptionsLead(cfg, s, r, k);
    LaterKeysFree(cfg, s, f, r, c, lines);
    S.ClaimScoped(cfg, f, r, c, lines, 0);
    e := Step(cfg, f, Resume(r, Pass));
    StepLeads(cfg, f, Resume(r, Pass));
    LeadsOn(cfg, s, f, e);
    SecondStillFree(cfg, f, e, c, lines);
  }

  /** The first claim leaves the other keys of the lines free. */
  lemma LaterKeysFree(cfg: Config, s: State, f: State, r: nat, c: nat, lines: seq<SplitLine>)
    requires S.Sane(s, r, c, lines) && |lines| == 2 && NothingClaimed(s) && f.clock == s.clock
    requires lines[0].v.txSignature == Some("a") && lines[1].v.txSignature == Some("b")
    requires f.seen == RS.Claim(s.seen, LineKey(lines[0]), s.clock, cfg.replayTtlMs)
    ensures Free(f, LineScopedKey(S.Mint(s, c), lines[0])) && Free(f, LineKey(lines[1]))
  {
    assert Free(s, LineScopedKey(S.Mint(s, c), lines[0])) && Free(s, LineKey(lines[1]));
    if LineKey(lines[0]) == LineKey(lines[1]) {
      GlobalKeyInjective("transfer", "a", "b");
    }
  }

  lemma SecondStillFree(cfg: Config, f: State, e: State, c: nat, lines: seq<SplitLine>)
    requires Known(f, c) && AllVerified(lines) && |lines| == 2 && Free(f, LineKey(lines[1])) && e.clock == f.clock
    requires e.seen == RS.Claim(f.seen, LineScopedKey(S.Mint(f, c), lines[0]), f.clock, cfg.replayTtlMs)
    ensures Free(e, LineKey(lines[1]))
  {
    assert LineKey(lines[1]).amount != LineScopedKey(S.Mint(f, c), lines[0]).amount;
  }

  /**
   * From every reachable state in which a two-line split and a single transfer wait for the
   * verifier at the same time, there is a continuation in which the other payment's claim comes
   * between the claims of the split: its first payment is claimed, and no receipt is ever issued.
   */
  lemma SplitCanBeInterrupted(cfg: Config, start: nat, s: State, r: nat, q: nat) returns (e: State)
    requires Reachable(cfg, start, s) && Racing(s, r, q) && cfg.replayTtlMs > 0
    ensures Leads(cfg, s, e)
    ensures forall i :: 0 <= i < 2 ==> QuoteOf(s, s.threads[r].c).split[i].feeLineId in s.threads[r].proofs
    ensures Stranded(cfg, e, r, RacingLines(s, r))
  {
    var a := Step(cfg, s, Tick(cfg.replayTtlMs));
    ClearedByTick(cfg, start, s, r, q);
    var b := ClaimsFirstLine(cfg, a, r, q);
    StepReaches(cfg, start, s, Tick(cfg.replayTtlMs));
    LeadsReaches(cfg, start, a, b);
    e := RacedOut(cfg, start, b, r, q, s.threads[r].c, RacingLines(s, r));
    StepLeads(cfg, s, Tick(cfg.replayTtlMs));
    LeadsOn(cfg, s, a, b);
    LeadsOn(cfg, s, b, e);
  }

  lemma ClearedByTick(cfg: Config, start: nat, s: State, r: nat, q: nat)
    requires Reachable(cfg, start, s) && Racing(s, r, q)
    ensures var a := Step(cfg, s, Tick(cfg.replayTtlMs));
            Racing(a, r, q) && NothingClaimed(a) && a.threads == s.threads && a.quotes == s.quotes &&
              a.commits == s.commits
  {
    F.ReachableSound(cfg, start, s);
    var a := Step(cfg, s, Tick(cfg.replayTtlMs));
    assert a == s.(clock := s.clock + cfg.replayTtlMs);
    forall key
      ensures Free(a, key)
    {
      P.AllExpire(cfg, s, key, a.clock);
    }
  }

  // ---- a server can get there from its start -----------------------------------------------------------

  const PATH := "/resource"

  const TWO_LINES: seq<SplitRequirement> :=
    [SplitRequirement("provider", "PROVIDER_AMOUNT", "r1", 1, "t"),
     SplitRequirement("fee", "DNA_PLATFORM_FEE", "r2", 1, "t")]

  const BOTH_PROOFS: seq<(string, PaymentProof)> := [("provider", TransferProof("a", None)),
                                                     ("fee", TransferProof("b", None))]

  function Priced(split: seq<SplitRequirement>): H.Session {
    H.Session(Price(2, 0, split, split != []), false, 0, 0, Good("a"))
  }

  function Committed(cfg: Config, s: State, payer: string, split: seq<SplitRequirement>): State {
    H.Committing(cfg, s, PATH, Priced(split), |s.quotes|, payer)
  }

  ghost predicate NoCaps(cfg: Config, payer: string) {
    !cfg.drill.enabled && !cfg.beta.enabled && cfg.quoteTtlMs > 0 && NormalizeCommitment(payer) == Some(payer)
  }

  lemma CommittedReaches(cfg: Config, start: nat, s: State, payer: string, split: seq<SplitRequirement>)
    requires Reachable(cfg, start, s) && NoCaps(cfg, payer)
    ensures Reachable(cfg, start, Committed(cfg, s, payer, split))
    ensures H.CommittedTo(cfg, s, Committed(cfg, s, payer, split), PATH, Priced(split), payer)
  {
    L.CommittingReaches(cfg, start, s, PATH, Priced(split), |s.quotes|, payer);
    H.CommitSucceeds(cfg, s, PATH, Priced(split), payer);
  }

  lemma BothProofs()
    ensures NoRepeats(BOTH_PROOFS) &&
      ByFeeLine(BOTH_PROOFS) == map["provider" := TransferProof("a", None), "fee" := TransferProof("b", None)]
  {
    var one := [BOTH_PROOFS[0]];
    assert BOTH_PROOFS[..1] == one && one[..0] == [];
    assert ByFeeLine(one) == map["provider" := TransferProof("a", None)];
  }

  lemma SplitAdmitted(cfg: Config, s: State, b: State, payer: string)
    requires NoCaps(cfg, payer) && H.CommittedTo(cfg, s, b, PATH, Priced(TWO_LINES), payer)
    ensures Step(cfg, b, PostFinalize(|s.commits|, None, BOTH_PROOFS)) ==
            b.(threads := b.threads + [SplitVerify(|s.commits|, ByFeeLine(BOTH_PROOFS), [])])
  {
    BothProofs();
    assert b.commits[|s.commits|] == Commit(|s.quotes|, payer, s.clock, Pending, None, None, None);
    assert b.quotes[|s.quotes|] == NewQuote(cfg, s, PATH, Priced(TWO_LINES).price);
    V.SplitBegins(cfg, b, |s.commits|, None, BOTH_PROOFS);
  }

  lemma TransferAdmitted(cfg: Config, s: State, b: State, payer: string, proof: PaymentProof)
    requires NoCaps(cfg, payer) && H.CommittedTo(cfg, s, b, PATH, Priced([]), payer) && proof.TransferProof?
    ensures Step(cfg, b, PostFinalize(|s.commits|, Some(proof), [])) ==
      b.(threads := b.threads + [AwaitVerify(|s.commits|, proof)])
  {
    var q := NewQuote(cfg, s, PATH, Priced([]).price);
    assert b.commits[|s.commits|] == Commit(|s.quotes|, payer, s.clock, Pending, None, None, None);
    assert b.quotes[|s.quotes|] == q && q.settlement[0] == Transfer;
    G.Admits(cfg, b, |s.commits|, proof);
  }

  /** On a fresh server without caps a split and a single payment can wait for the verifier at once. */
  lemma RaceIsReachable(cfg: Config, start: nat, payer: string) returns (e: State)
    requires NoCaps(cfg, payer)
    ensures Reachable(cfg, start, e) && Racing(e, 2, 5) && e.clock == start && NothingClaimed(e)
    ensures e.threads[5].proof == TransferProof("b", None) && QuoteOf(e, e.threads[5].c).split == []
  {
    var s := Init(start);
    assert s == Run(cfg, start, []);
    CommittedReaches(cfg, start, s, payer, TWO_LINES);
    var a := Committed(cfg, s, payer, TWO_LINES);
    SplitAdmitted(cfg, s, a, payer);
    StepReaches(cfg, start, a, PostFinalize(0, None, BOTH_PROOFS));
    var b := a.(threads := a.threads + [SplitVerify(0, ByFeeLine(BOTH_PROOFS), [])]);
    CommittedReaches(cfg, start, b, payer, []);
    var d := Committed(cfg, b, payer, []);
    TransferAdmitted(cfg, b, d, payer, TransferProof("b", None));
    StepReaches(cfg, start, d, PostFinalize(1, Some(TransferProof("b", None)), []));
    e := d.(threads := d.threads + [AwaitVerify(1, TransferProof("b", None))]);
    RaceShape(cfg, s, a, b, d, e, payer);
  }

  lemma RaceShape(cfg: Config, s: State, a: State, b: State, d: State, e: State, payer: string)
    requires s.threads == [] && s.quotes == [] && s.commits == []
    requires H.CommittedTo(cfg, s, a, PATH, Priced(TWO_LINES), payer)
    requires b == a.(threads := a.threads + [SplitVerify(0, ByFeeLine(BOTH_PROOFS), [])])
    requires H.CommittedTo(cfg, b, d, PATH, Priced([]), payer)
    requires e == d.(threads := d.threads + [AwaitVerify(1, TransferProof("b", None))])
    ensures Racing(e, 2, 5) && e.clock == s.clock && e.seen == s.seen &&
      e.threads[5] == AwaitVerify(1, TransferProof("b", None))
    ensures QuoteOf(e, 1).split == []
  {
    BothProofs();
    assert e.threads[2] == b.threads[2] && e.threads[5] == AwaitVerify(1, TransferProof("b", None));
    assert e.commits[0].quoteId == 0 && e.commits[1].quoteId == 1 && e.quotes[0].split == TWO_LINES;
  }
}
