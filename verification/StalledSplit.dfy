/**
 * The one request that the verifier's window does not cover: a direct split claims its payments
 * only after all its lines have been verified (x402/src/server.ts).
 */
module StalledSplit {
  import opened Common
  import opened Types
  import opened Protocol
  import opened Payments
  import opened Window
  import opened Runs
  import RS = ReplayStore
  import T = Settling
  import L = Limits
  import S = SplitRuns
  import O = SplitOverlap

  // ---- runs whose verdicts all come at time 0 --------------------------------------------------------

  /** Reached by a run in which every payment is accepted at time 0. */
  ghost predicate AcceptedAtOnce(cfg: Config, s: State) {
    exists es :: s == Run(cfg, 0, es) && VerdictsTimely(cfg, BornAt(0), 0, 0, es)
  }

  lemma AtTheStart(cfg: Config, s: State)
    requires Reachable(cfg, 0, s) && s.clock == 0
    ensures AcceptedAtOnce(cfg, s)
  {
    var es :| s == Run(cfg, 0, es);
    YoungRunsAreTimely(cfg, 0, 0, es);
  }

  lemma WithoutVerdict(cfg: Config, s: State, e: Event)
    requires AcceptedAtOnce(cfg, s) && !e.Verdict?
    ensures AcceptedAtOnce(cfg, Step(cfg, s, e))
  {
    var es :| s == Run(cfg, 0, es) && VerdictsTimely(cfg, BornAt(0), 0, 0, es);
    RunsOn(cfg, es, e);
    StaysTimely(cfg, es, e);
  }

  lemma RunsOn(cfg: Config, es: seq<Event>, e: Event)
    ensures Run(cfg, 0, es + [e]) == Step(cfg, Run(cfg, 0, es), e)
  {
    assert (es + [e])[..|es|] == es;
  }

  lemma StaysTimely(cfg: Config, es: seq<Event>, e: Event)
    requires VerdictsTimely(cfg, BornAt(0), 0, 0, es) && !e.Verdict?
    ensures VerdictsTimely(cfg, BornAt(0), 0, 0, es + [e])
  {
    assert (es + [e])[..|es|] == es;
  }

  lemma WhileResuming(cfg: Config, s: State, r: nat, k: nat)
    requires AcceptedAtOnce(cfg, s)
    ensures AcceptedAtOnce(cfg, S.Go(cfg, s, r, k))
  {
    var p := e => AcceptedAtOnce(cfg, e);
    forall e | p(e)
      ensures p(S.Resumed(cfg, r)(e))
    {
      WithoutVerdict(cfg, e, Resume(r, Pass));
    }
    S.IterateKeeps(S.Resumed(cfg, r), p, s, k);
  }

  // ---- the split waits, the other request does not -----------------------------------------------------

  const B := O.Good("b")

  /** Request 2 is about to look at its first key, and request 5 has its receipt for payment `b`. */
  ghost predicate Stalled(s: State, c: nat, lines: seq<SplitLine>) {
    && S.Sane(s, 2, c, lines) && |lines| == 2 && ValidSplit(lines) && lines[1].v.txSignature == Some("b")
    && s.threads[2] == SplitCheck(c, lines, 0, false, false)
    && s.receipts != [] && NamedBy(s, |s.receipts| - 1, GlobalKey("transfer", "b"))
  }

  lemma VerifiedBoth(cfg: Config, payer: string) returns (s: State, c: nat, lines: seq<SplitLine>)
    requires O.NoCaps(cfg, payer)
    ensures Reachable(cfg, 0, s) && s.clock == 0 && Stalled(s, c, lines)
  {
    var e := O.RaceIsReachable(cfg, 0, payer);
    O.BothVerify(cfg, e, 2, 5);
    c, lines := e.threads[2].c, O.RacingLines(e, 2);
    var one := Step(cfg, e, Verdict(2, O.Good("a"), Pass));
    var two := Step(cfg, one, Verdict(2, B, Pass));
    StepReaches(cfg, 0, e, Verdict(2, O.Good("a"), Pass));
    StepReaches(cfg, 0, one, Verdict(2, B, Pass));
    L.SettlesReaches(cfg, 0, two, 5, B);
    s := T.Settles(cfg, two, 5, B);
    OtherSettles(cfg, e, two, s, c, lines);
  }

  lemma OtherSettles(cfg: Config, e: State, two: State, s: State, c: nat, lines: seq<SplitLine>)
    requires O.Racing(e, 2, 5) && e.clock == 0 && O.NothingClaimed(e) && e.threads[5].proof == TransferProof("b", None)
    requires T.Alone(e, two, 2) && two.seen == RS.Cleanup(e.seen, e.clock)
    requires S.Sane(two, 2, c, lines) && |lines| == 2 && ValidSplit(lines) && lines[1].v.txSignature == Some("b")
    requires two.threads[2] == SplitCheck(c, lines, 0, false, !Free(two, LineKey(lines[0])))
    requires s == T.Settles(cfg, two, 5, B)
    ensures s.clock == 0 && Stalled(s, c, lines)
  {
    var c', proof := e.threads[5].c, e.threads[5].proof;
    assert forall key :: Free(two, key) <==> Free(e, key);
    assert Free(two, PaymentKey(proof, B)) && Free(two, PaymentScopedKey(QuoteOf(two, c'), proof, B));
    T.AwaitSettles(cfg, two, 5, c', proof, B);
    assert Free(two, LineKey(lines[0]));
  }

  // ---- a lifetime later ----------------------------------------------------------------------------------

  /** The split is through with its claims. */
  ghost predicate ClaimedAgain(s: State, c: nat, lines: seq<SplitLine>) {
    && S.Sane(s, 2, c, lines) && |lines| == 2 && lines[1].v.txSignature == Some("b")
    && s.threads[2] == SplitReturn(c, lines)
    && s.receipts != [] && NamedBy(s, |s.receipts| - 1, GlobalKey("transfer", "b"))
  }

  lemma GoesOn(cfg: Config, s: State, c: nat, lines: seq<SplitLine>) returns (f: State)
    requires Inv(cfg, s) && Stalled(s, c, lines) && AcceptedAtOnce(cfg, s)
    ensures AcceptedAtOnce(cfg, f) && ClaimedAgain(f, c, lines)
  {
    var u := Step(cfg, s, Tick(cfg.replayTtlMs));
    WithoutVerdict(cfg, s, Tick(cfg.replayTtlMs));
    forall key
      ensures Free(u, key)
    {
      AllExpire(cfg, s, key, u.clock);
    }
    f := S.UninterruptedSplit(cfg, u, 2, c, lines);
    NothingInTheWay(u, c, lines);
    var k: nat :| f == S.Go(cfg, u, 2, k);
    WhileResuming(cfg, u, 2, k);
    assert S.Through(cfg, u, f, u.seen, 2, c, lines);
  }

  lemma NothingInTheWay(u: State, c: nat, lines: seq<SplitLine>)
    requires Known(u, c) && AllVerified(lines) && lines != [] && O.NothingClaimed(u)
    ensures S.NoneClaimed(S.Mint(u, c), u.clock, u.seen, lines)
  {
    assert S.FreeFrom(u, c, lines, 0, false);
    S.FreeMeansUnclaimed(u, c, lines);
  }

  lemma IssuesAgain(cfg: Config, f: State, c: nat, lines: seq<SplitLine>)
    requires ClaimedAgain(f, c, lines)
    ensures !ReceiptsInject(Step(cfg, f, Resume(2, Pass)))
  {
    T.Resumes(cfg, f, 2);
    var g, n, key := Step(cfg, f, Resume(2, Pass)), |f.receipts|, GlobalKey("transfer", "b");
    assert g.receipts[n].signed.payload.splitProofs == Some(SplitProofsOf(lines));
    assert SplitProofsOf(lines)[1].txSignature == "b";
    assert g.receipts[n - 1] == f.receipts[n - 1];
    assert NamedBy(g, n - 1, key) && NamedBy(g, n, key);
  }

  /**
   * A verifier that keeps to its window, however short, is not enough where payments are split:
   * a split that is stalled for a key lifetime between its verdicts and its claims gets a second
   * receipt for a payment. On any server without caps this can happen.
   */
  lemma StalledSplitPaysTwice(cfg: Config, payer: string) returns (es: seq<Event>)
    requires O.NoCaps(cfg, payer)
    ensures VerdictsTimely(cfg, BornAt(0), 0, 0, es) && !ReceiptsInject(Run(cfg, 0, es))
  {
    var s, c, lines := VerifiedBoth(cfg, payer);
    AtTheStart(cfg, s);
    L.ReachableInv(cfg, 0, s);
    var f := GoesOn(cfg, s, c, lines);
    IssuesAgain(cfg, f, c, lines);
    WithoutVerdict(cfg, f, Resume(2, Pass));
    var g := Step(cfg, f, Resume(2, Pass));
    es :| g == Run(cfg, 0, es) && VerdictsTimely(cfg, BornAt(0), 0, 0, es);
  }
}
