/**
 * The server's books: the netting ledger agrees with the receipts it issued, and all its
 * receipts form one signed chain (x402/src/server.ts).
 */
module Books {
  import opened Common
  import opened Types
  import opened Receipts
  import opened Protocol
  import N = Netting

  // ---- sums per payer and provider ---------------------------------------------------------

  /** What was charged to `payer` for `provider`. */
  function ChargeSum(cs: seq<N.Charge>, payer: string, provider: string): nat {
    if cs == [] then 0
    else
      var c := cs[|cs| - 1];
      ChargeSum(cs[..|cs| - 1], payer, provider)
      + if c.payer == payer && c.provider == provider then c.amount + c.fee else 0
  }

  /** A receipt for a netting payment that `/finalize` issued to `payer` for `provider`. */
  predicate NettingReceipt(p: ReceiptPayload, payer: string, provider: string) {
    p.settlement == Netting && p.splitProofs.None? && p.commitId.Stored? && p.payer == payer && p.recipient == provider
  }

  /** The sum of the totals on these receipts. */
  function ReceiptSum(rs: seq<Issued>, payer: string, provider: string): nat {
    if rs == [] then 0
    else
      var p := rs[|rs| - 1].signed.payload;
      ReceiptSum(rs[..|rs| - 1], payer, provider) + if NettingReceipt(p, payer, provider) then p.total else 0
  }

  ghost predicate FromCommitments(cs: seq<N.Charge>) {
    forall i :: 0 <= i < |cs| ==> IsCommitment(cs[i].payer)
  }

  lemma LowerAlready(s: string)
    requires IsCommitment(s)
    ensures ToLower(s) == s
  {
  }

  /** Ledger keys do not mix up pairs, so the sum under a key is the sum of its pair. */
  lemma {:induction false} ChargedIsChargeSum(cs: seq<N.Charge>, payer: string, provider: string)
    requires FromCommitments(cs) && IsCommitment(payer)
    ensures N.Charged(cs, N.KeyOf(payer, provider)).gross == ChargeSum(cs, payer, provider)
  {
    if cs != [] {
      var c := cs[|cs| - 1];
      assert IsCommitment(c.payer);
      ChargedIsChargeSum(cs[..|cs| - 1], payer, provider);
      N.KeyOfInjective(c.payer, c.provider, payer, provider);
      LowerAlready(payer);
      LowerAlready(c.payer);
    }
  }

  // ---- the invariant ---------------------------------------------------------------------------

  ghost predicate Tallied(charges: seq<N.Charge>, blocked: seq<N.Charge>, receipts: seq<Issued>) {
    forall payer, provider ::
      ChargeSum(charges, payer, provider) == ReceiptSum(receipts, payer, provider) + ChargeSum(blocked, payer, provider)
  }

  ghost predicate Records(s: State) {
    && (forall q :: 0 <= q < |s.quotes| ==> s.quotes[q].total == s.quotes[q].amount + s.quotes[q].fee)
    && (forall c :: 0 <= c < |s.commits| ==> IsCommitment(s.commits[c].payer))
    && FromCommitments(s.charges)
  }

  ghost predicate Balanced(s: State) {
    && Records(s)
    && N.Sound(N.World(s.ledger, s.charges, s.batches))
    && Tallied(s.charges, s.blocked, s.receipts)
  }

  lemma TallyCharge(charges: seq<N.Charge>, blocked: seq<N.Charge>, receipts: seq<Issued>, c: N.Charge, x: Issued)
    requires Tallied(charges, blocked, receipts)
    requires forall payer, provider :: NettingReceipt(x.signed.payload, payer, provider) <==>
      c.payer == payer && c.provider == provider
    requires x.signed.payload.total == c.amount + c.fee
    ensures Tallied(charges + [c], blocked, receipts + [x]) && Tallied(charges + [c], blocked + [c], receipts)
  {
  }

  lemma TallyOther(charges: seq<N.Charge>, blocked: seq<N.Charge>, receipts: seq<Issued>, x: Issued)
    requires Tallied(charges, blocked, receipts)
    requires forall payer, provider :: !NettingReceipt(x.signed.payload, payer, provider)
    ensures Tallied(charges, blocked, receipts + [x])
  {
  }

  // ---- steps -------------------------------------------------------------------------------------

  /** The books are not touched; quotes and commits may be added or change their status. */
  ghost predicate SameBooks(s: State, s': State) {
    && s'.ledger == s.ledger && s'.charges == s.charges && s'.batches == s.batches
    && s'.blocked == s.blocked && s'.receipts == s.receipts && s'.signed == s.signed && s'.prevHash == s.prevHash
    && (forall q :: 0 <= q < |s'.quotes| ==>
          (q < |s.quotes| && s'.quotes[q] == s.quotes[q]) ||
            s'.quotes[q].total == s'.quotes[q].amount + s'.quotes[q].fee)
    && (forall c :: 0 <= c < |s'.commits| ==>
          (c < |s.commits| && s'.commits[c].payer == s.commits[c].payer) || IsCommitment(s'.commits[c].payer))
  }

  lemma SameBooksBalanced(s: State, s': State)
    requires Balanced(s) && SameBooks(s, s')
    ensures Balanced(s')
  {
  }

  lemma PerformSameBooks(cfg: Config, s: State, r: nat, f: Effect)
    requires r < |s.threads| && Fits(s, f) && !f.Receipt? && !f.Serve?
    ensures SameBooks(s, Perform(cfg, s, r, f))
  {
  }

  lemma FlushBalanced(cfg: Config, s: State, now: int)
    requires Balanced(s)
    ensures Balanced(Step(cfg, s, FlushLedger(now)))
  {
    N.FlushConserves(s.ledger, cfg.netting, now, false, s.charges, s.batches);
    N.FlushFolds(s.ledger, cfg.netting, now, false, s.charges, s.batches);
  }

  lemma ChargeBalanced(cfg: Config, s: State, r: nat, f: Effect)
    requires Balanced(s) && r < |s.threads| && Fits(s, f) && f.Receipt? && f.mode == Netting && f.splits.None?
    ensures Balanced(Perform(cfg, s, r, f))
  {
    var c := ChargeOf(s, f.c);
    var p := FinalizePayload(cfg, s, f.c, f.mode, f.v, f.splits);
    var x := Issued(SignReceipt(cfg.crypto, s.prevHash, p), r);
    N.AddConserves(s.ledger, c, s.charges, s.batches);
    N.AddFolds(s.ledger, c, s.charges, s.batches);
    AddWellFormed(s.ledger, c);
    assert p.payer == c.payer && p.recipient == c.provider;
    TallyCharge(s.charges, s.blocked, s.receipts, c, x);
    assert IsCommitment(c.payer);
    ChargeRecords(cfg, s, r, f);
  }

  lemma ChargeRecords(cfg: Config, s: State, r: nat, f: Effect)
    requires Records(s) && r < |s.threads| && Fits(s, f) && f.Receipt?
    ensures Records(Perform(cfg, s, r, f))
  {
  }

  lemma AddWellFormed(l: N.Ledger, c: N.Charge)
    requires N.WellFormed(l)
    ensures N.WellFormed(N.Add(l, c))
  {
  }

  lemma ReceiptBalanced(cfg: Config, s: State, r: nat, f: Effect)
    requires Balanced(s) && r < |s.threads| && Fits(s, f) && f.Receipt? && !(f.mode == Netting && f.splits.None?)
    ensures Balanced(Perform(cfg, s, r, f))
  {
    var p := FinalizePayload(cfg, s, f.c, f.mode, f.v, f.splits);
    assert s.charges + [] == s.charges && s.blocked + [] == s.blocked;
    TallyOther(s.charges, s.blocked, s.receipts, Issued(SignReceipt(cfg.crypto, s.prevHash, p), r));
    ChargeRecords(cfg, s, r, f);
  }

  lemma ServeBalanced(cfg: Config, s: State, r: nat, f: Effect)
    requires Balanced(s) && r < |s.threads| && Fits(s, f) && f.Serve?
    ensures Balanced(Perform(cfg, s, r, f))
  {
    var s' := Perform(cfg, s, r, f);
    if f.guard == Pass {
      TallyOther(s.charges, s.blocked, s.receipts, s'.receipts[|s.receipts|]);
    }
  }

  lemma PerformBalanced(cfg: Config, s: State, r: nat, f: Effect)
    requires Balanced(s) && r < |s.threads| && Fits(s, f)
    ensures Balanced(Perform(cfg, s, r, f))
  {
    if f.Receipt? && f.mode == Netting && f.splits.None? {
      ChargeBalanced(cfg, s, r, f);
    } else if f.Receipt? {
      ReceiptBalanced(cfg, s, r, f);
    } else if f.Serve? {
      ServeBalanced(cfg, s, r, f);
    } else {
      PerformSameBooks(cfg, s, r, f);
      SameBooksBalanced(s, Perform(cfg, s, r, f));
    }
  }

  lemma RequestSameBooks(cfg: Config, s: State, e: Event)
    requires e.AskQuote? || e.PostCommit? || e.PostFinalize? || e.Get? || e.Tick? || e.Finish?
    ensures SameBooks(s, Step(cfg, s, e))
  {
    match e
    case PostCommit(q, payer) => CommitSameBooks(s, q, payer);
    case Get(resource, commit, compat, p) => GetSameBooks(cfg, s, resource, commit, compat, p);
    case _ =>
  }

  lemma CommitSameBooks(s: State, quoteId: nat, payer: string)
    ensures SameBooks(s, DoCommit(s, quoteId, payer))
  {
  }

  lemma GetSameBooks(cfg: Config, s: State, resource: string, commit: Option<nat>, compat: Option<CompatRequest>,
                     p: Price)
    ensures SameBooks(s, GetResource(cfg, s, resource, commit, compat, p))
  {
  }

  lemma StepBalanced(cfg: Config, s: State, e: Event)
    requires Balanced(s)
    ensures Balanced(Step(cfg, s, e))
  {
    match e
    case Verdict(r, v, guard) =>
      if r < |s.threads| && Runnable(s, s.threads[r]) {
        PerformBalanced(cfg, s, r, OnVerdict(cfg, s, s.threads[r], v, guard));
      }
    case Resume(r, guard) =>
      if r < |s.threads| && Runnable(s, s.threads[r]) {
        PerformBalanced(cfg, s, r, OnResume(s, s.threads[r], guard));
      }
    case Abort(r) =>
      if r < |s.threads| && !s.threads[r].Done? && !s.threads[r].Delivering? {
        PerformBalanced(cfg, s, r, Move(Done(Dropped)));
      }
    case FlushLedger(now) => FlushBalanced(cfg, s, now);
    case _ =>
      RequestSameBooks(cfg, s, e);
      SameBooksBalanced(s, Step(cfg, s, e));
  }

  lemma {:induction false} RunBalanced(cfg: Config, start: nat, es: seq<Event>)
    ensures Balanced(Run(cfg, start, es))
  {
    if es != [] {
      RunBalanced(cfg, start, es[..|es| - 1]);
      StepBalanced(cfg, Run(cfg, start, es[..|es| - 1]), es[|es| - 1]);
    }
  }

  /**
   * In every reachable state a flush of the server's ledger takes out exactly the entries that
   * are due, in arithmetic, and appends one batch for each to what was flushed before.
   */
  lemma ServerFlushesExactly(cfg: Config, start: nat, es: seq<Event>, now: int)
    ensures var s, s' := Run(cfg, start, es), Step(cfg, Run(cfg, start, es), FlushLedger(now));
            && |s.batches| <= |s'.batches| && s'.batches[..|s.batches|] == s.batches
            && N.TookOut(s.ledger, s'.ledger, s'.batches[|s.batches|..])
            && forall k :: k in s'.ledger.entries <==>
                 && k in s.ledger.entries
                 && s.ledger.entries[k].gross < cfg.netting.threshold
                 && (cfg.netting.feeThreshold == 0 || s.ledger.entries[k].feeDue < cfg.netting.feeThreshold)
                 && now - s.ledger.entries[k].firstSeen < cfg.netting.intervalMs
  {
    RunBalanced(cfg, start, es);
    FlushesExactly(cfg, Run(cfg, start, es), now);
  }

  lemma FlushesExactly(cfg: Config, s: State, now: int)
    requires N.WellFormed(s.ledger)
    ensures var s' := Step(cfg, s, FlushLedger(now));
            && |s.batches| <= |s'.batches| && s'.batches[..|s.batches|] == s.batches
            && N.TookOut(s.ledger, s'.ledger, s'.batches[|s.batches|..])
            && forall k :: k in s'.ledger.entries <==>
                 && k in s.ledger.entries
                 && s.ledger.entries[k].gross < cfg.netting.threshold
                 && (cfg.netting.feeThreshold == 0 || s.ledger.entries[k].feeDue < cfg.netting.feeThreshold)
                 && now - s.ledger.entries[k].firstSeen < cfg.netting.intervalMs
  {
    N.FlushExactly(s.ledger, cfg.netting, now);
    var (l, bs) := N.Flush(s.ledger, cfg.netting, now, false);
    var s' := Step(cfg, s, FlushLedger(now));
    assert s'.batches == s.batches + bs && s'.batches[|s.batches|..] == bs;
  }

  // ---- the theorems --------------------------------------------------------------------------------

  /** What the ledger holds for a pair: flushed batches plus the outstanding entry. */
  function LedgerSum(s: State, payer: string, provider: string): nat {
    N.Accounted(s.ledger, s.batches, N.KeyOf(payer, provider)).gross
  }

  /**
   * For every payer and provider the ledger holds what the netting receipts say, plus the
   * charges whose receipt the guard blocked.
   */
  lemma LedgerAgreesWithReceipts(cfg: Config, start: nat, es: seq<Event>, payer: string, provider: string)
    requires IsCommitment(payer)
    ensures var s := Run(cfg, start, es);
            && LedgerSum(s, payer, provider) ==
               ReceiptSum(s.receipts, payer, provider) + ChargeSum(s.blocked, payer, provider)
            && (LedgerSum(s, payer, provider) == ReceiptSum(s.receipts, payer, provider) <==>
                ChargeSum(s.blocked, payer, provider) == 0)
  {
    RunBalanced(cfg, start, es);
    BalancedAgrees(Run(cfg, start, es), payer, provider);
  }

  lemma BalancedAgrees(s: State, payer: string, provider: string)
    requires Balanced(s) && IsCommitment(payer)
    ensures LedgerSum(s, payer, provider) ==
      ReceiptSum(s.receipts, payer, provider) + ChargeSum(s.blocked, payer, provider)
  {
    ChargedIsChargeSum(s.charges, payer, provider);
    assert N.Conserved(s.ledger, s.charges, s.batches);
  }

  /** No step of the run lets the guard block a receipt. */
  ghost predicate NeverBlocks(es: seq<Event>) {
    forall i :: 0 <= i < |es| && (es[i].Verdict? || es[i].Resume?) ==> es[i].guard == Pass
  }

  lemma PassBlocksNothing(cfg: Config, s: State, r: nat, f: Effect)
    requires r < |s.threads| && Fits(s, f) && (f.Receipt? ==> f.guard == Pass)
    ensures Perform(cfg, s, r, f).blocked == s.blocked
  {
  }

  lemma StepBlocksNothing(cfg: Config, s: State, e: Event)
    requires (e.Verdict? || e.Resume?) ==> e.guard == Pass
    ensures Step(cfg, s, e).blocked == s.blocked
  {
    match e
    case Verdict(r, v, guard) =>
      if r < |s.threads| && Runnable(s, s.threads[r]) {
        PassBlocksNothing(cfg, s, r, OnVerdict(cfg, s, s.threads[r], v, guard));
      }
    case Resume(r, guard) =>
      if r < |s.threads| && Runnable(s, s.threads[r]) {
        PassBlocksNothing(cfg, s, r, OnResume(s, s.threads[r], guard));
      }
    case FlushLedger(_) =>
    case Abort(_) =>
    case _ => RequestSameBooks(cfg, s, e);
  }

  lemma {:induction false} BlocksNothing(cfg: Config, start: nat, es: seq<Event>)
    requires NeverBlocks(es)
    ensures Run(cfg, start, es).blocked == []
  {
    if es != [] {
      BlocksNothing(cfg, start, es[..|es| - 1]);
      StepBlocksNothing(cfg, Run(cfg, start, es[..|es| - 1]), es[|es| - 1]);
    }
  }

  /** If no receipt is blocked, ledger and receipts agree for every pair. */
  lemma UnblockedLedgerAgrees(cfg: Config, start: nat, es: seq<Event>, payer: string, provider: string)
    requires NeverBlocks(es) && IsCommitment(payer)
    ensures LedgerSum(Run(cfg, start, es), payer, provider) == ReceiptSum(Run(cfg, start, es).receipts, payer, provider)
  {
    BlocksNothing(cfg, start, es);
    LedgerAgreesWithReceipts(cfg, start, es, payer, provider);
  }

  // ---- one chain of receipts ---------------------------------------------------------------------------

  /** All that was ever signed is one chain; stored receipts are on it and know their own id. */
  ghost predicate OneChain(cfg: Config, s: State) {
    && Chained(cfg.crypto, s.signed) && ServerSigned(cfg.crypto, s.signed) && s.prevHash == Tip(s.signed)
    && (forall x :: 0 <= x < |s.receipts| ==>
        s.receipts[x].signed in s.signed && s.receipts[x].signed.payload.receiptId == x)
  }

  lemma SignKeepsChain(cfg: Config, s: State, s': State, p: ReceiptPayload)
    requires SignaturesVerify(cfg.crypto) && OneChain(cfg, s) && p.receiptId == |s.receipts|
    requires var x := SignReceipt(cfg.crypto, s.prevHash, p);
             && s'.signed == s.signed + [x] && s'.prevHash == x.receiptHash
             && (s'.receipts == s.receipts ||
                 (|s'.receipts| == |s.receipts| + 1 && s'.receipts[..|s.receipts|] == s.receipts
                                               && s'.receipts[|s.receipts|].signed == x))
    ensures OneChain(cfg, s')
  {
    ChainedExtends(cfg.crypto, s.signed, p);
    forall x | 0 <= x < |s'.receipts|
      ensures s'.receipts[x].signed in s'.signed && s'.receipts[x].signed.payload.receiptId == x
    {
      if x < |s.receipts| {
        assert s'.receipts[x] == s.receipts[x];
      }
    }
  }

  lemma PerformOneChain(cfg: Config, s: State, r: nat, f: Effect)
    requires SignaturesVerify(cfg.crypto) && OneChain(cfg, s) && r < |s.threads| && Fits(s, f)
    ensures OneChain(cfg, Perform(cfg, s, r, f))
  {
    if f.Receipt? && f.guard != BlockBeforeSign {
      SignKeepsChain(cfg, s, Perform(cfg, s, r, f), FinalizePayload(cfg, s, f.c, f.mode, f.v, f.splits));
    } else if f.Serve? && f.guard != BlockBeforeSign {
      ServeOneChain(cfg, s, r, f);
    }
  }

  lemma ServeOneChain(cfg: Config, s: State, r: nat, f: Effect)
    requires SignaturesVerify(cfg.crypto) && OneChain(cfg, s) && r < |s.threads| && Fits(s, f)
    requires f.Serve? && f.guard != BlockBeforeSign
    ensures OneChain(cfg, Perform(cfg, s, r, f))
  {
    var s' := Perform(cfg, s, r, f);
    SignKeepsChain(cfg, s, s', s'.signed[|s.signed|].payload);
  }

  lemma StepOneChain(cfg: Config, s: State, e: Event)
    requires SignaturesVerify(cfg.crypto) && OneChain(cfg, s)
    ensures OneChain(cfg, Step(cfg, s, e))
  {
    match e
    case Verdict(r, v, guard) =>
      if r < |s.threads| && Runnable(s, s.threads[r]) {
        PerformOneChain(cfg, s, r, OnVerdict(cfg, s, s.threads[r], v, guard));
      }
    case Resume(r, guard) =>
      if r < |s.threads| && Runnable(s, s.threads[r]) {
        PerformOneChain(cfg, s, r, OnResume(s, s.threads[r], guard));
      }
    case Abort(_) =>
    case FlushLedger(_) =>
    case _ => RequestSameBooks(cfg, s, e);
  }

  /** In every interleaving the server signs one chain, and every receipt it stored verifies. */
  lemma {:induction false} ServerSignsOneChain(cfg: Config, start: nat, es: seq<Event>)
    requires SignaturesVerify(cfg.crypto)
    ensures OneChain(cfg, Run(cfg, start, es))
  {
    if es != [] {
      ServerSignsOneChain(cfg, start, es[..|es| - 1]);
      StepOneChain(cfg, Run(cfg, start, es[..|es| - 1]), es[|es| - 1]);
    }
  }

  lemma StoredReceiptVerifies(cfg: Config, start: nat, es: seq<Event>, x: nat)
    requires SignaturesVerify(cfg.crypto) && x < |Run(cfg, start, es).receipts|
    ensures VerifySignedReceipt(cfg.crypto, Run(cfg, start, es).receipts[x].signed)
  {
    ServerSignsOneChain(cfg, start, es);
    var s := Run(cfg, start, es);
    var i :| 0 <= i < |s.signed| && s.signed[i] == s.receipts[x].signed;
    ChainedAt(cfg.crypto, s.signed, i);
  }

  // ---- receipts state terms that the server issued --------------------------------------------------------

  predicate StatesQuote(p: ReceiptPayload, q: Quote) {
    && p.resource == q.resource && p.recipient == q.recipient && p.mint == q.mint
    && p.amount == q.amount && p.fee == q.fee && p.total == q.total
  }

  /** Quotes know their own id, and every receipt repeats the quote it names. */
  ghost predicate TermsIssued(s: State) {
    && (forall q :: 0 <= q < |s.quotes| ==> s.quotes[q].quoteId == q)
    && (forall x :: 0 <= x < |s.receipts| ==>
          var p := s.receipts[x].signed.payload; p.quoteId < |s.quotes| && StatesQuote(p, s.quotes[p.quoteId]))
  }

  lemma PerformTermsIssued(cfg: Config, s: State, r: nat, f: Effect)
    requires TermsIssued(s) && r < |s.threads| && Fits(s, f)
    ensures TermsIssued(Perform(cfg, s, r, f))
  {
    var s' := Perform(cfg, s, r, f);
    assert s'.quotes == s.quotes;
    if f.Receipt? && f.guard == Pass {
      var p := FinalizePayload(cfg, s, f.c, f.mode, f.v, f.splits);
      assert StatesQuote(p, QuoteOf(s, f.c)) && s'.receipts == s.receipts + [s'.receipts[|s.receipts|]];
    } else if f.Serve? && f.guard == Pass {
      assert StatesQuote(s'.receipts[|s.receipts|].signed.payload, s.quotes[f.q]);
      assert s'.receipts == s.receipts + [s'.receipts[|s.receipts|]];
    } else {
      assert s'.receipts == s.receipts;
    }
  }

  lemma RequestTermsIssued(cfg: Config, s: State, e: Event)
    requires TermsIssued(s) && (e.AskQuote? || e.PostCommit? || e.PostFinalize? || e.Get? || e.Tick? || e.Finish?)
    ensures TermsIssued(Step(cfg, s, e))
  {
    RequestSameBooks(cfg, s, e);
    QuotesAppended(cfg, s, e);
  }

  lemma QuotesAppended(cfg: Config, s: State, e: Event)
    requires e.AskQuote? || e.PostCommit? || e.PostFinalize? || e.Get? || e.Tick? || e.Finish?
    ensures var s' := Step(cfg, s, e);
            s'.quotes == s.quotes ||
              (|s'.quotes| == |s.quotes| + 1 && s.quotes <= s'.quotes && s'.quotes[|s.quotes|].quoteId == |s.quotes|)
  {
  }

  lemma StepTermsIssued(cfg: Config, s: State, e: Event)
    requires TermsIssued(s)
    ensures TermsIssued(Step(cfg, s, e))
  {
    match e
    case Verdict(r, v, guard) =>
      if r < |s.threads| && Runnable(s, s.threads[r]) {
        PerformTermsIssued(cfg, s, r, OnVerdict(cfg, s, s.threads[r], v, guard));
      }
    case Resume(r, guard) =>
      if r < |s.threads| && Runnable(s, s.threads[r]) {
        PerformTermsIssued(cfg, s, r, OnResume(s, s.threads[r], guard));
      }
    case Abort(_) =>
    case FlushLedger(_) =>
    case _ => RequestTermsIssued(cfg, s, e);
  }

  /** Whatever a request claims about its payment, its receipt states the terms of a quote the server issued. */
  lemma {:induction false} ReceiptsStateIssuedTerms(cfg: Config, start: nat, es: seq<Event>)
    ensures TermsIssued(Run(cfg, start, es))
  {
    if es != [] {
      ReceiptsStateIssuedTerms(cfg, start, es[..|es| - 1]);
      StepTermsIssued(cfg, Run(cfg, start, es[..|es| - 1]), es[|es| - 1]);
    }
  }
}
