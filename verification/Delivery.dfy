/**
 * Delivery tokens and finalization: a commit is delivered at most once, and when finalize
 * calls on it do not overlap, being finalized is final (x402/src/server.ts).
 */
module Delivery {
  import opened Common
  import opened Types
  import opened Protocol

  // ---- records refer to records that exist ---------------------------------------------------

  /** Receipt `x` was issued for commit `c`. */
  predicate ReceiptFor(s: State, x: nat, c: nat) {
    x < |s.receipts| && s.receipts[x].signed.payload.commitId == Stored(c)
  }

  /** Whatever thread `r` refers to is there, and is its own. */
  predicate Linked(s: State, t: Thread, r: nat) {
    Runnable(s, t) &&
    match t
    case AwaitLedger(c, x, _) => ReceiptFor(s, x, c)
    case Delivering(c, x) => ReceiptFor(s, x, c)
    case Done(Served(Stored(c), x)) => c < |s.commits| && ReceiptFor(s, x, c)
    case Done(Served(Synthetic(q), x)) =>
      q == r && x < |s.receipts| && s.receipts[x].signed.payload.commitId == Synthetic(r)
    case Done(ServeFailed(c, x, _)) => c < |s.commits| && ReceiptFor(s, x, c)
    case _ => true
  }

  ghost predicate AllLinked(s: State) {
    && (forall c :: 0 <= c < |s.commits| ==> Known(s, c))
    && (forall c :: 0 <= c < |s.commits| && s.commits[c].receiptId.Some? ==>
        ReceiptFor(s, s.commits[c].receiptId.value, c))
    && (forall r :: 0 <= r < |s.threads| ==> Linked(s, s.threads[r], r))
  }

  /** Quotes and receipts are appended; commits are appended and keep their quote. */
  ghost predicate Extends(s: State, s': State) {
    && s.quotes <= s'.quotes && s.receipts <= s'.receipts && |s.commits| <= |s'.commits|
    && (forall c :: 0 <= c < |s.commits| ==> s'.commits[c].quoteId == s.commits[c].quoteId)
  }

  lemma LinkedGrows(s: State, s': State, t: Thread, r: nat)
    requires Linked(s, t, r) && Extends(s, s')
    ensures Linked(s', t, r)
  {
  }

  /** Thread `r` becomes `t`; the other threads stay. */
  lemma LinksKept(s: State, s': State, r: nat, t: Thread)
    requires AllLinked(s) && Extends(s, s')
    requires (r < |s.threads| && s'.threads == s.threads[r := t]) || (r == |s.threads| && s'.threads == s.threads + [t])
    requires Linked(s', t, r)
    requires forall c :: |s.commits| <= c < |s'.commits| ==> Known(s', c)
    requires forall c :: 0 <= c < |s'.commits| && s'.commits[c].receiptId.Some? ==>
      (c < |s.commits| && s'.commits[c].receiptId == s.commits[c].receiptId) ||
        ReceiptFor(s', s'.commits[c].receiptId.value, c)
    ensures AllLinked(s')
  {
    forall c | 0 <= c < |s'.commits|
      ensures Known(s', c)
    {
      assert c < |s.commits| ==> Known(s, c);
    }
    forall q | 0 <= q < |s'.threads|
      ensures Linked(s', s'.threads[q], q)
    {
      if q != r {
        LinkedGrows(s, s', s.threads[q], q);
      }
    }
  }

  lemma ReceiptLinks(cfg: Config, s: State, r: nat, f: Effect)
    requires AllLinked(s) && r < |s.threads| && Fits(s, f) && (f.Receipt? || f.Serve?)
    ensures AllLinked(Perform(cfg, s, r, f))
  {
    if f.Receipt? {
      FinalizeReceiptLinks(cfg, s, r, f);
    } else {
      var s' := Perform(cfg, s, r, f);
      LinksKept(s, s', r, s'.threads[r]);
    }
  }

  lemma FinalizeReceiptLinks(cfg: Config, s: State, r: nat, f: Effect)
    requires AllLinked(s) && r < |s.threads| && Fits(s, f) && f.Receipt?
    ensures AllLinked(Perform(cfg, s, r, f))
  {
    var s' := Perform(cfg, s, r, f);
    LinksKept(s, s', r, s'.threads[r]);
  }

  /** The thread an effect moves to is linked already. */
  ghost predicate Lands(s: State, r: nat, f: Effect) {
    match f
    case Move(t) => Linked(s, t, r)
    case Sweep(t) => Linked(s, t, r)
    case Claim(_, t) => Linked(s, t, r)
    case Settle(c, x, _) => ReceiptFor(s, x, c)
    case _ => true
  }

  lemma PerformLinks(cfg: Config, s: State, r: nat, f: Effect)
    requires AllLinked(s) && r < |s.threads| && Fits(s, f) && Lands(s, r, f)
    ensures AllLinked(Perform(cfg, s, r, f))
  {
    var s' := Perform(cfg, s, r, f);
    if f.Receipt? || f.Serve? {
      ReceiptLinks(cfg, s, r, f);
    } else if !f.Stay? {
      LinkedGrows(s, s', s.threads[r], r);
      LinksKept(s, s', r, s'.threads[r]);
    }
  }

  lemma VerdictLands(cfg: Config, s: State, r: nat, v: Verification, guard: Guard)
    requires AllLinked(s) && r < |s.threads|
    ensures Lands(s, r, OnVerdict(cfg, s, s.threads[r], v, guard))
  {
  }

  lemma ResumeLands(s: State, r: nat, guard: Guard)
    requires AllLinked(s) && r < |s.threads|
    ensures Lands(s, r, OnResume(s, s.threads[r], guard))
  {
    assert Linked(s, s.threads[r], r);
    match s.threads[r]
    case SplitCheck(_, _, _, _, _) => SplitLands(s, r, guard);
    case SplitClaim(_, _, _, _, _) => SplitLands(s, r, guard);
    case _ =>
  }

  lemma SplitLands(s: State, r: nat, guard: Guard)
    requires r < |s.threads| && Linked(s, s.threads[r], r) && (s.threads[r].SplitCheck? || s.threads[r].SplitClaim?)
    ensures Lands(s, r, OnResume(s, s.threads[r], guard))
  {
  }

  lemma QuoteLinks(cfg: Config, s: State, resource: string, p: Price)
    requires AllLinked(s)
    ensures AllLinked(Spawn(IssueQuote(cfg, s, resource, p), Done(Quoted(|s.quotes|))))
  {
    LinksKept(s, Spawn(IssueQuote(cfg, s, resource, p), Done(Quoted(|s.quotes|))), |s.threads|,
              Done(Quoted(|s.quotes|)));
  }

  lemma CommitLinks(s: State, quoteId: nat, payer: string)
    requires AllLinked(s)
    ensures AllLinked(DoCommit(s, quoteId, payer))
  {
    var s' := DoCommit(s, quoteId, payer);
    if s'.commits == s.commits {
      LinksKept(s, s', |s.threads|, s'.threads[|s.threads|]);
    } else {
      NewCommitLinks(s, s', s'.commits[|s.commits|]);
    }
  }

  lemma NewCommitLinks(s: State, s': State, commit: Commit)
    requires AllLinked(s) && commit.quoteId < |s.quotes| && commit.receiptId.None?
    requires s' == s.(commits := s.commits + [commit], threads := s.threads + [Done(Committed(|s.commits|))])
    ensures AllLinked(s')
  {
    LinksKept(s, s', |s.threads|, Done(Committed(|s.commits|)));
  }

  lemma CompatLinks(s: State, resource: string, req: CompatRequest)
    requires AllLinked(s)
    ensures AllLinked(StartCompat(s, resource, req))
  {
    var s' := StartCompat(s, resource, req);
    LinksKept(s, s', |s.threads|, s'.threads[|s.threads|]);
  }

  lemma DeliveryLinks(s: State, c: nat, resource: string)
    requires AllLinked(s) && Deliverable(s, c, resource)
    ensures AllLinked(StartDelivery(s, c, resource))
  {
    var s' := StartDelivery(s, c, resource);
    LinksKept(s, s', |s.threads|, s'.threads[|s.threads|]);
  }

  lemma GetLinks(cfg: Config, s: State, resource: string, commit: Option<nat>, compat: Option<CompatRequest>, p: Price)
    requires AllLinked(s)
    ensures AllLinked(GetResource(cfg, s, resource, commit, compat, p))
  {
    if commit.Some? && Deliverable(s, commit.value, resource) {
      DeliveryLinks(s, commit.value, resource);
    } else if compat.Some? {
      CompatLinks(s, resource, compat.value);
    } else {
      QuoteLinks(cfg, s, resource, p);
    }
  }

  lemma FinalizeLinks(cfg: Config, s: State, c: nat, proof: Option<PaymentProof>, items: seq<(string, PaymentProof)>)
    requires AllLinked(s)
    ensures AllLinked(StartFinalize(cfg, s, c, proof, items))
  {
    var s' := StartFinalize(cfg, s, c, proof, items);
    var t := Admit(cfg, s, c, proof, items).t;
    assert Linked(s, t, |s.threads|);
    LinkedGrows(s, s', t, |s.threads|);
    LinksKept(s, s', |s.threads|, t);
  }

  lemma FinishLinks(s: State, r: nat, status: nat)
    requires AllLinked(s) && r < |s.threads| && s.threads[r].Delivering?
    ensures AllLinked(OnFinish(s, r, s.threads[r].c, s.threads[r].receiptId, status))
  {
    var s' := OnFinish(s, r, s.threads[r].c, s.threads[r].receiptId, status);
    LinksKept(s, s', r, s'.threads[r]);
  }

  lemma StepLinks(cfg: Config, s: State, e: Event)
    requires AllLinked(s)
    ensures AllLinked(Step(cfg, s, e))
  {
    match e
    case Verdict(r, v, guard) =>
      if r < |s.threads| {
        VerdictLands(cfg, s, r, v, guard);
        PerformLinks(cfg, s, r, OnVerdict(cfg, s, s.threads[r], v, guard));
      }
    case Resume(r, guard) =>
      if r < |s.threads| {
        ResumeLands(s, r, guard);
        PerformLinks(cfg, s, r, OnResume(s, s.threads[r], guard));
      }
    case Finish(r, status) => if r < |s.threads| && s.threads[r].Delivering? { FinishLinks(s, r, status); }
    case Abort(r) =>
      if r < |s.threads| && !s.threads[r].Done? && !s.threads[r].Delivering? {
        PerformLinks(cfg, s, r, Move(Done(Dropped)));
      }
    case PostFinalize(c, proof, items) => FinalizeLinks(cfg, s, c, proof, items);
    case AskQuote(resource, p) => QuoteLinks(cfg, s, resource, p);
    case PostCommit(q, payer) => CommitLinks(s, q, payer);
    case Get(resource, commit, compat, p) => GetLinks(cfg, s, resource, commit, compat, p);
    case _ => ClockAndLedger(cfg, s, e);
  }

  lemma ClockAndLedger(cfg: Config, s: State, e: Event)
    requires AllLinked(s) && (e.Tick? || e.FlushLedger?)
    ensures AllLinked(Step(cfg, s, e))
  {
    var s' := Step(cfg, s, e);
    assert Extends(s, s') && s'.commits == s.commits && s'.threads == s.threads;
    forall c | 0 <= c < |s.commits|
      ensures Known(s', c)
    {
      assert Known(s, c);
    }
    forall r | 0 <= r < |s.threads|
      ensures Linked(s', s.threads[r], r)
    {
      LinkedGrows(s, s', s.threads[r], r);
    }
  }

  /** No continuation of any reachable thread ever finds what it relies on missing. */
  lemma {:induction false} RunLinks(cfg: Config, start: nat, es: seq<Event>)
    ensures AllLinked(Run(cfg, start, es))
  {
    if es != [] {
      RunLinks(cfg, start, es[..|es| - 1]);
      StepLinks(cfg, Run(cfg, start, es[..|es| - 1]), es[|es| - 1]);
    }
  }

  // ---- delivery tokens -------------------------------------------------------------------------

  /** The commit whose token this thread holds: under delivery, delivered, or never given back. */
  function Holds(t: Thread): Option<nat> {
    match t
    case Delivering(c, _) => Some(c)
    case Done(Served(Stored(c), _)) => Some(c)
    case Done(ServeFailed(c, _, restored)) => if restored then None else Some(c)
    case _ => None
  }

  /** A commit is marked consumed exactly while one thread holds its token. */
  ghost predicate Tokens(s: State) {
    && (forall r :: 0 <= r < |s.threads| && Holds(s.threads[r]).Some? ==>
          Holds(s.threads[r]).value < |s.commits| && s.commits[Holds(s.threads[r]).value].consumedAt.Some?)
    && (forall c :: 0 <= c < |s.commits| && s.commits[c].consumedAt.Some? ==> Held(s, c))
    && (forall r, q :: 0 <= r < q < |s.threads| && Holds(s.threads[r]).Some? ==>
        Holds(s.threads[r]) != Holds(s.threads[q]))
  }

  ghost predicate Held(s: State, c: nat) {
    exists r :: 0 <= r < |s.threads| && Holds(s.threads[r]) == Some(c)
  }

  /** No token changes hands, and new threads and commits have none. */
  ghost predicate NoTokenMoves(s: State, s': State) {
    && |s.threads| <= |s'.threads| && |s.commits| <= |s'.commits|
    && (forall r :: 0 <= r < |s'.threads| ==>
        Holds(s'.threads[r]) == if r < |s.threads| then Holds(s.threads[r]) else None)
    && (forall c :: 0 <= c < |s'.commits| ==>
          s'.commits[c].consumedAt == if c < |s.commits| then s.commits[c].consumedAt else None)
  }

  lemma NoMoveKeeps(s: State, s': State)
    requires Tokens(s) && NoTokenMoves(s, s')
    ensures Tokens(s')
  {
  }

  lemma PerformMovesNone(cfg: Config, s: State, r: nat, f: Effect)
    requires r < |s.threads| && Fits(s, f) && Holds(s.threads[r]).None?
    requires (f.Move? || f.Sweep? || f.Claim?) ==> Holds(f.t).None?
    ensures NoTokenMoves(s, Perform(cfg, s, r, f))
  {
  }

  lemma VerdictTakesNone(cfg: Config, s: State, t: Thread, v: Verification, guard: Guard)
    requires Runnable(s, t)
    ensures var f := OnVerdict(cfg, s, t, v, guard);
            f.Stay? || (Holds(t).None? && ((f.Move? || f.Sweep? || f.Claim?) ==> Holds(f.t).None?))
  {
  }

  lemma ResumeTakesNone(s: State, t: Thread, guard: Guard)
    requires Runnable(s, t)
    ensures var f := OnResume(s, t, guard);
            f.Stay? || (Holds(t).None? && ((f.Move? || f.Sweep? || f.Claim?) ==> Holds(f.t).None?))
  {
  }

  lemma StartDeliveryTokens(s: State, c: nat, resource: string)
    requires Tokens(s) && Deliverable(s, c, resource)
    ensures Tokens(StartDelivery(s, c, resource))
  {
    var s' := StartDelivery(s, c, resource);
    assert Holds(s'.threads[|s.threads|]) == Some(c);
    forall d | 0 <= d < |s'.commits| && s'.commits[d].consumedAt.Some?
      ensures Held(s', d)
    {
      if d != c {
        var r :| 0 <= r < |s.threads| && Holds(s.threads[r]) == Some(d);
        assert Holds(s'.threads[r]) == Some(d);
      }
    }
  }

  lemma FinishTokens(s: State, r: nat, status: nat)
    requires Tokens(s) && r < |s.threads| && s.threads[r].Delivering? && Known(s, s.threads[r].c)
    ensures Tokens(OnFinish(s, r, s.threads[r].c, s.threads[r].receiptId, status))
  {
    var c := s.threads[r].c;
    var s' := OnFinish(s, r, c, s.threads[r].receiptId, status);
    assert Holds(s.threads[r]) == Some(c);
    if Holds(s'.threads[r]) == Some(c) {
      assert forall q :: 0 <= q < |s.threads| ==> Holds(s'.threads[q]) == Holds(s.threads[q]);
      NoMoveKeeps(s, s');
    } else {
      TokenGivenBack(s, s', r, c);
    }
  }

  lemma TokenGivenBack(s: State, s': State, r: nat, c: nat)
    requires Tokens(s) && r < |s.threads| && Holds(s.threads[r]) == Some(c) && c < |s.commits|
    requires |s'.threads| == |s.threads| && Holds(s'.threads[r]).None?
    requires forall q :: 0 <= q < |s.threads| && q != r ==> s'.threads[q] == s.threads[q]
    requires s'.commits == s.commits[c := s.commits[c].(consumedAt := None)]
    ensures Tokens(s')
  {
    forall d | 0 <= d < |s'.commits| && s'.commits[d].consumedAt.Some?
      ensures Held(s', d)
    {
      var q :| 0 <= q < |s.threads| && Holds(s.threads[q]) == Some(d);
      assert Holds(s'.threads[q]) == Some(d);
    }
  }

  lemma RequestTokens(cfg: Config, s: State, e: Event)
    requires Tokens(s) && (e.AskQuote? || e.PostCommit? || e.PostFinalize?)
    ensures Tokens(Step(cfg, s, e))
  {
    if e.PostFinalize? {
      FinalizeMovesNone(cfg, s, e.commitId, e.proof, e.items);
    } else if e.PostCommit? {
      CommitMovesNone(s, e.quoteId, e.payer);
    }
    NoMoveKeeps(s, Step(cfg, s, e));
  }

  lemma FinalizeMovesNone(cfg: Config, s: State, c: nat, proof: Option<PaymentProof>,
                          items: seq<(string, PaymentProof)>)
    ensures NoTokenMoves(s, StartFinalize(cfg, s, c, proof, items))
  {
    assert Holds(Admit(cfg, s, c, proof, items).t).None?;
  }

  lemma CommitMovesNone(s: State, quoteId: nat, payer: string)
    ensures NoTokenMoves(s, DoCommit(s, quoteId, payer))
  {
  }

  lemma GetTokens(cfg: Config, s: State, e: Event)
    requires Tokens(s) && e.Get?
    ensures Tokens(Step(cfg, s, e))
  {
    if e.commitHeader.Some? && Deliverable(s, e.commitHeader.value, e.resource) {
      StartDeliveryTokens(s, e.commitHeader.value, e.resource);
    } else {
      NoMoveKeeps(s, Step(cfg, s, e));
    }
  }

  lemma StepTokens(cfg: Config, s: State, e: Event)
    requires Tokens(s)
    ensures Tokens(Step(cfg, s, e))
  {
    match e
    case Verdict(r, v, guard) =>
      if r < |s.threads| && Runnable(s, s.threads[r]) {
        VerdictTakesNone(cfg, s, s.threads[r], v, guard);
        PerformTokens(cfg, s, r, OnVerdict(cfg, s, s.threads[r], v, guard));
      }
    case Resume(r, guard) =>
      if r < |s.threads| && Runnable(s, s.threads[r]) {
        ResumeTakesNone(s, s.threads[r], guard);
        PerformTokens(cfg, s, r, OnResume(s, s.threads[r], guard));
      }
    case Finish(r, status) =>
      if r < |s.threads| && s.threads[r].Delivering? && Known(s, s.threads[r].c) { FinishTokens(s, r, status); }
    case Abort(r) =>
      if r < |s.threads| && !s.threads[r].Done? && !s.threads[r].Delivering? {
        PerformTokens(cfg, s, r, Move(Done(Dropped)));
      }
    case Get(_, _, _, _) => GetTokens(cfg, s, e);
    case Tick(_) => NoMoveKeeps(s, Step(cfg, s, e));
    case FlushLedger(_) => NoMoveKeeps(s, Step(cfg, s, e));
    case _ => RequestTokens(cfg, s, e);
  }

  lemma PerformTokens(cfg: Config, s: State, r: nat, f: Effect)
    requires Tokens(s) && r < |s.threads| && Fits(s, f)
    requires f.Stay? || (Holds(s.threads[r]).None? && ((f.Move? || f.Sweep? || f.Claim?) ==> Holds(f.t).None?))
    ensures Tokens(Perform(cfg, s, r, f))
  {
    if !f.Stay? {
      PerformMovesNone(cfg, s, r, f);
      NoMoveKeeps(s, Perform(cfg, s, r, f));
    }
  }

  lemma {:induction false} RunTokens(cfg: Config, start: nat, es: seq<Event>)
    ensures Tokens(Run(cfg, start, es))
  {
    if es != [] {
      RunTokens(cfg, start, es[..|es| - 1]);
      StepTokens(cfg, Run(cfg, start, es[..|es| - 1]), es[|es| - 1]);
    }
  }

  // ---- finalize calls that do not overlap --------------------------------------------------------

  /** The commit that this thread is finalizing. */
  function LiveOn(t: Thread): Option<nat> {
    match t
    case AwaitVerify(c, _) => Some(c)
    case AwaitGlobal(c, _, _, _) => Some(c)
    case AwaitScoped(c, _, _, _) => Some(c)
    case SplitVerify(c, _, _) => Some(c)
    case SplitCheck(c, _, _, _, _) => Some(c)
    case SplitClaim(c, _, _, _, _) => Some(c)
    case SplitReturn(c, _) => Some(c)
    case AwaitLedger(c, _, _) => Some(c)
    case _ => None
  }

  ghost predicate NoOverlap(s: State, c: nat) {
    forall r, q :: 0 <= r < q < |s.threads| && LiveOn(s.threads[r]) == Some(c) ==> LiveOn(s.threads[q]) != Some(c)
  }

  /** At no time in the run are two finalize calls on `c` under way. */
  ghost predicate NeverOverlaps(cfg: Config, start: nat, es: seq<Event>, c: nat) {
    forall n :: 0 <= n <= |es| ==> NoOverlap(Run(cfg, start, es[..n]), c)
  }

  /** What is known of a thread about commit `c` while finalize calls on it do not overlap. */
  predicate Orderly(t: Thread, commit: Commit, c: nat) {
    && (commit.status == Finalized ==> LiveOn(t) != Some(c))
    && (t.Delivering? && t.c == c ==> commit.receiptId == Some(t.receiptId))
    && (t.Done? && t.reply.ServeFailed? && t.reply.commitId == c ==> t.reply.restored)
  }

  ghost predicate Final(s: State, c: nat)
    requires c < |s.commits|
  {
    && (s.commits[c].status == Finalized <==> s.commits[c].receiptId.Some?)
    && (forall r :: 0 <= r < |s.threads| ==> Orderly(s.threads[r], s.commits[c], c))
  }

  /** The thread is neither delivering nor the end of a delivery. */
  predicate NotDelivery(t: Thread) {
    !t.Delivering? && !(t.Done? && t.reply.ServeFailed?)
  }

  /** A segment works on the commit its thread is finalizing, and on no other. */
  ghost predicate StaysOn(t: Thread, f: Effect) {
    match f
    case Move(u) => NotDelivery(u) && (LiveOn(u).None? || LiveOn(u) == LiveOn(t))
    case Sweep(u) => NotDelivery(u) && (LiveOn(u).None? || LiveOn(u) == LiveOn(t))
    case Claim(_, u) => NotDelivery(u) && (LiveOn(u).None? || LiveOn(u) == LiveOn(t))
    case Reject(c) => LiveOn(t) == Some(c)
    case Receipt(c, _, _, _, _) => LiveOn(t) == Some(c)
    case Settle(c, _, _) => LiveOn(t) == Some(c)
    case _ => true
  }

  lemma VerdictStaysOn(cfg: Config, s: State, t: Thread, v: Verification, guard: Guard)
    requires Runnable(s, t)
    ensures StaysOn(t, OnVerdict(cfg, s, t, v, guard))
  {
  }

  lemma ResumeStaysOn(s: State, t: Thread, guard: Guard)
    requires Runnable(s, t)
    ensures StaysOn(t, OnResume(s, t, guard))
  {
  }

  /** `s'` keeps commit `c` final if it was, with the receipt it had and no further one. */
  ghost predicate Absorbs(s: State, s': State, c: nat)
    requires c < |s.commits| && c < |s'.commits|
  {
    s.commits[c].status == Finalized ==>
      && s'.commits[c].status == Finalized && s'.commits[c].receiptId == s.commits[c].receiptId
      && s.receipts <= s'.receipts
      && forall x :: |s.receipts| <= x < |s'.receipts| ==> s'.receipts[x].signed.payload.commitId != Stored(c)
  }

  lemma PerformFinal(cfg: Config, s: State, r: nat, f: Effect, c: nat)
    requires c < |s.commits| && Final(s, c) && NoOverlap(s, c)
    requires r < |s.threads| && Fits(s, f) && StaysOn(s.threads[r], f)
    ensures var s' := Perform(cfg, s, r, f); c < |s'.commits| && Final(s', c) && Absorbs(s, s', c)
  {
    if LiveOn(s.threads[r]) == Some(c) {
      PerformOwn(cfg, s, r, f, c);
    } else {
      PerformOther(cfg, s, r, f, c);
    }
  }

  lemma PerformOwn(cfg: Config, s: State, r: nat, f: Effect, c: nat)
    requires c < |s.commits| && Final(s, c) && NoOverlap(s, c)
    requires r < |s.threads| && Fits(s, f) && StaysOn(s.threads[r], f) && LiveOn(s.threads[r]) == Some(c)
    ensures var s' := Perform(cfg, s, r, f); c < |s'.commits| && Final(s', c) && s.commits[c].status != Finalized
  {
  }

  lemma PerformOther(cfg: Config, s: State, r: nat, f: Effect, c: nat)
    requires c < |s.commits| && Final(s, c)
    requires r < |s.threads| && Fits(s, f) && StaysOn(s.threads[r], f) && LiveOn(s.threads[r]) != Some(c)
    ensures var s' := Perform(cfg, s, r, f); c < |s'.commits| && Final(s', c) && Absorbs(s, s', c)
  {
    OtherKeepsCommit(cfg, s, r, f, c);
    OtherReceipts(cfg, s, r, f, c);
    var s' := Perform(cfg, s, r, f);
    forall q | 0 <= q < |s'.threads|
      ensures Orderly(s'.threads[q], s'.commits[c], c)
    {
      assert Orderly(s.threads[q], s.commits[c], c);
    }
  }

  /** A request that is not about commit `c` leaves it alone, and its next thread is not about it either. */
  lemma OtherKeepsCommit(cfg: Config, s: State, r: nat, f: Effect, c: nat)
    requires c < |s.commits| && r < |s.threads| && Fits(s, f) && StaysOn(s.threads[r], f) &&
      LiveOn(s.threads[r]) != Some(c)
    ensures var s' := Perform(cfg, s, r, f);
            && c < |s'.commits| && s'.commits[c] == s.commits[c] && |s'.threads| == |s.threads|
            && (forall q :: 0 <= q < |s.threads| && q != r ==> s'.threads[q] == s.threads[q])
            && (s'.threads[r] == s.threads[r] || (NotDelivery(s'.threads[r]) && LiveOn(s'.threads[r]) != Some(c)))
  {
    if f.Receipt? || f.Serve? {
      IssueKeepsCommit(cfg, s, r, f, c);
    }
  }

  lemma IssueKeepsCommit(cfg: Config, s: State, r: nat, f: Effect, c: nat)
    requires c < |s.commits| && r < |s.threads| && Fits(s, f) && StaysOn(s.threads[r], f) &&
      LiveOn(s.threads[r]) != Some(c)
    requires f.Receipt? || f.Serve?
    ensures var s' := Perform(cfg, s, r, f);
            && c < |s'.commits| && s'.commits[c] == s.commits[c] && |s'.threads| == |s.threads|
            && (forall q :: 0 <= q < |s.threads| && q != r ==> s'.threads[q] == s.threads[q])
            && NotDelivery(s'.threads[r]) && LiveOn(s'.threads[r]) != Some(c)
  {
  }

  lemma OtherReceipts(cfg: Config, s: State, r: nat, f: Effect, c: nat)
    requires r < |s.threads| && Fits(s, f) && StaysOn(s.threads[r], f) && LiveOn(s.threads[r]) != Some(c)
    ensures var s' := Perform(cfg, s, r, f);
            && s.receipts <= s'.receipts
            && forall x :: |s.receipts| <= x < |s'.receipts| ==> s'.receipts[x].signed.payload.commitId != Stored(c)
  {
  }

  lemma AdmitFinal(cfg: Config, s: State, d: nat, proof: Option<PaymentProof>, items: seq<(string, PaymentProof)>,
                   c: nat)
    requires AllLinked(s) && c < |s.commits| && Final(s, c)
    ensures Final(StartFinalize(cfg, s, d, proof, items), c)
  {
  }

  lemma StartDeliveryFinal(s: State, d: nat, resource: string, c: nat)
    requires c < |s.commits| && Final(s, c) && Deliverable(s, d, resource)
    ensures var s' := StartDelivery(s, d, resource); Final(s', c) && Absorbs(s, s', c)
  {
  }

  lemma StartCompatFinal(s: State, resource: string, req: CompatRequest, c: nat)
    requires c < |s.commits| && Final(s, c)
    ensures var s' := StartCompat(s, resource, req); c < |s'.commits| && Final(s', c) && Absorbs(s, s', c)
  {
  }

  lemma GetFinal(cfg: Config, s: State, resource: string, commit: Option<nat>, compat: Option<CompatRequest>,
                 p: Price, c: nat)
    requires c < |s.commits| && Final(s, c)
    ensures var s' := GetResource(cfg, s, resource, commit, compat, p);
            c < |s'.commits| && Final(s', c) && Absorbs(s, s', c)
  {
    if commit.Some? && Deliverable(s, commit.value, resource) {
      StartDeliveryFinal(s, commit.value, resource, c);
    } else if compat.Some? {
      StartCompatFinal(s, resource, compat.value, c);
    }
  }

  lemma FinishFinal(s: State, r: nat, status: nat, c: nat)
    requires c < |s.commits| && Final(s, c)
    requires r < |s.threads| && s.threads[r].Delivering? && Known(s, s.threads[r].c)
    ensures var s' := OnFinish(s, r, s.threads[r].c, s.threads[r].receiptId, status);
            c < |s'.commits| && Final(s', c) && Absorbs(s, s', c)
  {
  }

  lemma StepFinal(cfg: Config, s: State, e: Event, c: nat)
    requires AllLinked(s) && c < |s.commits| && Final(s, c) && NoOverlap(s, c)
    ensures var s' := Step(cfg, s, e); c < |s'.commits| && Final(s', c) && Absorbs(s, s', c)
  {
    match e
    case Verdict(r, v, guard) =>
      if r < |s.threads| && Runnable(s, s.threads[r]) {
        VerdictStaysOn(cfg, s, s.threads[r], v, guard);
        PerformFinal(cfg, s, r, OnVerdict(cfg, s, s.threads[r], v, guard), c);
      }
    case Resume(r, guard) =>
      if r < |s.threads| && Runnable(s, s.threads[r]) {
        ResumeStaysOn(s, s.threads[r], guard);
        PerformFinal(cfg, s, r, OnResume(s, s.threads[r], guard), c);
      }
    case Finish(r, status) =>
      if r < |s.threads| && s.threads[r].Delivering? && Known(s, s.threads[r].c) { FinishFinal(s, r, status, c); }
    case Abort(r) =>
      if r < |s.threads| && !s.threads[r].Done? && !s.threads[r].Delivering? {
        PerformFinal(cfg, s, r, Move(Done(Dropped)), c);
      }
    case PostFinalize(d, proof, items) => AdmitFinal(cfg, s, d, proof, items, c);
    case Get(resource, commit, compat, p) => GetFinal(cfg, s, resource, commit, compat, p, c);
    case PostCommit(q, payer) => NewCommitFinal(s, q, payer, c);
    case _ => OthersFinal(cfg, s, e, c);
  }

  lemma NewCommitFinal(s: State, quoteId: nat, payer: string, c: nat)
    requires c < |s.commits| && Final(s, c)
    ensures var s' := DoCommit(s, quoteId, payer); c < |s'.commits| && Final(s', c) && Absorbs(s, s', c)
  {
  }

  lemma OthersFinal(cfg: Config, s: State, e: Event, c: nat)
    requires c < |s.commits| && Final(s, c) && (e.Tick? || e.FlushLedger? || e.AskQuote?)
    ensures var s' := Step(cfg, s, e); c < |s'.commits| && Final(s', c) && Absorbs(s, s', c)
  {
  }

  // ---- whole runs ----------------------------------------------------------------------------------

  lemma PrefixNeverOverlaps(cfg: Config, start: nat, es: seq<Event>, c: nat)
    requires NeverOverlaps(cfg, start, es, c) && es != []
    ensures NeverOverlaps(cfg, start, es[..|es| - 1], c)
    ensures NoOverlap(Run(cfg, start, es[..|es| - 1]), c)
  {
    var init := es[..|es| - 1];
    forall n | 0 <= n <= |init|
      ensures NoOverlap(Run(cfg, start, init[..n]), c)
    {
      assert init[..n] == es[..n];
    }
    assert init[..|init|] == init;
  }

  lemma OnlyCommitAddsCommits(cfg: Config, s: State, e: Event)
    ensures |Step(cfg, s, e).commits| == |s.commits| || e.PostCommit?
  {
    match e
    case Verdict(r, v, guard) =>
      if r < |s.threads| && Runnable(s, s.threads[r]) {
        PerformAddsNoCommit(cfg, s, r, OnVerdict(cfg, s, s.threads[r], v, guard));
      }
    case Resume(r, guard) =>
      if r < |s.threads| && Runnable(s, s.threads[r]) {
        PerformAddsNoCommit(cfg, s, r, OnResume(s, s.threads[r], guard));
      }
    case _ =>
  }

  lemma PerformAddsNoCommit(cfg: Config, s: State, r: nat, f: Effect)
    requires r < |s.threads| && Fits(s, f)
    ensures |Perform(cfg, s, r, f).commits| == |s.commits|
  {
  }

  /** A thread whose records exist says nothing of a commit that does not. */
  lemma Unnamed(s: State, t: Thread, r: nat, commit: Commit, c: nat)
    requires Linked(s, t, r) && c >= |s.commits|
    ensures Orderly(t, commit, c)
  {
  }

  /** A new commit is pending, and no thread refers to it yet. */
  lemma BirthFinal(s: State, quoteId: nat, payer: string, c: nat)
    requires AllLinked(s) && |s.commits| <= c < |DoCommit(s, quoteId, payer).commits|
    ensures Final(DoCommit(s, quoteId, payer), c)
  {
    var s' := DoCommit(s, quoteId, payer);
    assert s'.commits[c].status == Pending && s'.commits[c].receiptId.None?;
    assert s'.threads == s.threads + [Done(Committed(|s.commits|))];
    NewbornFinal(s, s', c);
  }

  lemma NewbornFinal(s: State, s': State, c: nat)
    requires AllLinked(s) && |s.commits| <= c < |s'.commits| && s'.commits[c].status == Pending &&
      s'.commits[c].receiptId.None?
    requires s'.threads == s.threads + [Done(Committed(|s.commits|))]
    ensures Final(s', c)
  {
    forall r | 0 <= r < |s'.threads|
      ensures Orderly(s'.threads[r], s'.commits[c], c)
    {
      if r < |s.threads| {
        Unnamed(s, s.threads[r], r, s'.commits[c], c);
      }
    }
  }

  lemma {:induction false} RunFinal(cfg: Config, start: nat, es: seq<Event>, c: nat)
    requires NeverOverlaps(cfg, start, es, c) && c < |Run(cfg, start, es).commits|
    ensures Final(Run(cfg, start, es), c)
  {
    if es != [] {
      var init, s := es[..|es| - 1], Run(cfg, start, es[..|es| - 1]);
      PrefixNeverOverlaps(cfg, start, es, c);
      RunLinks(cfg, start, init);
      if c < |s.commits| {
        RunFinal(cfg, start, init, c);
        StepFinal(cfg, s, es[|es| - 1], c);
      } else {
        OnlyCommitAddsCommits(cfg, s, es[|es| - 1]);
        BirthFinal(s, es[|es| - 1].quoteId, es[|es| - 1].payer, c);
      }
    }
  }

  lemma FinalMeansIdle(s: State, c: nat)
    requires c < |s.commits| && Final(s, c) && s.commits[c].status == Finalized
    ensures s.commits[c].receiptId.Some? && forall r :: 0 <= r < |s.threads| ==> LiveOn(s.threads[r]) != Some(c)
  {
  }

  /** Finalizing again before expiry answers with the same receipt and does nothing else. */
  lemma RefinalizeIsIdempotent(cfg: Config, start: nat, es: seq<Event>, c: nat, proof: Option<PaymentProof>,
                               items: seq<(string, PaymentProof)>)
    requires var s := Run(cfg, start, es);
             && c < |s.commits| && s.commits[c].status == Finalized && s.commits[c].receiptId.Some?
             && Known(s, c) && !Expired(QuoteOf(s, c), s.clock)
             && DrillAmountAllowed(cfg.drill, QuoteOf(s, c).total) && BetaAmountAllowed(cfg.beta, QuoteOf(s, c).total)
    ensures var s := Run(cfg, start, es);
            Step(cfg, s, PostFinalize(c, proof, items)) == Spawn(s, Done(FinalizeOk(c, s.commits[c].receiptId.value)))
  {
    RunLinks(cfg, start, es);
    var s := Run(cfg, start, es);
    assert ReceiptFor(s, s.commits[c].receiptId.value, c);
  }

  /** A thread that is delivering commit `c`, or has delivered it. */
  predicate Delivers(t: Thread, c: nat) {
    (t.Delivering? && t.c == c) || (t.Done? && t.reply.Served? && t.reply.commit == Stored(c))
  }

  /**
   * In every reachable state a commit is consumed exactly while one delivery of it is under
   * way, has succeeded, or failed without giving the token back; never two of these.
   */
  lemma ConsumedMeansHeld(cfg: Config, start: nat, es: seq<Event>, c: nat)
    requires c < |Run(cfg, start, es).commits|
    ensures var s := Run(cfg, start, es);
            && (s.commits[c].consumedAt.Some? <==> Held(s, c))
            && forall r, q :: 0 <= r < q < |s.threads| && Holds(s.threads[r]) == Some(c) ==>
               Holds(s.threads[q]) != Some(c)
  {
    RunTokens(cfg, start, es);
  }

  /** Without overlapping finalize calls, exactly while a delivery is under way or has succeeded. */
  lemma ConsumedMeansDelivering(cfg: Config, start: nat, es: seq<Event>, c: nat)
    requires NeverOverlaps(cfg, start, es, c) && c < |Run(cfg, start, es).commits|
    ensures var s := Run(cfg, start, es);
            s.commits[c].consumedAt.Some? <==> exists r :: 0 <= r < |s.threads| && Delivers(s.threads[r], c)
  {
    RunTokens(cfg, start, es);
    RunFinal(cfg, start, es, c);
    HeldMeansDelivers(Run(cfg, start, es), c);
  }

  lemma HeldMeansDelivers(s: State, c: nat)
    requires Tokens(s) && c < |s.commits| && Final(s, c)
    ensures s.commits[c].consumedAt.Some? <==> exists r :: 0 <= r < |s.threads| && Delivers(s.threads[r], c)
  {
  }

  /**
   * Always: that a commit is consumed means that a delivery is under way or has succeeded, if
   * and only if no delivery of it failed without giving the token back.
   */
  lemma ConsumedExactly(cfg: Config, start: nat, es: seq<Event>, c: nat)
    requires c < |Run(cfg, start, es).commits|
    ensures var s := Run(cfg, start, es);
            (s.commits[c].consumedAt.Some? <==> exists r :: 0 <= r < |s.threads| && Delivers(s.threads[r], c)) <==>
            (forall r :: 0 <= r < |s.threads| ==> !Strands(s.threads[r], c))
  {
    RunTokens(cfg, start, es);
    TokenOrStranded(Run(cfg, start, es), c);
  }

  predicate Strands(t: Thread, c: nat) {
    t.Done? && t.reply.ServeFailed? && t.reply.commitId == c && !t.reply.restored
  }

  lemma TokenOrStranded(s: State, c: nat)
    requires Tokens(s) && c < |s.commits|
    ensures (s.commits[c].consumedAt.Some? <==> exists r :: 0 <= r < |s.threads| && Delivers(s.threads[r], c)) <==>
            (forall r :: 0 <= r < |s.threads| ==> !Strands(s.threads[r], c))
  {
    forall r | 0 <= r < |s.threads|
      ensures Holds(s.threads[r]) == Some(c) <==> Delivers(s.threads[r], c) || Strands(s.threads[r], c)
    {
    }
    if r :| 0 <= r < |s.threads| && Strands(s.threads[r], c) {
      assert Holds(s.threads[r]) == Some(c);
      forall q | 0 <= q < |s.threads|
        ensures !Delivers(s.threads[q], c)
      {
        assert q == r || Holds(s.threads[q]) != Some(c);
      }
    } else if s.commits[c].consumedAt.Some? {
      var r :| 0 <= r < |s.threads| && Holds(s.threads[r]) == Some(c);
      assert Delivers(s.threads[r], c);
    } else {
      assert forall r :: 0 <= r < |s.threads| ==> Holds(s.threads[r]) != Some(c);
    }
  }

  /** A server error gives the token back exactly if the commit still has the delivered receipt. */
  lemma ServerErrorRestores(cfg: Config, start: nat, es: seq<Event>, r: nat, status: nat)
    requires var s := Run(cfg, start, es); r < |s.threads| && s.threads[r].Delivering? && status >= 500
    ensures var s := Run(cfg, start, es);
            var s', c := Step(cfg, s, Finish(r, status)), s.threads[r].c;
            && Known(s, c) && c < |s'.commits|
            && s'.commits[c].receiptId == s.commits[c].receiptId
            && (s'.commits[c].consumedAt.None? <==> s.commits[c].receiptId == Some(s.threads[r].receiptId))
            && (s'.commits[c].consumedAt.None? && s.commits[c].status == Finalized ==>
                  Deliverable(s', c, QuoteOf(s, c).resource))
  {
    RunLinks(cfg, start, es);
    RunTokens(cfg, start, es);
    var s := Run(cfg, start, es);
    assert Linked(s, s.threads[r], r) && Holds(s.threads[r]) == Some(s.threads[r].c);
  }
}
