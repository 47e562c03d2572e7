/**
 * Every stored receipt rests on what the verifier told the request that issued it, line by line
 * where the payment was split (x402/src/server.ts).
 */
module Affirmations {
  import opened Common
  import opened Types
  import opened Protocol
  import D = Delivery
  import S = DirectSplit
  import RS = ReplayStore

  // ---- what the verifier has said ----------------------------------------------------------------

  /** An answer to request `r`, which waited for it as `waiting`, when `issued` receipts were stored. */
  datatype Answer = Answer(r: nat, waiting: Thread, v: Verification, issued: nat)

  function AnswerOf(s: State, e: Event): seq<Answer> {
    if e.Verdict? && e.r < |s.threads| then [Answer(e.r, s.threads[e.r], e.v, |s.receipts|)] else []
  }

  /** All answers given in a run, in order. */
  function Answers(cfg: Config, start: nat, es: seq<Event>): seq<Answer> {
    if es == [] then []
    else Answers(cfg, start, es[..|es| - 1]) + AnswerOf(Run(cfg, start, es[..|es| - 1]), es[|es| - 1])
  }

  /** Event `k` of the run is the verdict that is answer `a`. */
  ghost predicate IsVerdict(cfg: Config, start: nat, es: seq<Event>, k: nat, a: Answer) {
    && k < |es| && es[k].Verdict? && es[k].r == a.r && es[k].v == a.v
    && var s := Run(cfg, start, es[..k]);
       a.r < |s.threads| && s.threads[a.r] == a.waiting && |s.receipts| == a.issued
  }

  lemma {:induction false} AnswersAreVerdicts(cfg: Config, start: nat, es: seq<Event>, i: nat) returns (k: nat)
    requires i < |Answers(cfg, start, es)|
    ensures IsVerdict(cfg, start, es, k, Answers(cfg, start, es)[i])
  {
    var n := |es| - 1;
    if i < |Answers(cfg, start, es[..n])| {
      k := AnswersAreVerdicts(cfg, start, es[..n], i);
      assert es[..n][..k] == es[..k];
    } else {
      k := n;
    }
  }

  // ---- what a thread and a receipt rest on ---------------------------------------------------------

  /** The verifier accepted, for request `r` and line `i` of commit `c`, this proof in this way. */
  ghost predicate GaveLine(h: seq<Answer>, r: nat, c: nat, i: nat, line: SplitLine) {
    exists a :: 0 <= a < |h| && IsLine(h[a], r, c, i, line.v) && line.requirement.feeLineId in h[a].waiting.proofs
      && h[a].waiting.proofs[line.requirement.feeLineId] == line.proof
  }

  predicate IsLine(a: Answer, r: nat, c: nat, i: nat, v: Verification) {
    && a.r == r && a.v == v && a.v.ok
    && a.waiting.SplitVerify? && a.waiting.c == c && |a.waiting.lines| == i
  }

  /** The lines are those of the quote, in order, each accepted under a signature of its own. */
  ghost predicate LinesGiven(s: State, h: seq<Answer>, r: nat, c: nat, lines: seq<SplitLine>) {
    && Known(s, c) && |lines| <= |QuoteOf(s, c).split| && AllVerified(lines) && S.DistinctSignatures(lines)
    && forall i :: 0 <= i < |lines| ==>
         && lines[i].requirement == QuoteOf(s, c).split[i] && lines[i].proof.TransferProof?
         && GaveLine(h, r, c, i, lines[i])
  }

  ghost predicate GaveSingle(h: seq<Answer>, r: nat, c: nat, proof: PaymentProof, v: Verification) {
    exists a :: 0 <= a < |h| && h[a] == Answer(r, AwaitVerify(c, proof), v, h[a].issued) && v.ok
  }

  ghost predicate GaveHeader(h: seq<Answer>, r: nat, q: nat, txSig: Option<string>, v: Verification) {
    exists a :: 0 <= a < |h| && h[a].r == r && h[a].v == v && v.ok
      && h[a].waiting.CompatVerify? && h[a].waiting.q == q && h[a].waiting.txSig == txSig
  }

  ghost predicate ThreadHeard(s: State, h: seq<Answer>, t: Thread, r: nat) {
    match t
    case SplitVerify(c, proofs, lines) =>
      LinesGiven(s, h, r, c, lines) && |lines| < |QuoteOf(s, c).split|
      && S.HasTransfer(QuoteOf(s, c), proofs, |lines|)
    case SplitCheck(c, lines, _, _, _) => LinesGiven(s, h, r, c, lines) && |lines| == |QuoteOf(s, c).split|
    case SplitClaim(c, lines, _, _, _) => LinesGiven(s, h, r, c, lines) && |lines| == |QuoteOf(s, c).split|
    case SplitReturn(c, lines) => LinesGiven(s, h, r, c, lines) && |lines| == |QuoteOf(s, c).split|
    case AwaitGlobal(c, proof, v, _) => GaveSingle(h, r, c, proof, v)
    case AwaitScoped(c, proof, v, _) => GaveSingle(h, r, c, proof, v)
    case CompatGlobal(q, _, txSig, v, _) => GaveHeader(h, r, q, txSig, v)
    case CompatScoped(q, _, txSig, v, _) => GaveHeader(h, r, q, txSig, v)
    case CompatCanonical(q, _, txSig, v, _) => GaveHeader(h, r, q, txSig, v)
    case _ => true
  }

  /** A receipt's split proofs are the quote's lines in order, and the main one is among them. */
  ghost predicate StatesSplit(q: Quote, p: ReceiptPayload) {
    p.splitProofs.Some? &&
    var ps := p.splitProofs.value;
    && |ps| == |q.split|
    && (forall i :: 0 <= i < |ps| ==>
          ps[i] == SplitProof(q.split[i].feeLineId, q.split[i].kind, q.split[i].recipient, q.split[i].amount,
                              q.split[i].token, Transfer, ps[i].txSignature))
    && (forall i, j :: 0 <= i < j < |ps| ==> ps[i].txSignature != ps[j].txSignature)
    && exists i :: 0 <= i < |ps| && Main(ps, i) && p.txSignature == Some(ps[i].txSignature)
  }

  /** Line `i` is the last one that pays the provider, or the first line if none does. */
  ghost predicate Main(ps: seq<SplitProof>, i: nat) {
    && i < |ps| && (forall j :: i < j < |ps| ==> ps[j].kind != "PROVIDER_AMOUNT")
    && (i == 0 || ps[i].kind == "PROVIDER_AMOUNT")
  }

  /** Before there were more than `x` receipts, the verifier accepted `sig` for line `i` of commit `c`. */
  ghost predicate HeardLine(h: seq<Answer>, r: nat, c: nat, i: nat, sig: string, x: nat) {
    exists a :: 0 <= a < |h| && IsLine(h[a], r, c, i, h[a].v) && h[a].v.txSignature == Some(sig) && h[a].issued <= x
  }

  /** ... a proof of this kind for commit `c`, with the very ids that the receipt names. */
  ghost predicate HeardSingle(h: seq<Answer>, r: nat, c: nat, p: ReceiptPayload, x: nat) {
    exists a :: 0 <= a < |h| && h[a].r == r && h[a].waiting.AwaitVerify? && h[a].waiting.c == c
      && h[a].waiting.proof.Mode() == p.settlement && h[a].issued <= x && SameIds(h[a].v, p)
  }

  /** ... a header payment for quote `q`, with the very ids that the receipt names. */
  ghost predicate HeardHeader(h: seq<Answer>, r: nat, q: nat, p: ReceiptPayload, x: nat) {
    exists a :: 0 <= a < |h| && h[a].r == r && h[a].waiting.CompatVerify? && h[a].waiting.q == q
      && (h[a].waiting.txSig.Some? <==> p.settlement == Transfer) && h[a].issued <= x && SameIds(h[a].v, p)
  }

  /** The verifier's word is what counts, except for netting. */
  predicate SameIds(v: Verification, p: ReceiptPayload) {
    match p.settlement
    case Netting => true
    case Transfer => v.ok && Present(v.txSignature) && p.txSignature == v.txSignature
    case Stream => v.ok && Present(v.streamId) && p.streamId == v.streamId
  }

  /** What a receipt of request `r` with payload `p` rests on, when it is the receipt after `x` others. */
  ghost predicate PayloadHeard(cfg: Config, s: State, h: seq<Answer>, r: nat, p: ReceiptPayload, x: nat) {
    && (p.settlement == Netting ==> cfg.nettingEnabled && p.splitProofs.None?)
    && match p.commitId
       case Stored(c) =>
         && Known(s, c) && p.quoteId == QuoteOf(s, c).quoteId && p.payer == s.commits[c].payer
         && if p.splitProofs.Some? then
              && StatesSplit(QuoteOf(s, c), p) && p.settlement == Transfer
              && forall i :: 0 <= i < |p.splitProofs.value| ==>
                   HeardLine(h, r, c, i, p.splitProofs.value[i].txSignature, x)
            else HeardSingle(h, r, c, p, x)
       case Synthetic(q) => q == r && p.splitProofs.None? && HeaderFor(s, h, r, p, x)
  }

  ghost predicate HeaderFor(s: State, h: seq<Answer>, r: nat, p: ReceiptPayload, x: nat) {
    exists q :: 0 <= q < |s.quotes| && s.quotes[q].quoteId == p.quoteId && HeardHeader(h, r, q, p, x)
  }

  ghost predicate Heard(cfg: Config, s: State, h: seq<Answer>) {
    && (forall a :: 0 <= a < |h| ==> h[a].issued <= |s.receipts|)
    && (forall r :: 0 <= r < |s.threads| ==> ThreadHeard(s, h, s.threads[r], r))
    && (forall x :: 0 <= x < |s.receipts| ==>
          PayloadHeard(cfg, s, h, s.receipts[x].issuer, s.receipts[x].signed.payload, x))
  }

  // ---- nothing that was said or recorded is lost -----------------------------------------------------

  ghost predicate Grows(s: State, s': State) {
    D.Extends(s, s') && forall c :: 0 <= c < |s.commits| ==> s'.commits[c].payer == s.commits[c].payer
  }

  lemma StillGaveLine(h: seq<Answer>, more: seq<Answer>, r: nat, c: nat, i: nat, line: SplitLine)
    requires GaveLine(h, r, c, i, line)
    ensures GaveLine(h + more, r, c, i, line)
  {
    var a :| 0 <= a < |h| && IsLine(h[a], r, c, i, line.v) && line.requirement.feeLineId in h[a].waiting.proofs
             && h[a].waiting.proofs[line.requirement.feeLineId] == line.proof;
    assert (h + more)[a] == h[a];
  }

  lemma StillSingle(h: seq<Answer>, more: seq<Answer>, r: nat, c: nat, proof: PaymentProof, v: Verification)
    requires GaveSingle(h, r, c, proof, v)
    ensures GaveSingle(h + more, r, c, proof, v)
  {
    var a :| 0 <= a < |h| && h[a] == Answer(r, AwaitVerify(c, proof), v, h[a].issued) && v.ok;
    assert (h + more)[a] == h[a];
  }

  lemma StillHeader(h: seq<Answer>, more: seq<Answer>, r: nat, q: nat, txSig: Option<string>, v: Verification)
    requires GaveHeader(h, r, q, txSig, v)
    ensures GaveHeader(h + more, r, q, txSig, v)
  {
    var a :| 0 <= a < |h| && h[a].r == r && h[a].v == v && v.ok
             && h[a].waiting.CompatVerify? && h[a].waiting.q == q && h[a].waiting.txSig == txSig;
    assert (h + more)[a] == h[a];
  }

  lemma StillGiven(s: State, s': State, h: seq<Answer>, more: seq<Answer>, r: nat, c: nat, lines: seq<SplitLine>)
    requires LinesGiven(s, h, r, c, lines) && Grows(s, s')
    ensures LinesGiven(s', h + more, r, c, lines) && QuoteOf(s', c) == QuoteOf(s, c)
  {
    assert QuoteOf(s', c) == QuoteOf(s, c);
    forall i | 0 <= i < |lines|
      ensures GaveLine(h + more, r, c, i, lines[i])
    {
      StillGaveLine(h, more, r, c, i, lines[i]);
    }
  }

  lemma ThreadStays(s: State, s': State, h: seq<Answer>, more: seq<Answer>, t: Thread, r: nat)
    requires ThreadHeard(s, h, t, r) && Grows(s, s')
    ensures ThreadHeard(s', h + more, t, r)
  {
    match t
    case SplitVerify(c, _, lines) => StillGiven(s, s', h, more, r, c, lines);
    case SplitCheck(c, lines, _, _, _) => StillGiven(s, s', h, more, r, c, lines);
    case SplitClaim(c, lines, _, _, _) => StillGiven(s, s', h, more, r, c, lines);
    case SplitReturn(c, lines) => StillGiven(s, s', h, more, r, c, lines);
    case AwaitGlobal(c, proof, v, _) => StillSingle(h, more, r, c, proof, v);
    case AwaitScoped(c, proof, v, _) => StillSingle(h, more, r, c, proof, v);
    case CompatGlobal(q, _, txSig, v, _) => StillHeader(h, more, r, q, txSig, v);
    case CompatScoped(q, _, txSig, v, _) => StillHeader(h, more, r, q, txSig, v);
    case CompatCanonical(q, _, txSig, v, _) => StillHeader(h, more, r, q, txSig, v);
    case _ =>
  }

  lemma LineStays(h: seq<Answer>, more: seq<Answer>, r: nat, c: nat, i: nat, sig: string, x: nat)
    requires HeardLine(h, r, c, i, sig, x)
    ensures HeardLine(h + more, r, c, i, sig, x)
  {
    var a :| 0 <= a < |h| && IsLine(h[a], r, c, i, h[a].v) && h[a].v.txSignature == Some(sig) && h[a].issued <= x;
    assert (h + more)[a] == h[a];
  }

  lemma SingleStays(h: seq<Answer>, more: seq<Answer>, r: nat, c: nat, p: ReceiptPayload, x: nat)
    requires HeardSingle(h, r, c, p, x)
    ensures HeardSingle(h + more, r, c, p, x)
  {
    var a :| 0 <= a < |h| && h[a].r == r && h[a].waiting.AwaitVerify? && h[a].waiting.c == c
             && h[a].waiting.proof.Mode() == p.settlement && h[a].issued <= x && SameIds(h[a].v, p);
    assert (h + more)[a] == h[a];
  }

  lemma HeaderStays(s: State, s': State, h: seq<Answer>, more: seq<Answer>, r: nat, p: ReceiptPayload, x: nat)
    requires HeaderFor(s, h, r, p, x) && Grows(s, s')
    ensures HeaderFor(s', h + more, r, p, x)
  {
    var q :| 0 <= q < |s.quotes| && s.quotes[q].quoteId == p.quoteId && HeardHeader(h, r, q, p, x);
    var a :| 0 <= a < |h| && h[a].r == r && h[a].waiting.CompatVerify? && h[a].waiting.q == q
             && (h[a].waiting.txSig.Some? <==> p.settlement == Transfer) && h[a].issued <= x && SameIds(h[a].v, p);
    assert (h + more)[a] == h[a] && HeardHeader(h + more, r, q, p, x);
    assert s'.quotes[q] == s.quotes[q];
  }

  lemma PayloadStays(cfg: Config, s: State, s': State, h: seq<Answer>, more: seq<Answer>, r: nat, p: ReceiptPayload,
                     x: nat)
    requires PayloadHeard(cfg, s, h, r, p, x) && Grows(s, s')
    ensures PayloadHeard(cfg, s', h + more, r, p, x)
  {
    match p.commitId
    case Synthetic(_) => HeaderStays(s, s', h, more, r, p, x);
    case Stored(c) =>
      assert QuoteOf(s', c) == QuoteOf(s, c);
      if p.splitProofs.Some? {
        forall i | 0 <= i < |p.splitProofs.value|
          ensures HeardLine(h + more, r, c, i, p.splitProofs.value[i].txSignature, x)
        {
          LineStays(h, more, r, c, i, p.splitProofs.value[i].txSignature, x);
        }
      } else {
        SingleStays(h, more, r, c, p, x);
      }
  }

  lemma OthersStay(cfg: Config, s: State, s': State, h: seq<Answer>, more: seq<Answer>, r: nat)
    requires Heard(cfg, s, h) && Grows(s, s')
    ensures forall q :: 0 <= q < |s.threads| ==> ThreadHeard(s', h + more, s.threads[q], q)
    ensures forall x :: 0 <= x < |s.receipts| ==>
      && s'.receipts[x] == s.receipts[x]
      && PayloadHeard(cfg, s', h + more, s.receipts[x].issuer, s.receipts[x].signed.payload, x)
  {
    forall q | 0 <= q < |s.threads|
      ensures ThreadHeard(s', h + more, s.threads[q], q)
    {
      ThreadStays(s, s', h, more, s.threads[q], q);
    }
    forall x | 0 <= x < |s.receipts|
      ensures PayloadHeard(cfg, s', h + more, s.receipts[x].issuer, s.receipts[x].signed.payload, x)
    {
      PayloadStays(cfg, s, s', h, more, s.receipts[x].issuer, s.receipts[x].signed.payload, x);
    }
  }

  /** Thread `r` becomes `t`, a receipt may be stored, and `more` may have been said. */
  lemma Moves(cfg: Config, s: State, s': State, h: seq<Answer>, more: seq<Answer>, r: nat, t: Thread)
    requires Heard(cfg, s, h) && Grows(s, s') && |s'.receipts| <= |s.receipts| + 1
    requires (r < |s.threads| && s'.threads == s.threads[r := t]) || (r == |s.threads| && s'.threads == s.threads + [t])
    requires ThreadHeard(s', h + more, t, r)
    requires |s'.receipts| > |s.receipts| ==>
      var i := s'.receipts[|s.receipts|]; PayloadHeard(cfg, s', h + more, i.issuer, i.signed.payload, |s.receipts|)
    requires forall a :: 0 <= a < |more| ==> more[a].issued <= |s.receipts|
    ensures Heard(cfg, s', h + more)
  {
    OthersStay(cfg, s, s', h, more, r);
  }

  // ---- every step --------------------------------------------------------------------------------------

  /** What a segment of request `r` leads to rests on what was said. */
  ghost predicate Founded(cfg: Config, s: State, h: seq<Answer>, r: nat, f: Effect)
    requires Fits(s, f)
  {
    match f
    case Move(t) => ThreadHeard(s, h, t, r)
    case Sweep(t) => ThreadHeard(s, h, t, r)
    case Claim(_, t) => ThreadHeard(s, h, t, r)
    case Receipt(c, mode, v, splits, _) =>
      PayloadHeard(cfg, s, h, r, FinalizePayload(cfg, s, c, mode, v, splits), |s.receipts|)
    case Serve(q, url, txSig, v, payerText, _) =>
      PayloadHeard(cfg, s, h, r, ServedPayload(cfg, s, r, q, url, txSig, v, payerText), |s.receipts|)
    case _ => true
  }

  function ServedPayload(cfg: Config, s: State, r: nat, q: nat, url: string, txSig: Option<string>, v: Verification,
                         payerText: string): ReceiptPayload
    requires q < |s.quotes|
  {
    Payload(cfg, s, s.quotes[q], Synthetic(r), cfg.crypto.hash(payerText), url, CompatProof(txSig).Mode(), v, None)
  }

  lemma PerformGrows(cfg: Config, s: State, r: nat, f: Effect)
    requires r < |s.threads| && Fits(s, f)
    ensures Grows(s, Perform(cfg, s, r, f))
  {
  }

  lemma PerformHeard(cfg: Config, s: State, h: seq<Answer>, more: seq<Answer>, r: nat, f: Effect)
    requires Heard(cfg, s, h) && r < |s.threads| && Fits(s, f) && Founded(cfg, s, h + more, r, f)
    requires forall a :: 0 <= a < |more| ==> more[a].issued <= |s.receipts|
    ensures Heard(cfg, Perform(cfg, s, r, f), h + more)
  {
    var s' := Perform(cfg, s, r, f);
    var said := h + more;
    PerformGrows(cfg, s, r, f);
    assert said + [] == said;
    match f {
      case Move(t) => ThreadStays(s, s', said, [], t, r);
      case Sweep(t) => ThreadStays(s, s', said, [], t, r);
      case Claim(_, t) => ThreadStays(s, s', said, [], t, r);
      case Receipt(c, mode, v, splits, guard) =>
        PayloadStays(cfg, s, s', said, [], r, FinalizePayload(cfg, s, c, mode, v, splits), |s.receipts|);
      case Serve(q, url, txSig, v, payerText, guard) =>
        PayloadStays(cfg, s, s', said, [], r, ServedPayload(cfg, s, r, q, url, txSig, v, payerText), |s.receipts|);
      case _ => ThreadStays(s, s', h, more, s.threads[r], r);
    }
    Moves(cfg, s, s', h, more, r, s'.threads[r]);
  }

  // ---- verdicts ------------------------------------------------------------------------------------------

  lemma SingleFounded(cfg: Config, s: State, h: seq<Answer>, r: nat, v: Verification, guard: Guard)
    requires r < |s.threads| && D.AllLinked(s) && s.threads[r].AwaitVerify?
    ensures Founded(cfg, s, h + [Answer(r, s.threads[r], v, |s.receipts|)], r,
                    OnVerdict(cfg, s, s.threads[r], v, guard))
  {
    var said := h + [Answer(r, s.threads[r], v, |s.receipts|)];
    assert said[|h|] == Answer(r, s.threads[r], v, |s.receipts|);
  }

  lemma HeaderFounded(cfg: Config, s: State, h: seq<Answer>, r: nat, v: Verification, guard: Guard)
    requires r < |s.threads| && D.AllLinked(s) && s.threads[r].CompatVerify?
    ensures Founded(cfg, s, h + [Answer(r, s.threads[r], v, |s.receipts|)], r,
                    OnVerdict(cfg, s, s.threads[r], v, guard))
  {
    var t := s.threads[r];
    var said := h + [Answer(r, t, v, |s.receipts|)];
    assert said[|h|] == Answer(r, t, v, |s.receipts|);
    var f := OnVerdict(cfg, s, t, v, guard);
    if f.Serve? {
      var p := ServedPayload(cfg, s, r, t.q, t.url, None, f.v, t.blob);
      assert HeardHeader(said, r, t.q, p, |s.receipts|);
    }
  }

  /** An accepted line of the split joins those accepted before. */
  lemma LineJoins(s: State, h: seq<Answer>, r: nat, v: Verification)
    requires r < |s.threads| && D.AllLinked(s) && ThreadHeard(s, h, s.threads[r], r) && s.threads[r].SplitVerify?
    requires var t := s.threads[r]; v.ok && Present(v.txSignature) && !SeenSignature(t.lines, v.txSignature)
    ensures var t := s.threads[r];
            var q, n := QuoteOf(s, t.c), |t.lines|;
            LinesGiven(s, h + [Answer(r, t, v, |s.receipts|)], r, t.c,
                       t.lines + [SplitLine(q.split[n], t.proofs[q.split[n].feeLineId], v)])
  {
    var t := s.threads[r];
    var a := Answer(r, t, v, |s.receipts|);
    var q, n := QuoteOf(s, t.c), |t.lines|;
    var line := SplitLine(q.split[n], t.proofs[q.split[n].feeLineId], v);
    StillGiven(s, s, h, [a], r, t.c, t.lines);
    assert (h + [a])[|h|] == a && IsLine(a, r, t.c, n, line.v);
    assert GaveLine(h + [a], r, t.c, n, line);
  }

  lemma SplitFounded(cfg: Config, s: State, h: seq<Answer>, r: nat, v: Verification, guard: Guard)
    requires r < |s.threads| && D.AllLinked(s) && ThreadHeard(s, h, s.threads[r], r) && s.threads[r].SplitVerify?
    ensures Founded(cfg, s, h + [Answer(r, s.threads[r], v, |s.receipts|)], r,
                    OnVerdict(cfg, s, s.threads[r], v, guard))
  {
    var t := s.threads[r];
    if v.ok && Present(v.txSignature) && !SeenSignature(t.lines, v.txSignature) {
      LineJoins(s, h, r, v);
    }
  }

  lemma VerdictFounded(cfg: Config, s: State, h: seq<Answer>, r: nat, v: Verification, guard: Guard)
    requires r < |s.threads| && D.AllLinked(s) && ThreadHeard(s, h, s.threads[r], r)
    ensures Founded(cfg, s, h + [Answer(r, s.threads[r], v, |s.receipts|)], r,
                    OnVerdict(cfg, s, s.threads[r], v, guard))
  {
    match s.threads[r]
    case AwaitVerify(_, _) => SingleFounded(cfg, s, h, r, v, guard);
    case SplitVerify(_, _, _) => SplitFounded(cfg, s, h, r, v, guard);
    case CompatVerify(_, _, _, _) => HeaderFounded(cfg, s, h, r, v, guard);
    case _ =>
  }

  // ---- everything else -------------------------------------------------------------------------------------

  lemma ClaimedSingleFounded(cfg: Config, s: State, h: seq<Answer>, r: nat, guard: Guard)
    requires r < |s.threads| && D.AllLinked(s) && ThreadHeard(s, h, s.threads[r], r) && s.threads[r].AwaitScoped?
    requires forall a :: 0 <= a < |h| ==> h[a].issued <= |s.receipts|
    ensures Founded(cfg, s, h, r, OnResume(s, s.threads[r], guard))
  {
    var t := s.threads[r];
    var a :| 0 <= a < |h| && h[a] == Answer(r, AwaitVerify(t.c, t.proof), t.v, h[a].issued) && t.v.ok;
    assert D.Linked(s, t, r);
    assert HeardSingle(h, r, t.c, FinalizePayload(cfg, s, t.c, t.proof.Mode(), t.v, None), |s.receipts|);
  }

  lemma ClaimedHeaderFounded(cfg: Config, s: State, h: seq<Answer>, r: nat, guard: Guard)
    requires r < |s.threads| && D.AllLinked(s) && ThreadHeard(s, h, s.threads[r], r)
    requires s.threads[r].CompatScoped? || s.threads[r].CompatCanonical?
    requires forall a :: 0 <= a < |h| ==> h[a].issued <= |s.receipts|
    ensures Founded(cfg, s, h, r, OnResume(s, s.threads[r], guard))
  {
    var t := s.threads[r];
    var a :| 0 <= a < |h| && h[a].r == r && h[a].v == t.v && t.v.ok
             && h[a].waiting.CompatVerify? && h[a].waiting.q == t.q && h[a].waiting.txSig == t.txSig;
    assert D.Linked(s, t, r);
    var f := OnResume(s, t, guard);
    if f.Serve? {
      var p := ServedPayload(cfg, s, r, t.q, t.url, t.txSig, t.v, f.payerText);
      assert HeardHeader(h, r, t.q, p, |s.receipts|);
    }
  }

  lemma ReturnFounded(cfg: Config, s: State, h: seq<Answer>, r: nat, guard: Guard)
    requires r < |s.threads| && D.AllLinked(s) && ThreadHeard(s, h, s.threads[r], r) && s.threads[r].SplitReturn?
    requires forall a :: 0 <= a < |h| ==> h[a].issued <= |s.receipts|
    ensures Founded(cfg, s, h, r, OnResume(s, s.threads[r], guard))
  {
    var c, lines := s.threads[r].c, s.threads[r].lines;
    assert D.Linked(s, s.threads[r], r);
    var p := FinalizePayload(cfg, s, c, lines[Primary(lines)].proof.Mode(), PrimaryVerification(lines),
                             Some(SplitProofsOf(lines)));
    forall i | 0 <= i < |lines|
      ensures HeardLine(h, r, c, i, p.splitProofs.value[i].txSignature, |s.receipts|)
    {
      LineHeard(s, h, r, c, lines, i);
    }
    StatesAll(QuoteOf(s, c), p, lines);
  }

  lemma LineHeard(s: State, h: seq<Answer>, r: nat, c: nat, lines: seq<SplitLine>, i: nat)
    requires LinesGiven(s, h, r, c, lines) && i < |lines|
    requires forall a :: 0 <= a < |h| ==> h[a].issued <= |s.receipts|
    ensures HeardLine(h, r, c, i, lines[i].v.txSignature.value, |s.receipts|)
  {
    var line := lines[i];
    var a :| 0 <= a < |h| && IsLine(h[a], r, c, i, line.v) && line.requirement.feeLineId in h[a].waiting.proofs
             && h[a].waiting.proofs[line.requirement.feeLineId] == line.proof;
    assert IsLine(h[a], r, c, i, h[a].v);
  }

  lemma StatesAll(q: Quote, p: ReceiptPayload, lines: seq<SplitLine>)
    requires AllVerified(lines) && S.DistinctSignatures(lines) && lines != [] && |lines| == |q.split|
    requires forall i :: 0 <= i < |lines| ==> lines[i].requirement == q.split[i]
    requires p.splitProofs == Some(SplitProofsOf(lines)) && p.txSignature == lines[Primary(lines)].v.txSignature
    ensures StatesSplit(q, p)
  {
    var ps, m := p.splitProofs.value, Primary(lines);
    S.PrimaryIsUnique(lines, m);
    forall i | 0 <= i < |lines|
      ensures ps[i] == SplitProofOf(lines[i]) && (ps[i].kind == "PROVIDER_AMOUNT" <==> S.PaysProvider(lines[i]))
    {
    }
    assert Main(ps, m) && p.txSignature == Some(ps[m].txSignature);
  }

  lemma ResumeFounded(cfg: Config, s: State, h: seq<Answer>, r: nat, guard: Guard)
    requires r < |s.threads| && D.AllLinked(s) && ThreadHeard(s, h, s.threads[r], r)
    requires forall a :: 0 <= a < |h| ==> h[a].issued <= |s.receipts|
    ensures Founded(cfg, s, h, r, OnResume(s, s.threads[r], guard))
  {
    match s.threads[r]
    case AwaitScoped(_, _, _, _) => ClaimedSingleFounded(cfg, s, h, r, guard);
    case CompatScoped(_, _, _, _, _) => ClaimedHeaderFounded(cfg, s, h, r, guard);
    case CompatCanonical(_, _, _, _, _) => ClaimedHeaderFounded(cfg, s, h, r, guard);
    case SplitReturn(_, _) => ReturnFounded(cfg, s, h, r, guard);
    case SplitCheck(_, _, _, _, _) => SplitGoesOn(cfg, s, h, r, guard);
    case SplitClaim(_, _, _, _, _) => SplitGoesOn(cfg, s, h, r, guard);
    case _ =>
  }

  lemma SplitGoesOn(cfg: Config, s: State, h: seq<Answer>, r: nat, guard: Guard)
    requires r < |s.threads| && D.AllLinked(s) && ThreadHeard(s, h, s.threads[r], r)
    requires s.threads[r].SplitCheck? || s.threads[r].SplitClaim?
    ensures Founded(cfg, s, h, r, OnResume(s, s.threads[r], guard))
  {
    assert D.Linked(s, s.threads[r], r);
  }

  lemma FinalizeHeard(cfg: Config, s: State, h: seq<Answer>, c: nat, proof: Option<PaymentProof>,
                      items: seq<(string, PaymentProof)>)
    requires Heard(cfg, s, h)
    ensures Heard(cfg, StartFinalize(cfg, s, c, proof, items), h + [])
  {
    var s' := StartFinalize(cfg, s, c, proof, items);
    var t := Admit(cfg, s, c, proof, items).t;
    assert ThreadHeard(s, h, t, |s.threads|);
    ThreadStays(s, s', h, [], t, |s.threads|);
    Moves(cfg, s, s', h, [], |s.threads|, t);
  }

  lemma CommitHeard(cfg: Config, s: State, h: seq<Answer>, quoteId: nat, payer: string)
    requires Heard(cfg, s, h)
    ensures Heard(cfg, DoCommit(s, quoteId, payer), h + [])
  {
    var s' := DoCommit(s, quoteId, payer);
    Moves(cfg, s, s', h, [], |s.threads|, s'.threads[|s.threads|]);
  }

  lemma HeaderHeard(cfg: Config, s: State, h: seq<Answer>, resource: string, req: CompatRequest)
    requires Heard(cfg, s, h)
    ensures Heard(cfg, StartCompat(s, resource, req), h + [])
  {
    var s' := StartCompat(s, resource, req);
    Moves(cfg, s, s', h, [], |s.threads|, s'.threads[|s.threads|]);
  }

  lemma DeliveryHeard(cfg: Config, s: State, h: seq<Answer>, c: nat, resource: string)
    requires Heard(cfg, s, h) && Deliverable(s, c, resource)
    ensures Heard(cfg, StartDelivery(s, c, resource), h + [])
  {
    var s' := StartDelivery(s, c, resource);
    Moves(cfg, s, s', h, [], |s.threads|, s'.threads[|s.threads|]);
  }

  lemma QuoteHeard(cfg: Config, s: State, h: seq<Answer>, resource: string, p: Price)
    requires Heard(cfg, s, h)
    ensures Heard(cfg, Spawn(IssueQuote(cfg, s, resource, p), Done(Quoted(|s.quotes|))), h + [])
  {
    var s' := Spawn(IssueQuote(cfg, s, resource, p), Done(Quoted(|s.quotes|)));
    Moves(cfg, s, s', h, [], |s.threads|, Done(Quoted(|s.quotes|)));
  }

  lemma GetHeard(cfg: Config, s: State, h: seq<Answer>, resource: string, commit: Option<nat>,
                 compat: Option<CompatRequest>, p: Price)
    requires Heard(cfg, s, h)
    ensures Heard(cfg, GetResource(cfg, s, resource, commit, compat, p), h + [])
  {
    if commit.Some? && Deliverable(s, commit.value, resource) {
      DeliveryHeard(cfg, s, h, commit.value, resource);
    } else if compat.Some? {
      HeaderHeard(cfg, s, h, resource, compat.value);
    } else {
      QuoteHeard(cfg, s, h, resource, p);
    }
  }

  lemma OtherHeard(cfg: Config, s: State, h: seq<Answer>, e: Event)
    requires Heard(cfg, s, h) && (e.Tick? || e.Finish? || e.Abort? || e.FlushLedger?)
    ensures Heard(cfg, Step(cfg, s, e), h + [])
  {
    var s' := Step(cfg, s, e);
    OthersStay(cfg, s, s', h, [], 0);
  }

  lemma StepHeard(cfg: Config, s: State, h: seq<Answer>, e: Event)
    requires Heard(cfg, s, h) && D.AllLinked(s)
    ensures Heard(cfg, Step(cfg, s, e), h + AnswerOf(s, e))
  {
    match e
    case Verdict(r, v, guard) =>
      if r < |s.threads| {
        assert D.Linked(s, s.threads[r], r);
        VerdictFounded(cfg, s, h, r, v, guard);
        PerformHeard(cfg, s, h, AnswerOf(s, e), r, OnVerdict(cfg, s, s.threads[r], v, guard));
      } else {
        assert h + [] == h;
      }
    case Resume(r, guard) =>
      assert h + [] == h;
      if r < |s.threads| {
        assert D.Linked(s, s.threads[r], r);
        ResumeFounded(cfg, s, h, r, guard);
        PerformHeard(cfg, s, h, [], r, OnResume(s, s.threads[r], guard));
      }
    case PostFinalize(c, proof, items) => FinalizeHeard(cfg, s, h, c, proof, items);
    case PostCommit(q, payer) => CommitHeard(cfg, s, h, q, payer);
    case Get(resource, commit, compat, p) => GetHeard(cfg, s, h, resource, commit, compat, p);
    case AskQuote(resource, p) => QuoteHeard(cfg, s, h, resource, p);
    case _ => OtherHeard(cfg, s, h, e);
  }

  /** In every run, all that requests do and receipts say rests on what the verifier said. */
  lemma {:induction false} RunHeard(cfg: Config, start: nat, es: seq<Event>)
    ensures Heard(cfg, Run(cfg, start, es), Answers(cfg, start, es))
  {
    if es != [] {
      var n := |es| - 1;
      RunHeard(cfg, start, es[..n]);
      D.RunLinks(cfg, start, es[..n]);
      StepHeard(cfg, Run(cfg, start, es[..n]), Answers(cfg, start, es[..n]), es[n]);
    }
  }

  // ---- the theorems ------------------------------------------------------------------------------------------

  /**
   * Every line of a split that a stored receipt states was accepted: an earlier verdict with
   * `ok` told the request that issued the receipt, while it waited for this very line of this
   * very commit, the signature that the receipt states. The lines are those of the quote.
   */
  lemma SplitLinesWereAccepted(cfg: Config, start: nat, es: seq<Event>, x: nat, i: nat) returns (k: nat)
    requires var s := Run(cfg, start, es);
             && x < |s.receipts| && s.receipts[x].signed.payload.splitProofs.Some?
             && i < |s.receipts[x].signed.payload.splitProofs.value|
    ensures k < |es| && es[k].Verdict? && es[k].v.ok && es[k].r == Run(cfg, start, es).receipts[x].issuer
    ensures var p, s := Run(cfg, start, es).receipts[x].signed.payload, Run(cfg, start, es[..k]);
            && es[k].v.txSignature == Some(p.splitProofs.value[i].txSignature)
            && |s.receipts| <= x && es[k].r < |s.threads| && s.threads[es[k].r].SplitVerify?
            && p.commitId == Stored(s.threads[es[k].r].c) && |s.threads[es[k].r].lines| == i
    ensures var p, s := Run(cfg, start, es).receipts[x].signed.payload, Run(cfg, start, es);
            p.commitId.Stored? && Known(s, p.commitId.id) && StatesSplit(QuoteOf(s, p.commitId.id), p)
  {
    RunHeard(cfg, start, es);
    var s, h := Run(cfg, start, es), Answers(cfg, start, es);
    var p, r := s.receipts[x].signed.payload, s.receipts[x].issuer;
    assert PayloadHeard(cfg, s, h, r, p, x);
    var c, sig := p.commitId.id, p.splitProofs.value[i].txSignature;
    assert HeardLine(h, r, c, i, sig, x);
    var a :| 0 <= a < |h| && IsLine(h[a], r, c, i, h[a].v) && h[a].v.txSignature == Some(sig) && h[a].issued <= x;
    k := AnswersAreVerdicts(cfg, start, es, a);
  }

  /** Only netting receipts rest on no acceptance, and only where netting is enabled. */
  lemma NettingWhereEnabled(cfg: Config, start: nat, es: seq<Event>, x: nat)
    requires x < |Run(cfg, start, es).receipts|
    requires Run(cfg, start, es).receipts[x].signed.payload.settlement == Netting
    ensures cfg.nettingEnabled
  {
    RunHeard(cfg, start, es);
  }

  lemma SingleAnswer(h: seq<Answer>, r: nat, c: nat, p: ReceiptPayload, x: nat) returns (i: nat)
    requires HeardSingle(h, r, c, p, x)
    ensures i < |h| && h[i].r == r && h[i].waiting.AwaitVerify? && h[i].waiting.c == c
    ensures h[i].waiting.proof.Mode() == p.settlement && h[i].issued <= x && SameIds(h[i].v, p)
  {
    i :| 0 <= i < |h| && h[i].r == r && h[i].waiting.AwaitVerify? && h[i].waiting.c == c
         && h[i].waiting.proof.Mode() == p.settlement && h[i].issued <= x && SameIds(h[i].v, p);
  }

  lemma HeaderAnswer(s: State, h: seq<Answer>, r: nat, p: ReceiptPayload, x: nat) returns (i: nat)
    requires HeaderFor(s, h, r, p, x)
    ensures i < |h| && h[i].r == r && h[i].waiting.CompatVerify? && h[i].waiting.q < |s.quotes|
    ensures s.quotes[h[i].waiting.q].quoteId == p.quoteId && h[i].issued <= x && SameIds(h[i].v, p)
  {
    var q :| 0 <= q < |s.quotes| && s.quotes[q].quoteId == p.quoteId && HeardHeader(h, r, q, p, x);
    i :| 0 <= i < |h| && h[i].r == r && h[i].waiting.CompatVerify? && h[i].waiting.q == q
         && (h[i].waiting.txSig.Some? <==> p.settlement == Transfer) && h[i].issued <= x && SameIds(h[i].v, p);
  }

  /**
   * So was every other on-chain payment: the verifier accepted, for the request that issued the
   * receipt and for its commit or quote, exactly the payment that the receipt names.
   */
  lemma PaymentsWereAccepted(cfg: Config, start: nat, es: seq<Event>, x: nat) returns (k: nat)
    requires x < |Run(cfg, start, es).receipts|
    requires var p := Run(cfg, start, es).receipts[x].signed.payload; p.splitProofs.None? && p.settlement != Netting
    ensures k < |es| && es[k].Verdict? && es[k].v.ok && es[k].r == Run(cfg, start, es).receipts[x].issuer
    ensures var p, s := Run(cfg, start, es).receipts[x].signed.payload, Run(cfg, start, es[..k]);
            && |s.receipts| <= x && es[k].r < |s.threads|
            && (p.settlement == Transfer ==> Present(p.txSignature) && es[k].v.txSignature == p.txSignature)
            && (p.settlement == Stream ==> Present(p.streamId) && es[k].v.streamId == p.streamId)
            && var t := s.threads[es[k].r];
               match p.commitId
               case Stored(c) => t.AwaitVerify? && t.c == c && t.proof.Mode() == p.settlement
               case Synthetic(_) =>
                 t.CompatVerify? && t.q < |Run(cfg, start, es).quotes| &&
                   Run(cfg, start, es).quotes[t.q].quoteId == p.quoteId
  {
    RunHeard(cfg, start, es);
    var s, h := Run(cfg, start, es), Answers(cfg, start, es);
    var p, r := s.receipts[x].signed.payload, s.receipts[x].issuer;
    assert PayloadHeard(cfg, s, h, r, p, x);
    var i: nat;
    match p.commitId {
      case Stored(c) => i := SingleAnswer(h, r, c, p, x);
      case Synthetic(_) => i := HeaderAnswer(s, h, r, p, x);
    }
    k := AnswersAreVerdicts(cfg, start, es, i);
  }

  /** What verdict `v` on a split line does to request `r`, whose next line is there and is a transfer. */
  ghost predicate LineJudged(s: State, s': State, r: nat, c: nat, proofs: map<string, PaymentProof>,
                             lines: seq<SplitLine>, v: Verification)
    requires r < |s.threads| && |s'.threads| == |s.threads| && Known(s, c) && |lines| < |QuoteOf(s, c).split|
    requires QuoteOf(s, c).split[|lines|].feeLineId in proofs
  {
    var split, n := QuoteOf(s, c).split, |lines|;
    if !v.ok || v.txSignature.None? || v.txSignature.value == "" then
      s' == s.(commits := s.commits[c := s.commits[c].(status := Failed)],
               threads := s.threads[r := Done(Refused(402))])
    else if exists i :: 0 <= i < n && lines[i].v.txSignature == v.txSignature then
      s' == s.(threads := s.threads[r := Done(Refused(409))])
    else
      var more := lines + [SplitLine(split[n], proofs[split[n].feeLineId], v)];
      if n + 1 == |split| then
        && s'.threads[r].SplitCheck? && s'.threads[r].c == c && s'.threads[r].lines == more
        && s' == s.(seen := RS.Cleanup(s.seen, s.clock), threads := s.threads[r := s'.threads[r]])
      else if split[n + 1].feeLineId !in proofs then s' == s.(threads := s.threads[r := Done(Refused(402))])
      else if !proofs[split[n + 1].feeLineId].TransferProof? then
        s' == s.(threads := s.threads[r := Done(Refused(400))])
      else s' == s.(threads := s.threads[r := SplitVerify(c, proofs, more)])
  }

  /**
   * What a verdict on a split does, in every reachable state: the request waits for a line that
   * has a transfer proof; a refusal, or an acceptance that names no signature, fails the commit
   * and refuses the request; a signature seen before refuses the request and leaves the commit;
   * any other acceptance adds the line, and the request waits for the next one, or begins to
   * look up its keys. No key is claimed, no receipt is issued, and no other request is touched.
   */
  lemma SplitVerdictExactly(cfg: Config, start: nat, es: seq<Event>, r: nat, v: Verification, guard: Guard)
    requires r < |Run(cfg, start, es).threads| && Run(cfg, start, es).threads[r].SplitVerify?
    ensures var s, t := Run(cfg, start, es), Run(cfg, start, es).threads[r];
            && Known(s, t.c) && |t.lines| < |QuoteOf(s, t.c).split|
            && S.HasTransfer(QuoteOf(s, t.c), t.proofs, |t.lines|)
            && var s' := Step(cfg, s, Verdict(r, v, guard));
               |s'.threads| == |s.threads| && LineJudged(s, s', r, t.c, t.proofs, t.lines, v)
  {
    RunHeard(cfg, start, es);
    D.RunLinks(cfg, start, es);
    var s := Run(cfg, start, es);
    var t := s.threads[r];
    assert D.Linked(s, t, r) && ThreadHeard(s, Answers(cfg, start, es), t, r);
    JudgesLine(cfg, s, r, t.c, t.proofs, t.lines, v, guard);
  }

  lemma JudgesLine(cfg: Config, s: State, r: nat, c: nat, proofs: map<string, PaymentProof>, lines: seq<SplitLine>,
                   v: Verification, guard: Guard)
    requires r < |s.threads| && s.threads[r] == SplitVerify(c, proofs, lines) && Known(s, c) && AllVerified(lines)
    requires |lines| < |QuoteOf(s, c).split| && S.HasTransfer(QuoteOf(s, c), proofs, |lines|)
    ensures var s' := Step(cfg, s, Verdict(r, v, guard));
            |s'.threads| == |s.threads| && LineJudged(s, s', r, c, proofs, lines, v)
  {
    assert Step(cfg, s, Verdict(r, v, guard)) == Perform(cfg, s, r, OnSplitVerify(s, c, proofs, lines, v));
  }
}
