/**
 * Buyer and server together: an uninterrupted handshake succeeds and delivers once
 * (x402/src/client.ts against x402/src/server.ts).
 */
module Handshake {
  import opened Common
  import opened Types
  import opened Receipts
  import opened Protocol
  import opened Client
  import opened Settling

  // ---- what the server offers --------------------------------------------------------------------

  predicate Contains(s: string, part: string) {
    exists i :: 0 <= i < |s| && part <= s[i..]
  }

  /** `useNetting` is the fee policy's verdict on the amount. */
  function RecommendedMode(cfg: Config, q: Quote, useNetting: bool): (m: Settlement)
    ensures q.settlement != [] ==> m in q.settlement
  {
    if cfg.nettingEnabled && useNetting && Netting in q.settlement then Netting
    else if Contains(q.resource, "stream") && Stream in q.settlement then Stream
    else if Transfer in q.settlement || q.settlement == [] then Transfer
    else q.settlement[0]
  }

  /** For a quote the server issues: netting if enabled and worth it, else a stream for streams, else a transfer. */
  lemma RecommendsExactly(cfg: Config, s: State, resource: string, p: Price, useNetting: bool)
    ensures RecommendedMode(cfg, NewQuote(cfg, s, resource, p), useNetting) ==
            if cfg.nettingEnabled && useNetting then Netting
            else if exists i :: 0 <= i < |resource| && "stream" <= resource[i..] then Stream
            else Transfer
  {
    assert Contains(resource, "stream") <==> exists i :: 0 <= i < |resource| && "stream" <= resource[i..];
  }

  function Offer(cfg: Config, q: Quote, useNetting: bool): Requirements {
    Requirements(q, q.settlement, Some(RecommendedMode(cfg, q, useNetting)))
  }

  /** Every mode of an issued quote is on offer: transfers and streams, and netting where enabled. */
  lemma OffersExactly(cfg: Config, s: State, resource: string, p: Price, useNetting: bool, m: Settlement)
    ensures var d := FillIn(Offer(cfg, NewQuote(cfg, s, resource, p), useNetting));
            && (Offered(d, m) <==> m == Transfer || m == Stream || (m == Netting && cfg.nettingEnabled))
            && d.quote == NewQuote(cfg, s, resource, p)
            && d.recommended == Some(RecommendedMode(cfg, NewQuote(cfg, s, resource, p), useNetting))
  {
    var modes := NewQuote(cfg, s, resource, p).settlement;
    assert modes[0] == Transfer && modes[1] == Stream;
  }

  // ---- one session with a server in state `s` that nobody else talks to ---------------------------

  /** What the outside world adds: the price, two pauses, and the verifier's answer. */
  datatype Session = Session(price: Price, useNetting: bool, pause: nat, wait: nat, v: Verification)

  function Asked(cfg: Config, s: State, path: string, w: Session): State {
    Step(cfg, s, Get(path, None, None, w.price))
  }

  function Committing(cfg: Config, s: State, path: string, w: Session, quoteId: nat, payer: string): State {
    Step(cfg, Step(cfg, Asked(cfg, s, path, w), Tick(w.pause)), PostCommit(quoteId, payer))
  }

  function Finalizing(cfg: Config, s: State, c: nat, proof: PaymentProof, v: Verification): State {
    Settles(cfg, Step(cfg, s, PostFinalize(c, Some(proof), [])), |s.threads|, v)
  }

  function Paying(cfg: Config, s: State, path: string, w: Session, m: Sent): State {
    Finalizing(cfg, Step(cfg, Committing(cfg, s, path, w, m.quoteId, m.payer), Tick(w.wait)), m.commitId, m.proof, w.v)
  }

  function Fetching(cfg: Config, s: State, path: string, c: nat, p: Price): State {
    Step(cfg, Step(cfg, s, Get(path, Some(c), None, p)), Finish(|s.threads|, 200))
  }

  /** The server's state at the end of the session. */
  function End(cfg: Config, s: State, path: string, w: Session, m: Sent): State {
    Fetching(cfg, Paying(cfg, s, path, w, m), path, m.commitId, w.price)
  }

  function LastReply(s: State): Reply {
    if s.threads != [] && s.threads[|s.threads| - 1].Done? then s.threads[|s.threads| - 1].reply else Dropped
  }

  function CommitReply(cfg: Config, s: State, path: string, w: Session, quoteId: nat, payer: string): Option<nat> {
    var reply := LastReply(Committing(cfg, s, path, w, quoteId, payer));
    if reply.Committed? then Some(reply.commitId) else None
  }

  function FinalizedReply(cfg: Config, s: State, path: string, w: Session, m: Sent): Option<FinalizeReply> {
    var reply := LastReply(Paying(cfg, s, path, w, m));
    if reply.FinalizeOk?
    then Some(FinalizeReply(200, reply.receiptId,
                            JObject([("ok", JBool(true)), ("receiptId", JString(Decimal(reply.receiptId)))])))
    else None
  }

  function StoredReceipt(cfg: Config, s: State, path: string, w: Session, m: Sent, x: nat): Option<SignedReceipt> {
    var s' := Paying(cfg, s, path, w, m);
    if x < |s'.receipts| then Some(s'.receipts[x].signed) else None
  }

  function Delivered(cfg: Config, s: State, path: string, w: Session, m: Sent): Response {
    var s' := End(cfg, s, path, w, m);
    if LastReply(s').Served? && LastReply(s').receiptId < |s'.receipts|
    then Response(200, JObject(FulfilledBody(path) +
                               [("receipt", JReceipt(s'.receipts[LastReply(s').receiptId].signed))]), None)
    else Response(402, JNull, None)
  }

  /** The server as the buyer sees it. */
  function Server(cfg: Config, s: State, path: string, w: Session): Peer {
    Peer(Demand(Offer(cfg, NewQuote(cfg, s, path, w.price), w.useNetting)),
         (q, payer) => CommitReply(cfg, s, path, w, q, payer),
         m => FinalizedReply(cfg, s, path, w, m),
         (m, x: nat) => StoredReceipt(cfg, s, path, w, m, x),
         m => Delivered(cfg, s, path, w, m),
         proof => Response(402, JNull, None))
  }

  // ---- when a payment goes through -------------------------------------------------------------------

  /** The caps allow the quote at time `t`. */
  predicate CapsAllow(cfg: Config, s: State, total: nat, t: nat) {
    && DrillAmountAllowed(cfg.drill, total) && BetaAmountAllowed(cfg.beta, total)
    && DailyAllowed(cfg.drill, s.drill, total, t) && DailyAllowed(cfg.beta, s.beta, total, t)
  }

  // ---- the finalize call -------------------------------------------------------------------------------

  /** Commit `c` got the next receipt, which states the quoted terms, and was counted. */
  ghost predicate Completed(cfg: Config, s: State, e: State, c: nat, proof: PaymentProof, v: Verification)
    requires Known(s, c)
  {
    && e.quotes == s.quotes && e.clock == s.clock
    && e.commits == s.commits[c := Sealed(s.commits[c], |s.receipts|, proof.Mode())]
    && e.receipts == s.receipts + [Issued(ReceiptFrom(cfg, s, c, proof, v), |s.threads|)]
    && e.threads == s.threads + [Done(FinalizeOk(c, |s.receipts|))]
    && e.drill == CountedOnce(cfg.drill, s.drill, QuoteOf(s, c).total, s.clock)
    && e.beta == CountedOnce(cfg.beta, s.beta, QuoteOf(s, c).total, s.clock)
  }

  /** A counter after the check and the record of one request. */
  function CountedOnce(p: CapPolicy, u: Usage, total: nat, now: nat): Usage {
    UsageAfterRecord(p, UsageAfterCheck(p, u, now), total, now)
  }

  /** A fresh commit whose quote is alive and payable with `proof`. */
  predicate Ready(cfg: Config, s: State, c: nat, proof: PaymentProof) {
    && Known(s, c) && s.commits[c].receiptId.None? && s.commits[c].consumedAt.None?
    && var q := QuoteOf(s, c);
       && !Expired(q, s.clock) && q.split == [] && proof.Mode() in q.settlement &&
          (proof.NettingProof? ==> cfg.nettingEnabled)
       && CapsAllow(cfg, s, q.total, s.clock)
  }

  lemma Admits(cfg: Config, s: State, c: nat, proof: PaymentProof)
    requires Ready(cfg, s, c, proof)
    ensures Step(cfg, s, PostFinalize(c, Some(proof), [])) ==
            s.(drill := UsageAfterCheck(cfg.drill, s.drill, s.clock),
               beta := UsageAfterCheck(cfg.beta, s.beta, s.clock),
               threads := s.threads + [AwaitVerify(c, proof)])
  {
  }

  /** A ready commit and a good proof: the finalize call completes the commit. */
  lemma FinalizeCompletes(cfg: Config, s: State, c: nat, proof: PaymentProof, v: Verification)
    requires Ready(cfg, s, c, proof) && ProofGood(s, QuoteOf(s, c), proof, v, s.clock)
    ensures Completed(cfg, s, Finalizing(cfg, s, c, proof, v), c, proof, v)
  {
    var a := Step(cfg, s, PostFinalize(c, Some(proof), []));
    Admits(cfg, s, c, proof);
    assert Awaits(cfg, a, |s.threads|, c, proof, v);
    AwaitSettles(cfg, a, |s.threads|, c, proof, v);
    SettledCompletes(cfg, s, a, Finalizing(cfg, s, c, proof, v), c, proof, v);
  }

  lemma SettledCompletes(cfg: Config, s: State, a: State, e: State, c: nat, proof: PaymentProof, v: Verification)
    requires Known(s, c)
    requires a == s.(drill := UsageAfterCheck(cfg.drill, s.drill, s.clock),
                     beta := UsageAfterCheck(cfg.beta, s.beta, s.clock),
                     threads := s.threads + [AwaitVerify(c, proof)])
    requires Settled(cfg, a, e, |s.threads|, c, proof, v)
    ensures Completed(cfg, s, e, c, proof, v)
  {
    assert ReceiptFrom(cfg, a, c, proof, v) == ReceiptFrom(cfg, s, c, proof, v);
  }

  // ---- the other calls ---------------------------------------------------------------------------------

  lemma FetchDelivers(cfg: Config, s: State, path: string, c: nat, p: Price)
    requires Deliverable(s, c, path)
    ensures var x, s' := s.commits[c].receiptId.value, Fetching(cfg, s, path, c, p);
            && s'.receipts == s.receipts && s'.quotes == s.quotes && s'.clock == s.clock
            && s'.drill == s.drill && s'.beta == s.beta && s'.threads == s.threads + [Done(Served(Stored(c), x))]
  {
  }

  /** `b` is `s` with the quote issued and committed to, and nothing claimed or counted meanwhile. */
  ghost predicate CommittedTo(cfg: Config, s: State, b: State, path: string, w: Session, payer: string) {
    && b.quotes == s.quotes + [NewQuote(cfg, s, path, w.price)] && b.receipts == s.receipts && b.prevHash == s.prevHash
    && b.seen == s.seen && b.drill == s.drill && b.beta == s.beta && b.clock == s.clock + w.pause
    && b.commits == s.commits + [Commit(|s.quotes|, payer, s.clock + w.pause, Pending, None, None, None)]
    && b.threads == s.threads + [Done(Quoted(|s.quotes|)), Done(Committed(|s.commits|))]
  }

  lemma CommitSucceeds(cfg: Config, s: State, path: string, w: Session, payer: string)
    requires NormalizeCommitment(payer) == Some(payer) && w.pause < cfg.quoteTtlMs
    ensures CommittedTo(cfg, s, Committing(cfg, s, path, w, |s.quotes|, payer), path, w, payer)
  {
    AskedShape(cfg, s, path, w);
    var t := Step(cfg, Asked(cfg, s, path, w), Tick(w.pause));
    assert Committing(cfg, s, path, w, |s.quotes|, payer) == DoCommit(t, |s.quotes|, payer);
    CommitFrom(cfg, s, t, path, w, payer);
  }

  /** `t` is `s` with the quote issued, some time later. */
  ghost predicate QuotedAt(cfg: Config, s: State, t: State, path: string, w: Session) {
    && t.quotes == s.quotes + [NewQuote(cfg, s, path, w.price)] && t.commits == s.commits && t.receipts == s.receipts
    && t.prevHash == s.prevHash && t.seen == s.seen && t.drill == s.drill && t.beta == s.beta
    && t.clock == s.clock + w.pause && t.threads == s.threads + [Done(Quoted(|s.quotes|))]
  }

  lemma AskedShape(cfg: Config, s: State, path: string, w: Session)
    ensures QuotedAt(cfg, s, Step(cfg, Asked(cfg, s, path, w), Tick(w.pause)), path, w)
  {
  }

  lemma CommitFrom(cfg: Config, s: State, t: State, path: string, w: Session, payer: string)
    requires NormalizeCommitment(payer) == Some(payer) && w.pause < cfg.quoteTtlMs && QuotedAt(cfg, s, t, path, w)
    ensures CommittedTo(cfg, s, DoCommit(t, |s.quotes|, payer), path, w, payer)
  {
    assert t.quotes[|s.quotes|] == NewQuote(cfg, s, path, w.price);
    assert t.threads + [Done(Committed(|s.commits|))] ==
      s.threads + [Done(Quoted(|s.quotes|)), Done(Committed(|s.commits|))];
  }

  // ---- the whole session ---------------------------------------------------------------------------------

  /** The messages of a buyer that follows the protocol. */
  function Messages(s: State, payer: string, proof: PaymentProof): Sent {
    Sent(|s.quotes|, payer, |s.commits|, proof)
  }

  /** All that has to hold for a session to go through. */
  ghost predicate GoesThrough(cfg: Config, s: State, path: string, w: Session, payer: string, proof: PaymentProof) {
    && NormalizeCommitment(payer) == Some(payer) && w.pause + w.wait < cfg.quoteTtlMs
    && var q, t := NewQuote(cfg, s, path, w.price), s.clock + w.pause + w.wait;
       && q.split == [] && proof.Mode() in q.settlement && CapsAllow(cfg, s, q.total, t) &&
          ProofGood(s, q, proof, w.v, t)
  }

  /** A server that has just started, with caps off, lets every verified payment through. */
  lemma FreshServerAccepts(cfg: Config, start: nat, path: string, w: Session, payer: string, proof: PaymentProof)
    requires !cfg.drill.enabled && !cfg.beta.enabled && w.pause + w.wait < cfg.quoteTtlMs
    requires NormalizeCommitment(payer) == Some(payer) && w.price.split == [] && w.v.ok && SingleReady(proof, w.v)
    ensures GoesThrough(cfg, Init(start), path, w, payer, proof)
  {
  }

  /** The receipt of the session states the quoted terms, this request and the body to be delivered. */
  ghost predicate ReceiptOf(cfg: Config, s: State, path: string, w: Session, payer: string, proof: PaymentProof,
                            r: SignedReceipt) {
    && var q, p := NewQuote(cfg, s, path, w.price), r.payload;
       && r == SignReceipt(cfg.crypto, s.prevHash, p)
       && p.receiptId == |s.receipts| && p.quoteId == q.quoteId && p.commitId == Stored(|s.commits|) && p.payer == payer
       && p.resource == path && p.recipient == q.recipient && p.mint == q.mint
       && p.amount == q.amount && p.fee == q.fee && p.total == q.total && p.createdAt == s.clock + w.pause + w.wait
       && p.settlement == proof.Mode() && p.splitProofs.None? &&
          p.settledOnchain == Judged(cfg, proof, w.v).settledOnchain
       && p.txSignature == Judged(cfg, proof, w.v).txSignature && p.streamId == Judged(cfg, proof, w.v).streamId
       && p.requestDigest == RequestDigest(cfg.crypto, "GET", path, None)
       && p.responseDigest == FulfilledDigest(cfg.crypto, path)
  }

  /** `u` holds a fresh commit that this proof can finalize now. */
  ghost predicate Payable(cfg: Config, s: State, u: State, path: string, w: Session, payer: string,
                          proof: PaymentProof) {
    && Ready(cfg, u, |s.commits|, proof) && ProofGood(u, QuoteOf(u, |s.commits|), proof, w.v, u.clock)
    && QuoteOf(u, |s.commits|) == NewQuote(cfg, s, path, w.price) && u.commits[|s.commits|].payer == payer
    && |u.commits| == |s.commits| + 1 && u.receipts == s.receipts && u.prevHash == s.prevHash
    && u.clock == s.clock + w.pause + w.wait
    && u.threads == s.threads + [Done(Quoted(|s.quotes|)), Done(Committed(|s.commits|))]
  }

  lemma StillPayable(cfg: Config, s: State, b: State, path: string, w: Session, payer: string, proof: PaymentProof)
    requires GoesThrough(cfg, s, path, w, payer, proof) && CommittedTo(cfg, s, b, path, w, payer)
    ensures Payable(cfg, s, b.(clock := b.clock + w.wait), path, w, payer, proof)
  {
    var u := b.(clock := b.clock + w.wait);
    var q := NewQuote(cfg, s, path, w.price);
    assert u.commits[|s.commits|] == Commit(|s.quotes|, payer, s.clock + w.pause, Pending, None, None, None);
    assert u.quotes[|s.quotes|] == q;
    assert Known(u, |s.commits|) && QuoteOf(u, |s.commits|) == q;
    StillGood(cfg, s, u, q, w, proof);
  }

  lemma StillGood(cfg: Config, s: State, u: State, q: Quote, w: Session, proof: PaymentProof)
    requires u.seen == s.seen && u.drill == s.drill && u.beta == s.beta && u.clock == s.clock + w.pause + w.wait
    requires CapsAllow(cfg, s, q.total, s.clock + w.pause + w.wait) &&
      ProofGood(s, q, proof, w.v, s.clock + w.pause + w.wait)
    ensures CapsAllow(cfg, u, q.total, u.clock) && ProofGood(u, q, proof, w.v, u.clock)
  {
  }

  /** The receipt is there once the buyer has paid, and the commit can be redeemed. */
  lemma PayingIssues(cfg: Config, s: State, path: string, w: Session, payer: string, proof: PaymentProof)
    requires GoesThrough(cfg, s, path, w, payer, proof)
    ensures var f := Paying(cfg, s, path, w, Messages(s, payer, proof));
            && |f.receipts| == |s.receipts| + 1 && f.receipts == s.receipts + [f.receipts[|s.receipts|]]
            && f.receipts[|s.receipts|].issuer == |s.threads| + 2
            && ReceiptOf(cfg, s, path, w, payer, proof, f.receipts[|s.receipts|].signed)
            && f.threads == s.threads +
               [Done(Quoted(|s.quotes|)), Done(Committed(|s.commits|)), Done(FinalizeOk(|s.commits|, |s.receipts|))]
            && Deliverable(f, |s.commits|, path) && f.commits[|s.commits|].receiptId == Some(|s.receipts|)
            && LastReply(f) == FinalizeOk(|s.commits|, |s.receipts|)
  {
    var b := Committing(cfg, s, path, w, |s.quotes|, payer);
    var u := Step(cfg, b, Tick(w.wait));
    assert u == b.(clock := b.clock + w.wait);
    CommitSucceeds(cfg, s, path, w, payer);
    StillPayable(cfg, s, b, path, w, payer, proof);
    FinalizeCompletes(cfg, u, |s.commits|, proof, w.v);
    CompletedMeans(cfg, s, u, Paying(cfg, s, path, w, Messages(s, payer, proof)), path, w, payer, proof);
  }

  lemma CompletedMeans(cfg: Config, s: State, u: State, f: State, path: string, w: Session, payer: string,
                       proof: PaymentProof)
    requires Payable(cfg, s, u, path, w, payer, proof)
    requires Completed(cfg, u, f, |s.commits|, proof, w.v)
    ensures |f.receipts| == |s.receipts| + 1 && f.receipts == s.receipts + [f.receipts[|s.receipts|]]
    ensures f.receipts[|s.receipts|].issuer == |s.threads| + 2
    ensures ReceiptOf(cfg, s, path, w, payer, proof, f.receipts[|s.receipts|].signed)
    ensures f.threads ==
      s.threads + [Done(Quoted(|s.quotes|)), Done(Committed(|s.commits|)), Done(FinalizeOk(|s.commits|, |s.receipts|))]
    ensures Deliverable(f, |s.commits|, path) && f.commits[|s.commits|].receiptId == Some(|s.receipts|)
    ensures LastReply(f) == FinalizeOk(|s.commits|, |s.receipts|)
  {
  }

  /** Exactly one delivery: the session adds four answered requests, the last one served. */
  lemma SessionDelivers(cfg: Config, s: State, path: string, w: Session, payer: string, proof: PaymentProof)
    requires GoesThrough(cfg, s, path, w, payer, proof)
    ensures var f, e := Paying(cfg, s, path, w, Messages(s, payer, proof)),
      End(cfg, s, path, w, Messages(s, payer, proof));
            && e.receipts == f.receipts && LastReply(e) == Served(Stored(|s.commits|), |s.receipts|)
            && e.threads == s.threads + [Done(Quoted(|s.quotes|)), Done(Committed(|s.commits|)),
                                         Done(FinalizeOk(|s.commits|, |s.receipts|)),
                                         Done(Served(Stored(|s.commits|), |s.receipts|))]
  {
    PayingIssues(cfg, s, path, w, payer, proof);
    var f := Paying(cfg, s, path, w, Messages(s, payer, proof));
    FetchDelivers(cfg, f, path, |s.commits|, w.price);
    assert f.threads + [Done(Served(Stored(|s.commits|), |s.receipts|))] ==
           s.threads + [Done(Quoted(|s.quotes|)), Done(Committed(|s.commits|)),
                        Done(FinalizeOk(|s.commits|, |s.receipts|)), Done(Served(Stored(|s.commits|), |s.receipts|))];
  }

  /** The session takes no longer than its pauses, and is counted once by each cap. */
  lemma SessionCounts(cfg: Config, s: State, path: string, w: Session, payer: string, proof: PaymentProof, t: nat)
    requires GoesThrough(cfg, s, path, w, payer, proof) && t == s.clock + w.pause + w.wait
    ensures var e, q := End(cfg, s, path, w, Messages(s, payer, proof)), NewQuote(cfg, s, path, w.price);
            && e.clock == t
            && e.drill == CountedOnce(cfg.drill, s.drill, q.total, t)
            && e.beta == CountedOnce(cfg.beta, s.beta, q.total, t)
  {
    var b := Committing(cfg, s, path, w, |s.quotes|, payer);
    var u := Step(cfg, b, Tick(w.wait));
    assert u == b.(clock := b.clock + w.wait);
    CommitSucceeds(cfg, s, path, w, payer);
    StillPayable(cfg, s, b, path, w, payer, proof);
    FinalizeCompletes(cfg, u, |s.commits|, proof, w.v);
    PayingIssues(cfg, s, path, w, payer, proof);
    var f := Paying(cfg, s, path, w, Messages(s, payer, proof));
    FetchDelivers(cfg, f, path, |s.commits|, w.price);
    CountedThen(cfg, s, b, u, f, path, w, payer, proof, t);
  }

  lemma CountedThen(cfg: Config, s: State, b: State, u: State, f: State, path: string, w: Session, payer: string,
                    proof: PaymentProof, t: nat)
    requires CommittedTo(cfg, s, b, path, w, payer) && u == b.(clock := b.clock + w.wait)
    requires Payable(cfg, s, u, path, w, payer, proof) && Completed(cfg, u, f, |s.commits|, proof, w.v)
    requires t == s.clock + w.pause + w.wait
    ensures var q := NewQuote(cfg, s, path, w.price);
            && f.clock == t
            && f.drill == CountedOnce(cfg.drill, s.drill, q.total, t)
            && f.beta == CountedOnce(cfg.beta, s.beta, q.total, t)
  {
  }

  // ---- the buyer accepts ------------------------------------------------------------------------------------

  /** The fields of a delivered body: each kind of resource has one of its own, besides `ok`. */
  lemma BodyFields(resource: string)
    ensures var b := FulfilledBody(resource);
            && Field(b, "ok") == Some(JBool(true)) && Field(b, "receipt").None?
            && (Field(b, "output").Some? <==> resource == "/inference")
            && (Field(b, "stream").Some? <==> resource == "/stream-access")
            && (Field(b, "data").Some? <==> resource != "/inference" && resource != "/stream-access")
  {
    var b := FulfilledBody(resource);
    var init := b[..1];
    assert b[..|b| - 1] == init && init[..0] == [];
    assert forall name :: Field(init, name) == if name == "ok" then Some(JBool(true)) else None;
  }

  lemma FulfilledBodyHasNoReceipt(path: string)
    ensures forall i :: 0 <= i < |FulfilledBody(path)| ==> FulfilledBody(path)[i].0 != "receipt"
  {
  }

  /** The receipt's request digest, which is for the bare path, is that of the buyer's request. */
  predicate SameRequest(c: Crypto, o: Buying, path: string) {
    RequestDigest(c, o.verb, o.path, o.body) == RequestDigest(c, "GET", path, None)
  }

  /** The honest receipt passes every check, against the fetched and against the delivered response. */
  lemma BuyerAccepts(cfg: Config, s: State, o: Buying, path: string, w: Session, payer: string, proof: PaymentProof,
                     r: SignedReceipt)
    requires SignaturesVerify(cfg.crypto) && SameRequest(cfg.crypto, o, path)
    requires ReceiptOf(cfg, s, path, w, payer, proof, r) && (proof.NettingProof? || SingleReady(proof, w.v))
    ensures var x := TermsOf(NewQuote(cfg, s, path, w.price), Messages(s, payer, proof));
            var response := Response(200, JObject(FulfilledBody(path) + [("receipt", JReceipt(r))]), None);
            && ReceiptIntact(cfg.crypto, r, x)
            && Deliver(cfg.crypto, o, response, r, x, |s.commits|) ==
               Client.Paid(response, |s.commits|, r, [r], x.total)
  {
    FulfilledBodyHasNoReceipt(path);
    EmbedThenExtract(FulfilledBody(path), JReceipt(r));
    assert VerifySignedReceipt(cfg.crypto, r);
  }

  /**
   * Handshake completeness. Whenever the buyer can afford the quote, the caps allow it and the
   * payment is good and unused, an uninterrupted call passes every check: it returns the
   * server's body with a receipt for it, and the server has served exactly one more request.
   */
  lemma HandshakeCompletes(cfg: Config, s: State, o: Buying, path: string, w: Session, spentToday: nat, payer: string,
                           proof: PaymentProof)
    requires SignaturesVerify(cfg.crypto) && SameRequest(cfg.crypto, o, path)
    requires NormalizeCommitment(o.payer) == Some(payer)
    requires var q := NewQuote(cfg, s, path, w.price);
             && Affordable(o, q.total, spentToday).None?
             && ChooseSettlement(o, FillIn(Offer(cfg, q, w.useNetting))) == Some(proof)
    requires GoesThrough(cfg, s, path, w, payer, proof)
    ensures var out := Fetch(cfg.crypto, o, Server(cfg, s, path, w), spentToday);
            var e := End(cfg, s, path, w, Messages(s, payer, proof));
            && out.Paid? && out.commitId == |s.commits| && out.kept == [out.receipt]
            && out.response == Response(200, JObject(FulfilledBody(path) + [("receipt", JReceipt(out.receipt))]), None)
            && ReceiptOf(cfg, s, path, w, payer, proof, out.receipt)
            && e.receipts == s.receipts + [Issued(out.receipt, |s.threads| + 2)]
            && e.threads == s.threads + [Done(Quoted(|s.quotes|)), Done(Committed(|s.commits|)),
                                         Done(FinalizeOk(|s.commits|, |s.receipts|)),
                                         Done(Served(Stored(|s.commits|), |s.receipts|))]
  {
    var m := Messages(s, payer, proof);
    var r := SessionAnswers(cfg, s, path, w, payer, proof);
    BuyerAccepts(cfg, s, o, path, w, payer, proof, r);
    FetchReachesDelivery(cfg.crypto, o, Server(cfg, s, path, w), spentToday, m, r);
  }

  /** What the buyer hears in a session that goes through, and what the server has done by its end. */
  lemma SessionAnswers(cfg: Config, s: State, path: string, w: Session, payer: string, proof: PaymentProof)
    returns (r: SignedReceipt)
    requires GoesThrough(cfg, s, path, w, payer, proof)
    ensures ReceiptOf(cfg, s, path, w, payer, proof, r)
    ensures var peer, m := Server(cfg, s, path, w), Messages(s, payer, proof);
            && peer.first == Demand(Offer(cfg, NewQuote(cfg, s, path, w.price), w.useNetting))
            && peer.commit(m.quoteId, m.payer) == Some(m.commitId)
            && peer.finalize(m).Some? && peer.receipt(m, peer.finalize(m).value.receiptId) == Some(r)
            && peer.deliver(m) == Response(200, JObject(FulfilledBody(path) + [("receipt", JReceipt(r))]), None)
    ensures var e := End(cfg, s, path, w, Messages(s, payer, proof));
            && e.receipts == s.receipts + [Issued(r, |s.threads| + 2)]
            && e.threads == s.threads + [Done(Quoted(|s.quotes|)), Done(Committed(|s.commits|)),
                                         Done(FinalizeOk(|s.commits|, |s.receipts|)),
                                         Done(Served(Stored(|s.commits|), |s.receipts|))]
  {
    var m := Messages(s, payer, proof);
    CommitAnswer(cfg, s, path, w, payer);
    PayingIssues(cfg, s, path, w, payer, proof);
    r := Paying(cfg, s, path, w, m).receipts[|s.receipts|].signed;
    SessionDelivers(cfg, s, path, w, payer, proof);
    ServerAnswers(cfg, s, path, w, m, r);
  }

  lemma CommitAnswer(cfg: Config, s: State, path: string, w: Session, payer: string)
    requires NormalizeCommitment(payer) == Some(payer) && w.pause < cfg.quoteTtlMs
    ensures Server(cfg, s, path, w).commit(|s.quotes|, payer) == Some(|s.commits|)
  {
    CommitSucceeds(cfg, s, path, w, payer);
    assert LastReply(Committing(cfg, s, path, w, |s.quotes|, payer)) == Committed(|s.commits|);
  }

  /** A buyer whose every question is answered well is left with the last check. */
  lemma FetchReachesDelivery(c: Crypto, o: Buying, peer: Peer, spentToday: nat, m: Sent, r: SignedReceipt)
    requires peer.first.Demand?
    requires var d := FillIn(peer.first.requirements);
             && Affordable(o, d.quote.total, spentToday).None? && ChooseSettlement(o, d) == Some(m.proof)
             && NormalizeCommitment(o.payer) == Some(m.payer) && m.quoteId == d.quote.quoteId
             && peer.commit(m.quoteId, m.payer) == Some(m.commitId)
             && peer.finalize(m).Some? && peer.receipt(m, peer.finalize(m).value.receiptId) == Some(r)
             && ReceiptIntact(c, r, TermsOf(d.quote, m)) &&
                r.payload.requestDigest == RequestDigest(c, o.verb, o.path, o.body)
    ensures var q := peer.first.requirements.quote;
            Fetch(c, o, peer, spentToday) == Deliver(c, o, peer.deliver(m), r, TermsOf(q, m), m.commitId)
  {
  }

  lemma ServerAnswers(cfg: Config, s: State, path: string, w: Session, m: Sent, r: SignedReceipt)
    requires var f, e := Paying(cfg, s, path, w, m), End(cfg, s, path, w, m);
             && LastReply(f) == FinalizeOk(|s.commits|, |s.receipts|) &&
                LastReply(e) == Served(Stored(|s.commits|), |s.receipts|)
             && |f.receipts| == |s.receipts| + 1 && e.receipts == f.receipts && f.receipts[|s.receipts|].signed == r
    ensures var peer := Server(cfg, s, path, w);
            && peer.finalize(m).Some? && peer.finalize(m).value.receiptId == |s.receipts|
            && peer.receipt(m, |s.receipts|) == Some(r)
            && peer.deliver(m) == Response(200, JObject(FulfilledBody(path) + [("receipt", JReceipt(r))]), None)
  {
  }
}
