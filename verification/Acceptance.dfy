/**
 * What every receipt of a paid call is, spelled out down to hash and signature, and what else an
 * accepted call has checked (x402/src/client.ts).
 */
module Acceptance {
  import opened Common
  import opened Types
  import opened Receipts
  import opened Client

  /** The receipt is genuine, and it is for `q`, paid with `proof`. */
  ghost predicate ForQuote(c: Crypto, r: SignedReceipt, q: Quote, proof: PaymentProof) {
    && c.hash(c.encodeReceipt(r.prevHash, r.payload)) == r.receiptHash
    && c.verify(r.receiptHash, r.signature, r.signerPublicKey)
    && r.payload.recipient == q.recipient && r.payload.mint == q.mint && r.payload.total == q.total
    && match proof
       case TransferProof(_, _) =>
         r.payload.settlement == Transfer && r.payload.txSignature.Some? && r.payload.txSignature.value != ""
       case StreamProof(_) =>
         r.payload.settlement == Stream && r.payload.streamId.Some? && r.payload.streamId.value != ""
       case NettingProof => r.payload.settlement == Netting
  }

  ghost predicate ForCommit(r: SignedReceipt, q: Quote, commitId: nat, payer: string) {
    r.payload.quoteId == q.quoteId && r.payload.commitId == Stored(commitId) && r.payload.payer == payer
  }

  function BodyText(c: Crypto, body: Option<Json>): string {
    if body.Some? then c.json(body.value) else c.json(JNull)
  }

  /** The receipt was issued for the buyer's own request. */
  ghost predicate ForRequest(c: Crypto, o: Buying, r: SignedReceipt) {
    r.payload.requestDigest == c.hash(o.verb + "|" + o.path + "|" + BodyText(c, o.body))
  }

  /** The receipt was issued for this response. */
  ghost predicate ForResponse(c: Crypto, r: SignedReceipt, response: Response) {
    r.payload.responseDigest == c.hash(Decimal(response.status) + "|" + c.json(BusinessBody(response.body)))
  }

  /** The receipt was issued for the finalize exchange. */
  ghost predicate ForFinalize(c: Crypto, r: SignedReceipt, commitId: nat, proof: PaymentProof, f: FinalizeReply) {
    && r.payload.requestDigest == c.hash("POST|/finalize|" + c.json(FinalizeBody(commitId, proof)))
    && r.payload.responseDigest == c.hash(Decimal(f.status) + "|" + c.json(f.body))
  }

  /** The receipt that travels with a successful response: in its header, or else in its body. */
  function Travelling(response: Response): Option<SignedReceipt> {
    if response.status < 200 || response.status > 299 then None
    else if response.header.Some? then response.header
    else if response.body.JObject? then
      match Field(response.body.fields, "receipt")
      case Some(JReceipt(r)) => Some(r)
      case _ => None
    else None
  }

  // ---- the commit flow -----------------------------------------------------------------------------

  /** `fetched` is the receipt from the server's store, `out` the outcome of the call. */
  ghost predicate Accepted(c: Crypto, o: Buying, q: Quote, m: Sent, f: FinalizeReply, fetched: SignedReceipt,
                           response: Response, out: Outcome) {
    && out.Paid? && out.total == q.total && out.commitId == m.commitId && out.response == response
    && (forall r :: r in out.kept || r == out.receipt ==>
          ForQuote(c, r, q, m.proof) && ForCommit(r, q, m.commitId, m.payer))
    && (ForRequest(c, o, fetched) || ForFinalize(c, fetched, m.commitId, m.proof, f))
    && match Travelling(response)
       case Some(r) =>
         && out.receipt == r && ForRequest(c, o, r) && ForResponse(c, r, response)
         && out.kept == if r.payload.receiptId != fetched.payload.receiptId then [fetched, r] else [fetched]
       case None =>
         && out.receipt == fetched && out.kept == [fetched]
         && (200 <= response.status <= 299 && ForRequest(c, o, fetched) ==> ForResponse(c, fetched, response))
  }

  lemma FinalizeAccepts(c: Crypto, o: Buying, peer: Peer, q: Quote, m: Sent)
    requires Finalize(c, o, peer, q, m).Paid? && m.quoteId == q.quoteId
    ensures peer.finalize(m).Some? && peer.receipt(m, peer.finalize(m).value.receiptId).Some?
    ensures Accepted(c, o, q, m, peer.finalize(m).value, peer.receipt(m, peer.finalize(m).value.receiptId).value,
                     peer.deliver(m), Finalize(c, o, peer, q, m))
  {
    var f := peer.finalize(m).value;
    var r := peer.receipt(m, f.receiptId).value;
    assert "POST" + "|" + "/finalize" + "|" == "POST|/finalize|";
    DeliverAccepts(c, o, q, m, peer.deliver(m), r);
  }

  lemma DeliverAccepts(c: Crypto, o: Buying, q: Quote, m: Sent, response: Response, r: SignedReceipt)
    requires m.quoteId == q.quoteId && ReceiptIntact(c, r, TermsOf(q, m))
    requires Deliver(c, o, response, r, TermsOf(q, m), m.commitId).Paid?
    ensures var out := Deliver(c, o, response, r, TermsOf(q, m), m.commitId);
            && out.total == q.total && out.commitId == m.commitId && out.response == response
            && (forall x :: x in out.kept || x == out.receipt ==>
                  ForQuote(c, x, q, m.proof) && ForCommit(x, q, m.commitId, m.payer))
            && match Travelling(response)
               case Some(e) =>
                 && out.receipt == e && ForRequest(c, o, e) && ForResponse(c, e, response)
                 && out.kept == if e.payload.receiptId != r.payload.receiptId then [r, e] else [r]
               case None =>
                 && out.receipt == r && out.kept == [r]
                 && (200 <= response.status <= 299 && ForRequest(c, o, r) ==> ForResponse(c, r, response))
  {
  }

  lemma FetchCommits(c: Crypto, o: Buying, peer: Peer, spentToday: nat) returns (proof: PaymentProof)
    requires peer.first.Demand? && Fetch(c, o, peer, spentToday).Spends()
    ensures ChooseSettlement(o, FillIn(peer.first.requirements)) == Some(proof)
    ensures Fetch(c, o, peer, spentToday) == CommitAndPay(c, o, peer, peer.first.requirements.quote, proof)
  {
    proof := ChooseSettlement(o, FillIn(peer.first.requirements)).value;
  }

  lemma FinalizePays(c: Crypto, o: Buying, peer: Peer, q: Quote, m: Sent)
    requires Finalize(c, o, peer, q, m).Spends()
    ensures Finalize(c, o, peer, q, m).Paid?
  {
  }

  lemma CommitFinalizes(c: Crypto, o: Buying, peer: Peer, q: Quote, proof: PaymentProof) returns (m: Sent)
    requires CommitAndPay(c, o, peer, q, proof).Spends()
    ensures NormalizeCommitment(o.payer) == Some(m.payer) && peer.commit(q.quoteId, m.payer) == Some(m.commitId)
    ensures m.quoteId == q.quoteId && m.proof == proof
    ensures CommitAndPay(c, o, peer, q, proof) == Finalize(c, o, peer, q, m)
  {
    var payer := NormalizeCommitment(o.payer).value;
    m := Sent(q.quoteId, payer, peer.commit(q.quoteId, payer).value, proof);
  }

  /**
   * The commit flow, against any peer: a paid call made its commit under the normal form of its
   * payer and paid as it chose; every receipt it keeps or returns has a hash and a signature that
   * verify, and states recipient, mint and total of the demanded quote, the chosen mode with its
   * payment, and the call's own quote, commit and payer; the fetched receipt is about this request
   * or about the finalize exchange, and one that travels with the response is for this very
   * request and this very response.
   */
  lemma PaidByCommit(c: Crypto, o: Buying, peer: Peer, spentToday: nat)
    requires peer.first.Demand? && Fetch(c, o, peer, spentToday).Spends()
    ensures var q := peer.first.requirements.quote;
            var proof, payer := ChooseSettlement(o, FillIn(peer.first.requirements)), NormalizeCommitment(o.payer);
            && proof.Some? && payer.Some? && peer.commit(q.quoteId, payer.value).Some?
            && var m := Sent(q.quoteId, payer.value, peer.commit(q.quoteId, payer.value).value, proof.value);
               && peer.finalize(m).Some? && peer.receipt(m, peer.finalize(m).value.receiptId).Some?
               && Accepted(c, o, q, m, peer.finalize(m).value, peer.receipt(m, peer.finalize(m).value.receiptId).value,
                           peer.deliver(m), Fetch(c, o, peer, spentToday))
  {
    var proof := FetchCommits(c, o, peer, spentToday);
    var m := CommitFinalizes(c, o, peer, peer.first.requirements.quote, proof);
    FinalizePays(c, o, peer, peer.first.requirements.quote, m);
    FinalizeAccepts(c, o, peer, peer.first.requirements.quote, m);
  }

  /** What is in the place of a receipt in the body cannot be read as one. */
  predicate Unreadable(response: Response) {
    && 200 <= response.status <= 299 && response.header.None? && response.body.JObject?
    && match Field(response.body.fields, "receipt")
       case Some(JObject(_)) => true
       case _ => false
  }

  /** Everything the buyer asks of the receipt it fetched and of the response. */
  ghost predicate Acceptable(c: Crypto, o: Buying, q: Quote, m: Sent, f: FinalizeReply, fetched: SignedReceipt,
                             response: Response) {
    && ForQuote(c, fetched, q, m.proof) && ForCommit(fetched, q, m.commitId, m.payer)
    && (ForRequest(c, o, fetched) || ForFinalize(c, fetched, m.commitId, m.proof, f))
    && !Unreadable(response)
    && match Travelling(response)
       case Some(r) =>
         && ForQuote(c, r, q, m.proof) && ForCommit(r, q, m.commitId, m.payer)
         && ForRequest(c, o, r) && ForResponse(c, r, response)
       case None => 200 <= response.status <= 299 && ForRequest(c, o, fetched) ==> ForResponse(c, fetched, response)
  }

  /** After the commit, the call is paid if and only if it is answered and the answers are acceptable. */
  lemma PaidExactly(c: Crypto, o: Buying, peer: Peer, q: Quote, m: Sent)
    requires m.quoteId == q.quoteId
    ensures Finalize(c, o, peer, q, m).Paid? <==>
            && peer.finalize(m).Some? && peer.receipt(m, peer.finalize(m).value.receiptId).Some?
            && Acceptable(c, o, q, m, peer.finalize(m).value, peer.receipt(m, peer.finalize(m).value.receiptId).value,
                          peer.deliver(m))
  {
    if peer.finalize(m).Some? && peer.receipt(m, peer.finalize(m).value.receiptId).Some? {
      var f := peer.finalize(m).value;
      var r := peer.receipt(m, f.receiptId).value;
      IntactExactly(c, r, q, m);
      assert "POST" + "|" + "/finalize" + "|" == "POST|/finalize|";
      if ReceiptIntact(c, r, TermsOf(q, m)) {
        DeliverExactly(c, o, q, m, peer.deliver(m), r);
      }
    }
  }

  lemma IntactExactly(c: Crypto, r: SignedReceipt, q: Quote, m: Sent)
    requires m.quoteId == q.quoteId
    ensures ReceiptIntact(c, r, TermsOf(q, m)) <==> ForQuote(c, r, q, m.proof) && ForCommit(r, q, m.commitId, m.payer)
  {
  }

  lemma DeliverExactly(c: Crypto, o: Buying, q: Quote, m: Sent, response: Response, r: SignedReceipt)
    requires m.quoteId == q.quoteId && ReceiptIntact(c, r, TermsOf(q, m))
    ensures Deliver(c, o, response, r, TermsOf(q, m), m.commitId).Paid? <==>
            && !Unreadable(response)
            && match Travelling(response)
               case Some(e) =>
                 && ForQuote(c, e, q, m.proof) && ForCommit(e, q, m.commitId, m.payer)
                 && ForRequest(c, o, e) && ForResponse(c, e, response)
               case None => 200 <= response.status <= 299 && ForRequest(c, o, r) ==> ForResponse(c, r, response)
  {
    if Travelling(response).Some? {
      IntactExactly(c, Travelling(response).value, q, m);
    }
  }

  // ---- the header flow -------------------------------------------------------------------------------

  /**
   * The header flow, against any peer: the wallet paid a transfer for the demanded quote, and the
   * receipt that travels with the response, if any, is genuine, states the demanded terms, and is
   * for this very request and this very response.
   */
  lemma PaidByHeaderOnly(c: Crypto, o: Buying, peer: Peer, spentToday: nat)
    requires peer.first.HeaderDemand? && Fetch(c, o, peer, spentToday).Spends()
    ensures var q, out := peer.first.quote.(settlement := [Transfer]), Fetch(c, o, peer, spentToday);
            var proof := o.wallet.payTransfer(q);
            && out.PaidByHeader? && out.total == q.total && out.response == peer.retry(proof)
            && match Travelling(out.response)
               case Some(r) =>
                 && out.kept == [r] && ForQuote(c, r, q, proof)
                 && ForRequest(c, o, r) && ForResponse(c, r, out.response)
               case None => out.kept == []
  {
  }
}
