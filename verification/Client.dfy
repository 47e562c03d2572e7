/** The buyer's side of the handshake (x402/src/client.ts), which rechecks all it is told. */
module Client {
  import opened Common
  import opened Types
  import opened Receipts

  // ---- what the buyer brings and what it is told ---------------------------------------------

  datatype Wallet = Wallet(
    payTransfer: Quote -> PaymentProof,
    payStream: Option<Quote -> PaymentProof>,
    payNetted: Option<Quote -> PaymentProof>)

  /** Each way to pay gives a proof of its own kind. */
  ghost predicate Honest(w: Wallet) {
    && (forall q :: w.payTransfer(q).Mode() == Transfer)
    && (w.payStream.Some? ==> forall q :: w.payStream.value(q).Mode() == Stream)
    && (w.payNetted.Some? ==> forall q :: w.payNetted.value(q).Mode() == Netting)
  }

  datatype Buying = Buying(
    verb: string, path: string, body: Option<Json>, payer: string, wallet: Wallet,
    maxSpend: nat, maxPrice: Option<nat>, maxPerDay: Option<nat>, preferStream: bool, preferNetting: bool)

  datatype Requirements = Requirements(quote: Quote, accepts: seq<Settlement>, recommended: Option<Settlement>)

  /** `header` is the decoded receipt header, if there is one. */
  datatype Response = Response(status: nat, body: Json, header: Option<SignedReceipt>)
  {
    predicate Ok() {
      200 <= status <= 299
    }
  }

  /** A demand for payment in the body, or one in the headers alone, of which only a quote can be inferred. */
  datatype First = Plain(response: Response) | Demand(requirements: Requirements) | HeaderDemand(quote: Quote)

  datatype FinalizeReply = FinalizeReply(status: nat, receiptId: nat, body: Json)

  /** All that the buyer has sent by the time it finalizes. */
  datatype Sent = Sent(quoteId: nat, payer: string, commitId: nat, proof: PaymentProof)

  /** Whoever answers, as a function of what it was sent so far; None is an error status. */
  datatype Peer = Peer(
    first: First,
    commit: (nat, string) -> Option<nat>,
    finalize: Sent -> Option<FinalizeReply>,
    receipt: (Sent, nat) -> Option<SignedReceipt>,
    deliver: Sent -> Response,
    retry: PaymentProof -> Response)

  // ---- choosing how to pay -------------------------------------------------------------------------

  /** Missing fields are filled in from the quote, and only those. */
  function FillIn(r: Requirements): (f: Requirements)
    ensures f.quote == r.quote && f.recommended.Some?
    ensures forall m :: m in f.accepts <==> m in r.accepts || (r.accepts == [] && m in r.quote.settlement)
    ensures r.recommended.Some? ==> f.recommended == r.recommended
    ensures r.recommended.None? && r.quote.settlement != [] ==> f.recommended == Some(r.quote.settlement[0])
  {
    var accepts := if r.accepts == [] then r.quote.settlement else r.accepts;
    var mode := if r.recommended.Some? then r.recommended.value
                else if r.quote.settlement != [] then r.quote.settlement[0] else Transfer;
    Requirements(r.quote, accepts, Some(mode))
  }

  /** Headers offer transfers only. */
  function Inferred(q: Quote): Requirements {
    Requirements(q.(settlement := [Transfer]), [Transfer], Some(Transfer))
  }

  predicate Offered(r: Requirements, m: Settlement) {
    m in r.quote.settlement && m in r.accepts
  }

  predicate CanPay(w: Wallet, r: Requirements, m: Settlement) {
    && Offered(r, m)
    && (m == Stream ==> w.payStream.Some?)
    && (m == Netting ==> w.payNetted.Some?)
  }

  function Pay(w: Wallet, q: Quote, m: Settlement): PaymentProof
    requires m == Stream ==> w.payStream.Some?
    requires m == Netting ==> w.payNetted.Some?
  {
    match m
    case Transfer => w.payTransfer(q)
    case Stream => w.payStream.value(q)
    case Netting => w.payNetted.value(q)
  }

  function ChooseSettlement(o: Buying, r: Requirements): Option<PaymentProof> {
    var stream, netting := CanPay(o.wallet, r, Stream), CanPay(o.wallet, r, Netting);
    if stream && (o.preferStream || r.recommended == Some(Stream)) then Some(Pay(o.wallet, r.quote, Stream))
    else if netting && (r.recommended == Some(Netting) || o.preferNetting) then Some(Pay(o.wallet, r.quote, Netting))
    else if CanPay(o.wallet, r, Transfer) then Some(Pay(o.wallet, r.quote, Transfer))
    else if stream then Some(Pay(o.wallet, r.quote, Stream))
    else if netting then Some(Pay(o.wallet, r.quote, Netting))
    else None
  }

  /** An honest wallet pays in a mode that was offered, whenever there is one it can pay in. */
  lemma ChoiceIsOffered(o: Buying, r: Requirements)
    requires Honest(o.wallet)
    ensures ChooseSettlement(o, r).Some? <==> exists m :: CanPay(o.wallet, r, m)
    ensures ChooseSettlement(o, r).Some? ==> CanPay(o.wallet, r, ChooseSettlement(o, r).value.Mode())
  {
  }

  /**
   * Which mode wins: streams if preferred or recommended, else netting if preferred or
   * recommended, else transfers, and only then a stream or netting that nobody asked for. The
   * proof is the wallet's for the quote itself.
   */
  lemma ChoosesExactly(o: Buying, r: Requirements)
    requires Honest(o.wallet) && ChooseSettlement(o, r).Some?
    ensures var w, q, proof := o.wallet, r.quote, ChooseSettlement(o, r).value;
            var stream := w.payStream.Some? && Stream in q.settlement && Stream in r.accepts;
            var netting := w.payNetted.Some? && Netting in q.settlement && Netting in r.accepts;
            var transfer := Transfer in q.settlement && Transfer in r.accepts;
            var streamAsked := stream && (o.preferStream || r.recommended == Some(Stream));
            var nettingAsked := netting && (o.preferNetting || r.recommended == Some(Netting));
            && (proof.StreamProof? <==> streamAsked || (stream && !nettingAsked && !transfer))
            && (proof.NettingProof? <==> !streamAsked && (nettingAsked || (netting && !transfer && !stream)))
            && (proof.TransferProof? <==> transfer && !streamAsked && !nettingAsked)
            && (proof.StreamProof? ==> proof == w.payStream.value(q))
            && (proof.NettingProof? ==> proof == w.payNetted.value(q))
            && (proof.TransferProof? ==> proof == w.payTransfer(q))
  {
    var w, q := o.wallet, r.quote;
    assert w.payTransfer(q).Mode() == Transfer;
    assert w.payStream.Some? ==> w.payStream.value(q).Mode() == Stream;
    assert w.payNetted.Some? ==> w.payNetted.value(q).Mode() == Netting;
  }

  // ---- checking receipts -----------------------------------------------------------------------------

  /** Quote, commit and payer are not known when the demand came in the headers. */
  datatype Terms = Terms(
    quoteId: Option<nat>, commitId: Option<nat>, payer: Option<string>,
    recipient: string, mint: string, total: nat, settlement: Settlement)

  predicate NamesItsPayment(p: ReceiptPayload) {
    (p.settlement == Transfer ==> Present(p.txSignature)) && (p.settlement == Stream ==> Present(p.streamId))
  }

  predicate ReceiptIntact(c: Crypto, r: SignedReceipt, x: Terms) {
    && VerifySignedReceipt(c, r)
    && (x.quoteId.Some? ==> r.payload.quoteId == x.quoteId.value)
    && (x.commitId.Some? ==> r.payload.commitId == Stored(x.commitId.value))
    && (x.payer.Some? ==> r.payload.payer == x.payer.value)
    && r.payload.recipient == x.recipient && r.payload.mint == x.mint && r.payload.total == x.total
    && r.payload.settlement == x.settlement && NamesItsPayment(r.payload)
  }

  function Drop(fields: seq<(string, Json)>, name: string): seq<(string, Json)> {
    if fields == [] then []
    else Drop(fields[..|fields| - 1], name) + if fields[|fields| - 1].0 == name then [] else [fields[|fields| - 1]]
  }

  function Field(fields: seq<(string, Json)>, name: string): Option<Json> {
    if fields == [] then None
    else if fields[|fields| - 1].0 == name then Some(fields[|fields| - 1].1)
    else Field(fields[..|fields| - 1], name)
  }

  /** The body without the receipt that travels in it. */
  function BusinessBody(body: Json): Json {
    if body.JObject? then JObject(Drop(body.fields, "receipt")) else body
  }

  /** The receipt is intact, and was issued for this very request and this very response. */
  predicate Binds(c: Crypto, o: Buying, r: SignedReceipt, x: Terms, response: Response) {
    && ReceiptIntact(c, r, x)
    && r.payload.requestDigest == RequestDigest(c, o.verb, o.path, o.body)
    && r.payload.responseDigest == ResponseDigest(c, response.status, Some(BusinessBody(response.body)))
  }

  datatype Carried = Absent | Forged | Genuine(receipt: SignedReceipt)

  /** The receipt that came with the response: in its header, or else in its body. */
  function CarriedReceipt(c: Crypto, o: Buying, response: Response, x: Terms): Carried {
    if !response.Ok() then Absent
    else if response.header.Some? then Checked(c, o, response.header.value, x, response)
    else if !response.body.JObject? then Absent
    else
      match Field(response.body.fields, "receipt")
      case Some(JReceipt(r)) => Checked(c, o, r, x, response)
      case Some(JObject(_)) => Forged
      case _ => Absent
  }

  function Checked(c: Crypto, o: Buying, r: SignedReceipt, x: Terms, response: Response): Carried {
    if Binds(c, o, r, x, response) then Genuine(r) else Forged
  }

  /** With no receipt in the response, the stored one has to match it, if it is about this request. */
  predicate DeliveredIntact(c: Crypto, o: Buying, r: SignedReceipt, response: Response) {
    response.Ok() && r.payload.requestDigest == RequestDigest(c, o.verb, o.path, o.body) ==>
      r.payload.responseDigest == ResponseDigest(c, response.status, Some(BusinessBody(response.body)))
  }

  function ProofJson(p: PaymentProof): Json {
    match p
    case TransferProof(sig, hint) =>
      JObject([("settlement", JString("transfer")), ("txSignature", JString(sig))]
              + if hint.Some? then [("amountAtomic", JString(Decimal(hint.value)))] else [])
    case StreamProof(id) => JObject([("settlement", JString("stream")), ("streamId", JString(id))])
    case NettingProof => JObject([("settlement", JString("netting"))])
  }

  function FinalizeBody(commitId: nat, proof: PaymentProof): Json {
    JObject([("commitId", JString(Decimal(commitId))), ("paymentProof", ProofJson(proof))])
  }

  /** The body of a finalize call determines the commit and the proof. */
  lemma FinalizeBodyBinds(a: nat, p: PaymentProof, b: nat, r: PaymentProof)
    ensures FinalizeBody(a, p) == FinalizeBody(b, r) <==> a == b && p == r
  {
    if FinalizeBody(a, p) == FinalizeBody(b, r) {
      var x, y := FinalizeBody(a, p).fields, FinalizeBody(b, r).fields;
      assert x[0] == y[0] && x[1] == y[1];
      DecimalInjective(a, b);
      SameProof(p, r);
    }
  }

  lemma SameProof(p: PaymentProof, r: PaymentProof)
    requires ProofJson(p) == ProofJson(r)
    ensures p == r
  {
    var x, y := ProofJson(p).fields, ProofJson(r).fields;
    assert x[0] == y[0] && |x| == |y|;
    assert !p.NettingProof? ==> x[1] == y[1];
    if p.TransferProof? && p.amountHint.Some? {
      assert x[2] == y[2];
      DecimalInjective(p.amountHint.value, r.amountHint.value);
    }
  }

  /** The fetched receipt is about the request to be paid for, or about the finalize exchange itself. */
  predicate AboutThisCall(c: Crypto, o: Buying, r: SignedReceipt, commitId: nat, proof: PaymentProof,
                          f: FinalizeReply) {
    || r.payload.requestDigest == RequestDigest(c, o.verb, o.path, o.body)
    || (r.payload.requestDigest == RequestDigest(c, "POST", "/finalize", Some(FinalizeBody(commitId, proof)))
        && r.payload.responseDigest == ResponseDigest(c, f.status, Some(f.body)))
  }

  // ---- the whole call ----------------------------------------------------------------------------------

  datatype Failure =
    | OverMaxPrice | OverMaxSpend | OverDailyLimit | NoMode | BadPayer | CommitFailed | FinalizeFailed | ReceiptMissing
    | ReceiptTampered | DigestMismatch | DeliveryTampered

  /** `kept` are the receipts that go to the receipt store, `receipt` the one returned. */
  datatype Outcome =
    | Free(response: Response)
    | Failed(why: Failure)
    | Paid(response: Response, commitId: nat, receipt: SignedReceipt, kept: seq<SignedReceipt>, total: nat)
    | PaidByHeader(response: Response, kept: seq<SignedReceipt>, total: nat)
  {
    /** Receipts are stored and the spend is recorded. */
    predicate Spends() {
      Paid? || PaidByHeader?
    }
  }

  function TermsOf(q: Quote, m: Sent): Terms {
    Terms(Some(q.quoteId), Some(m.commitId), Some(m.payer), q.recipient, q.mint, q.total, m.proof.Mode())
  }

  function HeaderTerms(q: Quote, proof: PaymentProof): Terms {
    Terms(None, None, None, q.recipient, q.mint, q.total, proof.Mode())
  }

  /** What the buyer may spend, checked in the order of the source. */
  function Affordable(o: Buying, total: nat, spentToday: nat): (why: Option<Failure>)
    ensures why.None? <==>
      && total <= o.maxSpend && (o.maxPrice.Some? ==> total <= o.maxPrice.value)
      && (o.maxPerDay.Some? ==> spentToday + total <= o.maxPerDay.value)
  {
    if o.maxPrice.Some? && total > o.maxPrice.value then Some(OverMaxPrice)
    else if total > o.maxSpend then Some(OverMaxSpend)
    else if o.maxPerDay.Some? && spentToday + total > o.maxPerDay.value then Some(OverDailyLimit)
    else None
  }

  function Fetch(c: Crypto, o: Buying, peer: Peer, spentToday: nat): Outcome {
    match peer.first
    case Plain(response) => Free(response)
    case Demand(demand) =>
      var r := FillIn(demand);
      if Affordable(o, r.quote.total, spentToday).Some? then Failed(Affordable(o, r.quote.total, spentToday).value)
      else if ChooseSettlement(o, r).None? then Failed(NoMode)
      else CommitAndPay(c, o, peer, r.quote, ChooseSettlement(o, r).value)
    case HeaderDemand(quote) =>
      var r := Inferred(quote);
      if Affordable(o, r.quote.total, spentToday).Some? then Failed(Affordable(o, r.quote.total, spentToday).value)
      else if ChooseSettlement(o, r).None? then Failed(NoMode)
      else Retry(c, o, peer.retry(ChooseSettlement(o, r).value), r.quote, ChooseSettlement(o, r).value)
  }

  function CommitAndPay(c: Crypto, o: Buying, peer: Peer, q: Quote, proof: PaymentProof): Outcome {
    match NormalizeCommitment(o.payer)
    case None => Failed(BadPayer)
    case Some(payer) =>
      match peer.commit(q.quoteId, payer)
      case None => Failed(CommitFailed)
      case Some(commitId) => Finalize(c, o, peer, q, Sent(q.quoteId, payer, commitId, proof))
  }

  /** The request again, with the proof in a header; a response without any receipt is accepted as it is. */
  function Retry(c: Crypto, o: Buying, response: Response, q: Quote, proof: PaymentProof): Outcome {
    match CarriedReceipt(c, o, response, HeaderTerms(q, proof))
    case Forged => Failed(DeliveryTampered)
    case Absent => PaidByHeader(response, [], q.total)
    case Genuine(e) => PaidByHeader(response, [e], q.total)
  }

  /** The second half: finalize, check the receipt, and fetch what was paid for. */
  function Finalize(c: Crypto, o: Buying, peer: Peer, q: Quote, m: Sent): Outcome {
    match peer.finalize(m)
    case None => Failed(FinalizeFailed)
    case Some(f) =>
      match peer.receipt(m, f.receiptId)
      case None => Failed(ReceiptMissing)
      case Some(r) =>
        if !ReceiptIntact(c, r, TermsOf(q, m)) then Failed(ReceiptTampered)
        else if !AboutThisCall(c, o, r, m.commitId, m.proof, f) then Failed(DigestMismatch)
        else Deliver(c, o, peer.deliver(m), r, TermsOf(q, m), m.commitId)
  }

  function Deliver(c: Crypto, o: Buying, response: Response, r: SignedReceipt, x: Terms, commitId: nat): Outcome {
    match CarriedReceipt(c, o, response, x)
    case Forged => Failed(DeliveryTampered)
    case Absent =>
      if DeliveredIntact(c, o, r, response) then Paid(response, commitId, r, [r], x.total)
      else Failed(DeliveryTampered)
    case Genuine(e) =>
      Paid(response, commitId, e, if e.payload.receiptId != r.payload.receiptId then [r, e] else [r], x.total)
  }

  // ---- what acceptance means ---------------------------------------------------------------------------

  /** The terms under which an accepted call was paid. */
  ghost predicate PaidUnder(c: Crypto, o: Buying, peer: Peer, x: Terms) {
    match peer.first
    case Plain(_) => false
    case HeaderDemand(quote) =>
      ChooseSettlement(o, Inferred(quote)).Some? && x == HeaderTerms(quote, ChooseSettlement(o, Inferred(quote)).value)
    case Demand(demand) =>
      var r := FillIn(demand);
      && ChooseSettlement(o, r).Some? && NormalizeCommitment(o.payer).Some?
      && var payer := NormalizeCommitment(o.payer).value;
         && peer.commit(r.quote.quoteId, payer).Some?
         && x == TermsOf(r.quote, Sent(r.quote.quoteId, payer, peer.commit(r.quote.quoteId, payer).value,
                                       ChooseSettlement(o, r).value))
  }

  /** The receipt that an accepted call returns. */
  function Returned(out: Outcome): Option<SignedReceipt> {
    if out.Paid? then Some(out.receipt)
    else if out.PaidByHeader? && out.kept != [] then Some(out.kept[0])
    else None
  }

  /** What an accepted outcome promises under terms `x`. */
  ghost predicate Vouched(c: Crypto, o: Buying, out: Outcome, x: Terms) {
    && out.Spends() && out.total == x.total
    && (forall r :: r in out.kept ==> ReceiptIntact(c, r, x))
    && (Returned(out).Some? ==>
          && ReceiptIntact(c, Returned(out).value, x)
          && (out.response.Ok() &&
              Returned(out).value.payload.requestDigest == RequestDigest(c, o.verb, o.path, o.body) ==>
                Returned(out).value.payload.responseDigest ==
                  ResponseDigest(c, out.response.status, Some(BusinessBody(out.response.body)))))
  }

  lemma DeliverVouched(c: Crypto, o: Buying, response: Response, r: SignedReceipt, x: Terms, commitId: nat)
    requires ReceiptIntact(c, r, x) && Deliver(c, o, response, r, x, commitId).Paid?
    ensures var out := Deliver(c, o, response, r, x, commitId);
            Vouched(c, o, out, x) && out.response == response && out.commitId == commitId
  {
  }

  lemma RetryVouched(c: Crypto, o: Buying, response: Response, q: Quote, proof: PaymentProof)
    requires Retry(c, o, response, q, proof).PaidByHeader?
    ensures Vouched(c, o, Retry(c, o, response, q, proof), HeaderTerms(q, proof))
  {
  }

  /**
   * Against any peer, in either flow: what the buyer pays is within its limits, and every
   * receipt it keeps or returns verifies and states exactly the quoted terms, and its own commit
   * and payer where it made a commit.
   */
  lemma PaidMeansChecked(c: Crypto, o: Buying, peer: Peer, spentToday: nat) returns (x: Terms)
    requires Fetch(c, o, peer, spentToday).Spends()
    ensures PaidUnder(c, o, peer, x) && Vouched(c, o, Fetch(c, o, peer, spentToday), x)
    ensures x.total <= o.maxSpend && (o.maxPrice.Some? ==> x.total <= o.maxPrice.value)
    ensures o.maxPerDay.Some? ==> spentToday + x.total <= o.maxPerDay.value
    ensures Fetch(c, o, peer, spentToday).Paid? ==> x.commitId == Some(Fetch(c, o, peer, spentToday).commitId)
  {
    if peer.first.HeaderDemand? {
      var r := Inferred(peer.first.quote);
      var proof := ChooseSettlement(o, r).value;
      x := HeaderTerms(r.quote, proof);
      RetryVouched(c, o, peer.retry(proof), r.quote, proof);
    } else {
      var r := FillIn(peer.first.requirements);
      var proof, payer := ChooseSettlement(o, r).value, NormalizeCommitment(o.payer).value;
      var commitId := peer.commit(r.quote.quoteId, payer).value;
      var m := Sent(r.quote.quoteId, payer, commitId, proof);
      x := TermsOf(r.quote, m);
      DeliverVouched(c, o, peer.deliver(m), peer.receipt(m, peer.finalize(m).value.receiptId).value, x, commitId);
    }
  }

  /**
   * Against any peer, in either flow: if the returned receipt is for this request and promises
   * status `status` and body `b`, then that is what was delivered, or two texts with one hash
   * are at hand.
   */
  lemma DeliveredAsPromised(c: Crypto, o: Buying, peer: Peer, spentToday: nat, status: nat, b: Json)
    requires forall x: Json, y: Json :: c.json(x) == c.json(y) ==> x == y
    requires var out := Fetch(c, o, peer, spentToday);
             && out.Spends() && out.response.Ok() && Returned(out).Some?
             && Returned(out).value.payload.requestDigest == RequestDigest(c, o.verb, o.path, o.body)
             && Returned(out).value.payload.responseDigest == ResponseDigest(c, status, Some(b))
    ensures var out := Fetch(c, o, peer, spentToday);
            || (out.response.status == status && BusinessBody(out.response.body) == b)
            || Collides(c.hash, ResponseText(c, out.response.status, Some(BusinessBody(out.response.body))),
                        ResponseText(c, status, Some(b)))
  {
    var x := PaidMeansChecked(c, o, peer, spentToday);
    var out := Fetch(c, o, peer, spentToday);
    ResponseDigestBinds(c, out.response.status, BusinessBody(out.response.body), status, b);
  }

  /**
   * A response without a receipt is compared with the fetched receipt only if that receipt is
   * about this request; one about the finalize exchange lets every such body through.
   */
  lemma BareDelivery(c: Crypto, o: Buying, response: Response, r: SignedReceipt, x: Terms, commitId: nat)
    requires response.Ok() && CarriedReceipt(c, o, response, x).Absent?
    ensures Deliver(c, o, response, r, x, commitId).Paid? <==>
            || r.payload.requestDigest != RequestDigest(c, o.verb, o.path, o.body)
            || r.payload.responseDigest == ResponseDigest(c, response.status, Some(BusinessBody(response.body)))
  {
  }

  /** In the header flow a response without a receipt, an error too, counts as paid. */
  lemma BareRetry(c: Crypto, o: Buying, response: Response, q: Quote, proof: PaymentProof)
    requires CarriedReceipt(c, o, response, HeaderTerms(q, proof)).Absent?
    ensures Retry(c, o, response, q, proof) == PaidByHeader(response, [], q.total)
    ensures !response.Ok() ==> CarriedReceipt(c, o, response, HeaderTerms(q, proof)).Absent?
  {
  }

  /** A receipt put into a body that has none is found there, and taking it out gives the body back. */
  lemma {:induction false} EmbedThenExtract(fields: seq<(string, Json)>, j: Json)
    requires forall i :: 0 <= i < |fields| ==> fields[i].0 != "receipt"
    ensures Field(fields + [("receipt", j)], "receipt") == Some(j)
    ensures Drop(fields + [("receipt", j)], "receipt") == fields
  {
    assert (fields + [("receipt", j)])[..|fields|] == fields;
    DropNone(fields, "receipt");
  }

  lemma {:induction false} DropNone(fields: seq<(string, Json)>, name: string)
    requires forall i :: 0 <= i < |fields| ==> fields[i].0 != name
    ensures Drop(fields, name) == fields
  {
    if fields != [] {
      DropNone(fields[..|fields| - 1], name);
    }
  }

  // ---- the buyer's own books ----------------------------------------------------------------------------

  function SpentOn(spent: map<nat, nat>, day: nat): nat {
    if day in spent then spent[day] else 0
  }

  /** Spends are recorded only under a daily limit. */
  function SpentAfter(o: Buying, spent: map<nat, nat>, day: nat, total: nat): map<nat, nat> {
    if o.maxPerDay.None? then spent else spent[day := SpentOn(spent, day) + total]
  }

  /**
   * A spend that was within the limit of `day` and is recorded under `later`: the limit of
   * that date is kept exactly if it is the same date, or has room for the spend.
   */
  lemma RecordedLater(o: Buying, spent: map<nat, nat>, day: nat, later: nat, total: nat)
    requires o.maxPerDay.Some? && Affordable(o, total, SpentOn(spent, day)).None?
    ensures SpentOn(SpentAfter(o, spent, later, total), later) <= o.maxPerDay.value <==>
            later == day || SpentOn(spent, later) + total <= o.maxPerDay.value
  {
  }

  /** A call that begins on day 0 and ends on day 1, where 8 of 10 are spent already, takes day 1 to 13. */
  lemma MidnightPassesLimit(o: Buying)
    requires o.maxPerDay == Some(10) && o.maxSpend >= 5 && o.maxPrice.None?
    ensures var spent: map<nat, nat> := map[1 := 8];
            Affordable(o, 5, SpentOn(spent, 0)).None? && SpentOn(SpentAfter(o, spent, 1, 5), 1) == 13
  {
  }

  function SaveAll(receipts: map<nat, SignedReceipt>, kept: seq<SignedReceipt>): map<nat, SignedReceipt> {
    if kept == [] then receipts
    else SaveAll(receipts, kept[..|kept| - 1])[kept[|kept| - 1].payload.receiptId := kept[|kept| - 1]]
  }

  /** A spend tracker and a receipt store. */
  class Buyer {
    const crypto: Crypto
    var spent: map<nat, nat>
    var receipts: map<nat, SignedReceipt>

    constructor (crypto: Crypto)
      ensures this.crypto == crypto && spent == map[] && receipts == map[]
    {
      this.crypto := crypto;
      spent, receipts := map[], map[];
    }

    /**
     * `day` is the date when the limit is checked and `later` the date when the spend is
     * recorded; the limit of that date is kept exactly if it is the same or still has room.
     */
    method FetchWith402(o: Buying, peer: Peer, day: nat, later: nat) returns (out: Outcome)
      modifies this
      ensures out == Fetch(crypto, o, peer, SpentOn(old(spent), day))
      ensures !out.Spends() ==> spent == old(spent) && receipts == old(receipts)
      ensures out.Spends() ==> receipts == SaveAll(old(receipts), out.kept)
      ensures out.Spends() ==> spent == SpentAfter(o, old(spent), later, out.total)
      ensures out.Spends() && o.maxPerDay.Some? ==>
        (SpentOn(spent, later) <= o.maxPerDay.value <==>
         later == day || SpentOn(old(spent), later) + out.total <= o.maxPerDay.value)
    {
      if peer.first.Plain? {
        return Free(peer.first.response);
      }
      var headerFlow := peer.first.HeaderDemand?;
      var r := if headerFlow then Inferred(peer.first.quote) else FillIn(peer.first.requirements);
      var refusal := Affordable(o, r.quote.total, SpentOn(spent, day));
      if refusal.Some? {
        return Failed(refusal.value);
      }
      var proof := ChooseSettlement(o, r);
      if proof.None? {
        return Failed(NoMode);
      }
      if headerFlow {
        out := RetryWithHeader(o, peer.retry(proof.value), r.quote, proof.value);
      } else {
        out := CommitAndFinalize(o, peer, r.quote, proof.value);
      }
      if out.Spends() {
        Settle(o, out, later);
      }
    }

    /** Sends the request again with the proof in a header, and checks the receipt that comes back, if any. */
    method RetryWithHeader(o: Buying, response: Response, q: Quote, proof: PaymentProof) returns (out: Outcome)
      ensures out == Retry(crypto, o, response, q, proof)
      ensures out.Spends() ==> out.total == q.total
    {
      var carried := CarriedReceipt(crypto, o, response, HeaderTerms(q, proof));
      if carried.Forged? {
        return Failed(DeliveryTampered);
      }
      out := PaidByHeader(response, if carried.Genuine? then [carried.receipt] else [], q.total);
    }

    method CommitAndFinalize(o: Buying, peer: Peer, q: Quote, proof: PaymentProof) returns (out: Outcome)
      ensures out == CommitAndPay(crypto, o, peer, q, proof)
      ensures out.Spends() ==> out.total == q.total
    {
      var payer := NormalizeCommitment(o.payer);
      if payer.None? {
        return Failed(BadPayer);
      }
      var commitId := peer.commit(q.quoteId, payer.value);
      if commitId.None? {
        return Failed(CommitFailed);
      }
      out := FinalizeAndFetch(o, peer, q, Sent(q.quoteId, payer.value, commitId.value, proof));
    }

    /** Stores the receipts and, if there is a daily limit, records the spend. */
    method Settle(o: Buying, paid: Outcome, later: nat)
      requires paid.Spends()
      modifies this
      ensures receipts == SaveAll(old(receipts), paid.kept)
      ensures spent == SpentAfter(o, old(spent), later, paid.total)
    {
      SaveKept(paid.kept);
      if o.maxPerDay.Some? {
        spent := spent[later := SpentOn(spent, later) + paid.total];
      }
    }

    /** Finalizes, checks the receipt, fetches what was paid for, and checks that. */
    method FinalizeAndFetch(o: Buying, peer: Peer, q: Quote, m: Sent) returns (out: Outcome)
      ensures out == Finalize(crypto, o, peer, q, m)
      ensures out.Spends() ==> out.total == q.total
    {
      var f := peer.finalize(m);
      if f.None? {
        return Failed(FinalizeFailed);
      }
      var receipt := peer.receipt(m, f.value.receiptId);
      if receipt.None? {
        return Failed(ReceiptMissing);
      }
      var x := TermsOf(q, m);
      if !ReceiptIntact(crypto, receipt.value, x) {
        return Failed(ReceiptTampered);
      }
      if !AboutThisCall(crypto, o, receipt.value, m.commitId, m.proof, f.value) {
        return Failed(DigestMismatch);
      }
      out := CheckDelivery(o, peer.deliver(m), receipt.value, x, m.commitId);
    }

    method CheckDelivery(o: Buying, response: Response, receipt: SignedReceipt, x: Terms, commitId: nat)
      returns (out: Outcome)
      ensures out == Deliver(crypto, o, response, receipt, x, commitId)
    {
      var carried := CarriedReceipt(crypto, o, response, x);
      if carried.Forged? || (carried.Absent? && !DeliveredIntact(crypto, o, receipt, response)) {
        return Failed(DeliveryTampered);
      }
      var kept := [receipt];
      if carried.Genuine? && carried.receipt.payload.receiptId != receipt.payload.receiptId {
        kept := kept + [carried.receipt];
      }
      out := Paid(response, commitId, if carried.Genuine? then carried.receipt else receipt, kept, x.total);
    }

    method SaveKept(kept: seq<SignedReceipt>)
      modifies this`receipts
      ensures receipts == SaveAll(old(receipts), kept)
    {
      for i := 0 to |kept|
        invariant receipts == SaveAll(old(receipts), kept[..i])
      {
        assert kept[..i + 1][..i] == kept[..i];
        receipts := receipts[kept[i].payload.receiptId := kept[i]];
      }
      assert kept[..|kept|] == kept;
    }
  }
}
