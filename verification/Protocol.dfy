/**
 * The paid-call protocol as a state machine (x402/src/server.ts). Node runs a handler
 * without interruption from one `await` to the next, so a step is one such segment and a
 * request is a thread that waits at an `await`. Any number of requests interleave.
 */
module Protocol {
  import opened Common
  import opened Types
  import opened Receipts
  import RS = ReplayStore
  import N = Netting

  const SHOP := "dnp-core"
  const DAY_MS: nat := 86_400_000

  /** A transaction and a daily spending cap; the real-chain drill and the public beta have one each. */
  datatype CapPolicy = CapPolicy(enabled: bool, maxTx: nat, daily: nat)

  datatype Usage = Usage(day: Option<nat>, finalized: nat)

  datatype Config = Config(
    crypto: Crypto, quoteTtlMs: nat, replayTtlMs: nat, nettingEnabled: bool, mint: string, recipient: string,
    drill: CapPolicy, beta: CapPolicy, netting: N.Options)

  datatype Status = Pending | Finalized | Failed

  datatype Commit = Commit(
    quoteId: nat, payer: string, createdAt: nat, status: Status,
    mode: Option<Settlement>, receiptId: Option<nat>, consumedAt: Option<nat>)

  /** A direct-split line whose transfer has been verified. */
  datatype SplitLine = SplitLine(requirement: SplitRequirement, proof: PaymentProof, v: Verification)

  datatype Reply =
    | Refused(status: nat)
    | Dropped
    | Quoted(quoteId: nat)
    | Committed(commitId: nat)
    | FinalizeOk(commitId: nat, receiptId: nat)
    | Served(commit: CommitRef, receiptId: nat)
    | ServeFailed(commitId: nat, receiptId: nat, restored: bool)

  /** Where a request waits. A promised boolean that has been computed is carried along. */
  datatype Thread =
    | AwaitVerify(c: nat, proof: PaymentProof)
    | AwaitGlobal(c: nat, proof: PaymentProof, v: Verification, granted: bool)
    | AwaitScoped(c: nat, proof: PaymentProof, v: Verification, granted: bool)
    | SplitVerify(c: nat, proofs: map<string, PaymentProof>, lines: seq<SplitLine>)
    | SplitCheck(c: nat, lines: seq<SplitLine>, j: nat, scoped: bool, claimed: bool)
    | SplitClaim(c: nat, lines: seq<SplitLine>, j: nat, scoped: bool, granted: bool)
    | SplitReturn(c: nat, lines: seq<SplitLine>)
    | AwaitLedger(c: nat, receiptId: nat, mode: Settlement)
    | CompatVerify(q: nat, url: string, txSig: Option<string>, blob: string)
    | CompatGlobal(q: nat, url: string, txSig: Option<string>, v: Verification, granted: bool)
    | CompatScoped(q: nat, url: string, txSig: Option<string>, v: Verification, granted: bool)
    | CompatCanonical(q: nat, url: string, txSig: Option<string>, v: Verification, granted: bool)
    | Delivering(c: nat, receiptId: nat)
    | Done(reply: Reply)

  /** A stored receipt and the request that issued it. */
  datatype Issued = Issued(signed: SignedReceipt, issuer: nat)

  /** `grants`, `signed`, `charges`, `blocked` and `batches` are histories: no step reads them. */
  datatype State = State(
    clock: nat, quotes: seq<Quote>, memoIndex: map<string, nat>, commits: seq<Commit>, receipts: seq<Issued>,
    seen: RS.Seen, drill: Usage, beta: Usage, ledger: N.Ledger, prevHash: string, threads: seq<Thread>,
    grants: seq<RS.Grant>, signed: seq<SignedReceipt>,
    charges: seq<N.Charge>, blocked: seq<N.Charge>, batches: seq<N.Batch>)

  function Init(start: nat): State {
    State(start, [], map[], [], [], map[], Usage(None, 0), Usage(None, 0), N.EMPTY, GENESIS, [], [], [], [], [], [])
  }

  // ---- caps ------------------------------------------------------------------------------

  function Rolled(u: Usage, now: nat): Usage {
    if u.day == Some(now / DAY_MS) then u else Usage(Some(now / DAY_MS), 0)
  }

  predicate DrillAmountAllowed(p: CapPolicy, amount: nat) {
    p.enabled ==> amount <= p.maxTx && amount <= p.daily
  }

  predicate BetaAmountAllowed(p: CapPolicy, amount: nat) {
    p.enabled ==> amount <= p.maxTx
  }

  predicate DailyAllowed(p: CapPolicy, u: Usage, amount: nat, now: nat) {
    p.enabled ==> Rolled(u, now).finalized + amount <= p.daily
  }

  /** Checking the daily cap rolls the counter over, whatever the verdict. */
  function UsageAfterCheck(p: CapPolicy, u: Usage, now: nat): Usage {
    if p.enabled then Rolled(u, now) else u
  }

  function UsageAfterRecord(p: CapPolicy, u: Usage, amount: nat, now: nat): Usage {
    if p.enabled then Rolled(u, now).(finalized := Rolled(u, now).finalized + amount) else u
  }

  // ---- replay keys -------------------------------------------------------------------------

  function GlobalKey(mode: string, id: string): RS.ReplayKey {
    RS.ReplayKey(SHOP, mode + ":" + id, RS.Star, RS.Star, RS.Star)
  }

  function ScopedKey(txSig: string, amount: nat, recipient: string, mint: string): RS.ReplayKey {
    RS.ReplayKey(SHOP, txSig, RS.Atomic(amount), RS.Text(recipient), RS.Text(mint))
  }

  /** The key of the on-chain payment that a verified single proof names. */
  function PaymentKey(proof: PaymentProof, v: Verification): RS.ReplayKey
    requires proof.TransferProof? ==> v.txSignature.Some?
    requires proof.StreamProof? ==> v.streamId.Some?
    requires !proof.NettingProof?
  {
    if proof.TransferProof? then GlobalKey("transfer", v.txSignature.value) else GlobalKey("stream", v.streamId.value)
  }

  function PaymentScopedKey(q: Quote, proof: PaymentProof, v: Verification): RS.ReplayKey
    requires proof.TransferProof? ==> v.txSignature.Some?
    requires proof.StreamProof? ==> v.streamId.Some?
    requires !proof.NettingProof?
  {
    ScopedKey(if proof.TransferProof? then v.txSignature.value else "stream:" + v.streamId.value,
              q.total, q.recipient, q.mint)
  }

  predicate Verified(line: SplitLine) {
    Present(line.v.txSignature)
  }

  function LineKey(line: SplitLine): RS.ReplayKey
    requires Verified(line)
  {
    GlobalKey("transfer", line.v.txSignature.value)
  }

  function LineScopedKey(mint: string, line: SplitLine): RS.ReplayKey
    requires Verified(line)
  {
    ScopedKey(line.v.txSignature.value, line.requirement.amount, line.requirement.recipient, mint)
  }

  predicate Free(s: State, key: RS.ReplayKey) {
    !RS.Claimed(s.seen, key, s.clock)
  }

  function Spawn(s: State, t: Thread): State {
    s.(threads := s.threads + [t])
  }

  predicate Known(s: State, c: nat) {
    c < |s.commits| && s.commits[c].quoteId < |s.quotes|
  }

  function QuoteOf(s: State, c: nat): Quote
    requires Known(s, c)
  {
    s.quotes[s.commits[c].quoteId]
  }

  // ---- quotes and commits ----------------------------------------------------------------------

  /** Prices come from tables and fee policies outside the protocol; lines to split on are part of a waterfall. */
  datatype Price = Price(amount: nat, fee: nat, split: seq<SplitRequirement>, waterfall: bool)

  function NewQuote(cfg: Config, s: State, resource: string, p: Price): Quote {
    var id, total, expires := |s.quotes|, p.amount + p.fee, s.clock + cfg.quoteTtlMs;
    Quote(id, resource, p.amount, p.fee, total, cfg.mint, cfg.recipient, expires,
          if cfg.nettingEnabled then [Transfer, Stream, Netting] else [Transfer, Stream],
          cfg.crypto.hash(Decimal(id) + ":" + resource + ":" + Decimal(total) + ":" + Decimal(expires)),
          if p.waterfall then p.split else [], p.waterfall)
  }

  function IssueQuote(cfg: Config, s: State, resource: string, p: Price): State {
    var q := NewQuote(cfg, s, resource, p);
    s.(quotes := s.quotes + [q], memoIndex := s.memoIndex[q.memoHash := q.quoteId])
  }

  predicate Expired(q: Quote, now: nat) {
    now >= q.expiresAt
  }

  function DoCommit(s: State, quoteId: nat, payer: string): State {
    if quoteId >= |s.quotes| then Spawn(s, Done(Refused(404)))
    else if Expired(s.quotes[quoteId], s.clock) then Spawn(s, Done(Refused(410)))
    else
      match NormalizeCommitment(payer)
      case None => Spawn(s, Done(Refused(400)))
      case Some(p) =>
        Spawn(s.(commits := s.commits + [Commit(quoteId, p, s.clock, Pending, None, None, None)]),
              Done(Committed(|s.commits|)))
  }

  // ---- receipts ----------------------------------------------------------------------------------

  function FulfilledBody(resource: string): seq<(string, Json)> {
    if resource == "/inference" then
      [("ok", JBool(true)), ("output", JString("inference result"))]
    else if resource == "/stream-access" then
      [("ok", JBool(true)), ("stream", JObject([("access", JString("granted")), ("mode", JString("realtime"))]))]
    else
      [("ok", JBool(true)), ("data", JString("resource payload"))]
  }

  function FulfilledDigest(c: Crypto, resource: string): string {
    ResponseDigest(c, 200, Some(JObject(FulfilledBody(resource))))
  }

  function SplitProofOf(line: SplitLine): SplitProof
    requires Verified(line)
  {
    SplitProof(line.requirement.feeLineId, line.requirement.kind, line.requirement.recipient,
               line.requirement.amount, line.requirement.token, Transfer, line.v.txSignature.value)
  }

  function SplitProofsOf(lines: seq<SplitLine>): (ps: seq<SplitProof>)
    requires forall i :: 0 <= i < |lines| ==> Verified(lines[i])
    ensures |ps| == |lines|
    ensures forall i :: 0 <= i < |lines| ==> ps[i] == SplitProofOf(lines[i])
  {
    if lines == [] then [] else SplitProofsOf(lines[..|lines| - 1]) + [SplitProofOf(lines[|lines| - 1])]
  }

  function Payload(cfg: Config, s: State, q: Quote, commit: CommitRef, payer: string, url: string,
                   mode: Settlement, v: Verification, splits: Option<seq<SplitProof>>): ReceiptPayload {
    ReceiptPayload(|s.receipts|, q.quoteId, commit, q.resource,
                   RequestDigest(cfg.crypto, "GET", url, None), FulfilledDigest(cfg.crypto, q.resource),
                   payer, q.recipient, q.mint, q.amount, q.fee, q.total, mode,
                   v.settledOnchain, v.txSignature, v.streamId, splits, s.clock)
  }

  /** The guard on immutable records may stop a receipt before or after it is signed. */
  datatype Guard = Pass | BlockBeforeSign | BlockAfterSign

  function FinalizePayload(cfg: Config, s: State, c: nat, mode: Settlement, v: Verification,
                           splits: Option<seq<SplitProof>>): ReceiptPayload
    requires Known(s, c)
  {
    Payload(cfg, s, QuoteOf(s, c), Stored(c), s.commits[c].payer, QuoteOf(s, c).resource, mode, v, splits)
  }

  function ChargeOf(s: State, c: nat): N.Charge
    requires Known(s, c)
  {
    N.Charge(s.commits[c].payer, QuoteOf(s, c).recipient, QuoteOf(s, c).amount, QuoteOf(s, c).fee,
             QuoteOf(s, c).quoteId, c, s.clock, None)
  }

  function Sealed(commit: Commit, receiptId: nat, mode: Settlement): Commit {
    commit.(status := Finalized, mode := Some(mode), receiptId := Some(receiptId))
  }

  function Record(cfg: Config, p: CapPolicy, u: Usage, q: Quote, now: nat, guard: Guard): Usage {
    if guard == Pass then UsageAfterRecord(p, u, q.total, now) else u
  }

  /**
   * From a verified and claimed payment to a stored receipt: book a netting charge, sign,
   * store, count, and complete the commit unless the fee ledger has to be awaited. A
   * blocked receipt fails the commit; its charge stays booked.
   */
  function IssueFinalize(cfg: Config, s: State, r: nat, c: nat, mode: Settlement, v: Verification,
                         splits: Option<seq<SplitProof>>, guard: Guard): State
    requires r < |s.threads| && Known(s, c)
  {
    var q, commit, id := QuoteOf(s, c), s.commits[c], |s.receipts|;
    var charge := if mode == Netting && splits.None? then [ChargeOf(s, c)] else [];
    var receipt := SignReceipt(cfg.crypto, s.prevHash, FinalizePayload(cfg, s, c, mode, v, splits));
    s.(ledger := if charge == [] then s.ledger else N.Add(s.ledger, charge[0]),
       charges := s.charges + charge,
       blocked := if guard == Pass then s.blocked else s.blocked + charge,
       prevHash := if guard == BlockBeforeSign then s.prevHash else receipt.receiptHash,
       signed := if guard == BlockBeforeSign then s.signed else s.signed + [receipt],
       receipts := if guard == Pass then s.receipts + [Issued(receipt, r)] else s.receipts,
       drill := Record(cfg, cfg.drill, s.drill, q, s.clock, guard),
       beta := Record(cfg, cfg.beta, s.beta, q, s.clock, guard),
       commits := s.commits[c := if guard != Pass then commit.(status := Failed)
                                 else if q.waterfall then commit else Sealed(commit, id, mode)],
       threads := s.threads[r := if guard != Pass then Done(Refused(400))
                                 else if q.waterfall then AwaitLedger(c, id, mode) else Done(FinalizeOk(c, id))])
  }

  /** A header payment's receipt is signed, stored and served at once. */
  function IssueCompat(cfg: Config, s: State, r: nat, q: nat, url: string, txSig: Option<string>,
                       v: Verification, payerText: string, guard: Guard): State
    requires r < |s.threads| && q < |s.quotes|
  {
    var p := Payload(cfg, s, s.quotes[q], Synthetic(r), cfg.crypto.hash(payerText), url, CompatProof(txSig).Mode(),
                     v, None);
    var receipt := SignReceipt(cfg.crypto, s.prevHash, p);
    s.(prevHash := if guard == BlockBeforeSign then s.prevHash else receipt.receiptHash,
       signed := if guard == BlockBeforeSign then s.signed else s.signed + [receipt],
       receipts := if guard == Pass then s.receipts + [Issued(receipt, r)] else s.receipts,
       threads := s.threads[r := if guard == Pass then Done(Served(Synthetic(r), |s.receipts|))
                            else Done(Refused(500))])
  }

  function CompatProof(txSig: Option<string>): PaymentProof {
    if txSig.Some? then TransferProof(txSig.value, None) else NettingProof
  }

  // ---- what one segment of a request does -----------------------------------------------------

  datatype Effect =
    | Stay
    | Move(t: Thread)
    | Sweep(t: Thread)
    | Reject(c: nat)
    | Claim(key: RS.ReplayKey, t: Thread)
    | Receipt(c: nat, mode: Settlement, v: Verification, splits: Option<seq<SplitProof>>, guard: Guard)
    | Serve(q: nat, url: string, txSig: Option<string>, v: Verification, payerText: string, guard: Guard)
    | Settle(c: nat, receiptId: nat, mode: Settlement)

  predicate Fits(s: State, f: Effect) {
    match f
    case Reject(c) => Known(s, c)
    case Receipt(c, _, _, _, _) => Known(s, c)
    case Serve(q, _, _, _, _, _) => q < |s.quotes|
    case Settle(c, _, _) => Known(s, c)
    case _ => true
  }

  function Perform(cfg: Config, s: State, r: nat, f: Effect): State
    requires r < |s.threads| && Fits(s, f)
  {
    match f
    case Stay => s
    case Move(t) => s.(threads := s.threads[r := t])
    // Asking whether a key is claimed drops expired keys.
    case Sweep(t) => s.(seen := RS.Cleanup(s.seen, s.clock), threads := s.threads[r := t])
    // A rejected proof fails the commit and ends the request.
    case Reject(c) =>
      s.(commits := s.commits[c := s.commits[c].(status := Failed)], threads := s.threads[r := Done(Refused(402))])
    case Claim(key, t) =>
      s.(seen := RS.Claim(s.seen, key, s.clock, cfg.replayTtlMs),
         grants := RS.GrantsAfter(s.seen, s.grants, key, s.clock, r),
         threads := s.threads[r := t])
    case Receipt(c, mode, v, splits, guard) => IssueFinalize(cfg, s, r, c, mode, v, splits, guard)
    case Serve(q, url, txSig, v, payerText, guard) => IssueCompat(cfg, s, r, q, url, txSig, v, payerText, guard)
    case Settle(c, receiptId, mode) =>
      s.(commits := s.commits[c := Sealed(s.commits[c], receiptId, mode)],
         threads := s.threads[r := Done(FinalizeOk(c, receiptId))])
  }

  // ---- finalize --------------------------------------------------------------------------------

  /** Netting proofs are never looked up on chain; the other two are for the verifier to judge. */
  function Judged(cfg: Config, proof: PaymentProof, v: Verification): Verification {
    if proof.NettingProof? then Verification(cfg.nettingEnabled, false, None, None) else v
  }

  predicate NoRepeats(items: seq<(string, PaymentProof)>) {
    forall i, j :: 0 <= i < j < |items| ==> items[i].0 != items[j].0
  }

  function ByFeeLine(items: seq<(string, PaymentProof)>): map<string, PaymentProof> {
    if items == [] then map[]
    else ByFeeLine(items[..|items| - 1])[items[|items| - 1].0 := items[|items| - 1].1]
  }

  /** Before a line's proof is verified: it must be there and be a transfer. */
  function NextLine(q: Quote, c: nat, proofs: map<string, PaymentProof>, lines: seq<SplitLine>): Thread {
    if |lines| >= |q.split| || q.split[|lines|].feeLineId !in proofs then Done(Refused(402))
    else if !proofs[q.split[|lines|].feeLineId].TransferProof? then Done(Refused(400))
    else SplitVerify(c, proofs, lines)
  }

  function FirstFinalizeStep(q: Quote, c: nat, proof: Option<PaymentProof>, items: seq<(string, PaymentProof)>): Thread
    requires q.split == [] ==> proof.Some?
  {
    if q.split == [] then AwaitVerify(c, proof.value)
    else if !NoRepeats(items) then Done(Refused(409))
    else NextLine(q, c, ByFeeLine(items), [])
  }

  /** How far a finalize request gets before its first await. */
  datatype Admission = Admission(t: Thread, drillChecked: bool, betaChecked: bool)

  function Admit(cfg: Config, s: State, c: nat, proof: Option<PaymentProof>,
                 items: seq<(string, PaymentProof)>): Admission {
    if !Known(s, c) then Admission(Done(Refused(404)), false, false)
    else
      var commit, q := s.commits[c], QuoteOf(s, c);
      if Expired(q, s.clock) then Admission(Done(Refused(410)), false, false)
      else if !DrillAmountAllowed(cfg.drill, q.total) || !BetaAmountAllowed(cfg.beta, q.total) then
        Admission(Done(Refused(403)), false, false)
      else if commit.status == Finalized && commit.receiptId.Some? && commit.receiptId.value < |s.receipts| then
        Admission(Done(FinalizeOk(c, commit.receiptId.value)), false, false)
      else if q.split != [] && items == [] then Admission(Done(Refused(402)), false, false)
      else if q.split == [] && proof.None? then Admission(Done(Refused(400)), false, false)
      else if q.split == [] && proof.value.Mode() !in q.settlement then Admission(Done(Refused(400)), false, false)
      else if q.split == [] && proof.value.NettingProof? && !cfg.nettingEnabled
        then Admission(Done(Refused(422)), false, false)
      else if !DailyAllowed(cfg.drill, s.drill, q.total, s.clock) then Admission(Done(Refused(403)), true, false)
      else if !DailyAllowed(cfg.beta, s.beta, q.total, s.clock) then Admission(Done(Refused(403)), true, true)
      else Admission(FirstFinalizeStep(q, c, proof, items), true, true)
  }

  function StartFinalize(cfg: Config, s: State, c: nat, proof: Option<PaymentProof>,
                         items: seq<(string, PaymentProof)>): State {
    var a := Admit(cfg, s, c, proof, items);
    s.(drill := if a.drillChecked then UsageAfterCheck(cfg.drill, s.drill, s.clock) else s.drill,
       beta := if a.betaChecked then UsageAfterCheck(cfg.beta, s.beta, s.clock) else s.beta,
       threads := s.threads + [a.t])
  }

  /** The verdict on a single proof: claim its payment, or book a netting charge. */
  function OnVerify(cfg: Config, s: State, c: nat, proof: PaymentProof, verdict: Verification, guard: Guard): Effect {
    var v := Judged(cfg, proof, verdict);
    if !v.ok || (proof.TransferProof? && !Present(v.txSignature)) || (proof.StreamProof? && !Present(v.streamId))
      then Reject(c)
    else if proof.NettingProof? then Receipt(c, Netting, v, None, guard)
    else Claim(PaymentKey(proof, v), AwaitGlobal(c, proof, v, Free(s, PaymentKey(proof, v))))
  }

  predicate SingleReady(proof: PaymentProof, v: Verification) {
    !proof.NettingProof?
    && (proof.TransferProof? ==> Present(v.txSignature))
    && (proof.StreamProof? ==> Present(v.streamId))
  }

  function OnGlobal(s: State, c: nat, proof: PaymentProof, v: Verification, granted: bool): Effect
    requires Known(s, c) && SingleReady(proof, v)
  {
    if !granted then Move(Done(Refused(409)))
    else
      var key := PaymentScopedKey(QuoteOf(s, c), proof, v);
      Claim(key, AwaitScoped(c, proof, v, Free(s, key)))
  }

  function OnScoped(c: nat, proof: PaymentProof, v: Verification, granted: bool, guard: Guard): Effect {
    if !granted then Move(Done(Refused(409))) else Receipt(c, proof.Mode(), v, None, guard)
  }

  // ---- direct split ------------------------------------------------------------------------------

  predicate AllVerified(lines: seq<SplitLine>) {
    forall i :: 0 <= i < |lines| ==> Verified(lines[i])
  }

  predicate SeenSignature(lines: seq<SplitLine>, sig: Option<string>) {
    exists i :: 0 <= i < |lines| && lines[i].v.txSignature == sig
  }

  function OnSplitVerify(s: State, c: nat, proofs: map<string, PaymentProof>, lines: seq<SplitLine>,
                         v: Verification): Effect
    requires Known(s, c) && AllVerified(lines)
  {
    var q, n := QuoteOf(s, c), |lines|;
    if n >= |q.split| || q.split[n].feeLineId !in proofs then Stay
    else if !v.ok || !Present(v.txSignature) then Reject(c)
    else if SeenSignature(lines, v.txSignature) then Move(Done(Refused(409)))
    else
      var more := lines + [SplitLine(q.split[n], proofs[q.split[n].feeLineId], v)];
      if n + 1 < |q.split| then Move(NextLine(q, c, proofs, more))
      else Sweep(SplitCheck(c, more, 0, false, !Free(s, LineKey(more[0]))))
  }

  /** `validateSplitFinalizeRequest` on the results collected above. */
  predicate ValidSplit(lines: seq<SplitLine>) {
    && (forall i, j :: 0 <= i < j < |lines| ==> lines[i].requirement.feeLineId != lines[j].requirement.feeLineId)
    && (forall i :: 0 <= i < |lines| ==>
          lines[i].proof.TransferProof? && lines[i].proof.amountHint.Some? ==>
            lines[i].proof.amountHint.value >= lines[i].requirement.amount)
  }

  /** The pre-check: no key of any line may be claimed yet. */
  function OnSplitCheck(s: State, c: nat, lines: seq<SplitLine>, j: nat, scoped: bool, claimed: bool): Effect
    requires Known(s, c) && AllVerified(lines) && j < |lines|
  {
    if claimed then Move(Done(Refused(409)))
    else if !scoped then
      Sweep(SplitCheck(c, lines, j, true, !Free(s, LineScopedKey(QuoteOf(s, c).mint, lines[j]))))
    else if j + 1 < |lines| then Sweep(SplitCheck(c, lines, j + 1, false, !Free(s, LineKey(lines[j + 1]))))
    else if !ValidSplit(lines) then Move(Done(Refused(402)))
    else Claim(LineKey(lines[0]), SplitClaim(c, lines, 0, false, Free(s, LineKey(lines[0]))))
  }

  function OnSplitClaim(s: State, c: nat, lines: seq<SplitLine>, j: nat, scoped: bool, granted: bool): Effect
    requires Known(s, c) && AllVerified(lines) && j < |lines|
  {
    if !granted then Move(Done(Refused(409)))
    else if !scoped then
      var key := LineScopedKey(QuoteOf(s, c).mint, lines[j]);
      Claim(key, SplitClaim(c, lines, j, true, Free(s, key)))
    else if j + 1 < |lines| then
      Claim(LineKey(lines[j + 1]), SplitClaim(c, lines, j + 1, false, Free(s, LineKey(lines[j + 1]))))
    else Move(SplitReturn(c, lines))
  }

  /** The last provider line is primary, or the first line when no line pays the provider. */
  function Primary(lines: seq<SplitLine>): (p: nat)
    requires lines != []
    ensures p < |lines|
  {
    if |lines| == 1 || lines[|lines| - 1].requirement.kind == "PROVIDER_AMOUNT" then |lines| - 1
    else Primary(lines[..|lines| - 1])
  }

  function PrimaryVerification(lines: seq<SplitLine>): Verification
    requires lines != []
  {
    var main := lines[Primary(lines)];
    Verification(true, main.v.settledOnchain, main.v.txSignature, None)
  }

  function OnSplitReturn(c: nat, lines: seq<SplitLine>, guard: Guard): Effect
    requires AllVerified(lines) && lines != []
  {
    Receipt(c, lines[Primary(lines)].proof.Mode(), PrimaryVerification(lines), Some(SplitProofsOf(lines)), guard)
  }

  // ---- header payments ---------------------------------------------------------------------------

  /**
   * `supported` sums up the checks on network and currency, `consistent` those that compare the
   * proof's own recipient, amount and currency with the requirements.
   */
  datatype CompatRequest = CompatRequest(
    supported: bool, consistent: bool, memo: string, recipient: string, amount: nat, mint: Option<string>,
    expiresAt: Option<nat>, txSig: Option<string>, evm: bool, blob: string, url: string)

  /** The unexpired quote this server issued for exactly these terms, if there is one. */
  function FindIssuedQuote(s: State, req: CompatRequest, resource: string): Option<nat> {
    if req.memo == "" || req.memo !in s.memoIndex || s.memoIndex[req.memo] >= |s.quotes| then None
    else
      var q := s.quotes[s.memoIndex[req.memo]];
      if q.resource != resource || Expired(q, s.clock) || q.recipient != req.recipient || q.total != req.amount
         || (Present(req.mint) && req.mint.value != q.mint)
      then None else Some(s.memoIndex[req.memo])
  }

  /** The status with which a header payment is refused before its quote is looked up, if it is. */
  function HeaderFault(s: State, req: CompatRequest): Option<nat> {
    if !req.supported || req.amount == 0 || |req.recipient| < 16 then Some(422)
    else if req.expiresAt.Some? && req.expiresAt.value != 0 && req.expiresAt.value < s.clock then Some(409)
    else if !Present(req.txSig) && req.blob == "" then Some(400)
    else if !req.consistent then Some(409)
    else None
  }

  function StartCompat(s: State, resource: string, req: CompatRequest): State {
    if HeaderFault(s, req).Some? then Spawn(s, Done(Refused(HeaderFault(s, req).value)))
    else
      match FindIssuedQuote(s, req, resource)
      case None => Spawn(s, Done(Refused(409)))
      case Some(q) =>
        Spawn(s, CompatVerify(q, req.url, if Present(req.txSig) && !req.evm then req.txSig else None, req.blob))
  }

  function OnCompatVerify(cfg: Config, s: State, q: nat, url: string, txSig: Option<string>, blob: string,
                          verdict: Verification, guard: Guard): Effect {
    var v := Judged(cfg, CompatProof(txSig), verdict);
    if !v.ok then Move(Done(Refused(402)))
    else if txSig.Some? && !Present(v.txSignature) then Move(Done(Refused(400)))
    else if txSig.None? then Serve(q, url, None, v, blob, guard)
    else
      var key := GlobalKey("transfer", v.txSignature.value);
      Claim(key, CompatGlobal(q, url, txSig, v, Free(s, key)))
  }

  predicate CompatReady(txSig: Option<string>, v: Verification) {
    txSig.Some? && Present(v.txSignature)
  }

  function OnCompatGlobal(s: State, q: nat, url: string, txSig: Option<string>, v: Verification, granted: bool): Effect
    requires q < |s.quotes| && CompatReady(txSig, v)
  {
    if !granted then Move(Done(Refused(409)))
    else
      var key := ScopedKey(txSig.value, s.quotes[q].total, s.quotes[q].recipient, s.quotes[q].mint);
      Claim(key, CompatScoped(q, url, txSig, v, Free(s, key)))
  }

  /** The proof's own key is claimed; the canonical signature's key too if it is a different one. */
  function OnCompatScoped(s: State, q: nat, url: string, txSig: Option<string>, v: Verification, granted: bool,
                          guard: Guard): Effect
    requires q < |s.quotes| && CompatReady(txSig, v)
  {
    if !granted then Move(Done(Refused(409)))
    else if txSig == v.txSignature then Serve(q, url, txSig, v, v.txSignature.value, guard)
    else
      var key := ScopedKey(v.txSignature.value, s.quotes[q].total, s.quotes[q].recipient, s.quotes[q].mint);
      Claim(key, CompatCanonical(q, url, txSig, v, Free(s, key)))
  }

  function OnCompatCanonical(q: nat, url: string, txSig: Option<string>, v: Verification, granted: bool,
                             guard: Guard): Effect
    requires CompatReady(txSig, v)
  {
    if !granted then Move(Done(Refused(409))) else Serve(q, url, txSig, v, v.txSignature.value, guard)
  }

  // ---- delivery ------------------------------------------------------------------------------------

  predicate Deliverable(s: State, c: nat, resource: string) {
    && Known(s, c)
    && s.commits[c].status == Finalized
    && s.commits[c].receiptId.Some? && s.commits[c].receiptId.value < |s.receipts|
    && QuoteOf(s, c).resource == resource
    && s.commits[c].consumedAt.None?
  }

  function StartDelivery(s: State, c: nat, resource: string): State
    requires Deliverable(s, c, resource)
  {
    Spawn(s.(commits := s.commits[c := s.commits[c].(consumedAt := Some(s.clock))]),
          Delivering(c, s.commits[c].receiptId.value))
  }

  /** A paid route: deliver for a commit, else take a header payment, else ask for payment. */
  function GetResource(cfg: Config, s: State, resource: string, commit: Option<nat>, compat: Option<CompatRequest>,
                       p: Price): State {
    if commit.Some? && Deliverable(s, commit.value, resource) then StartDelivery(s, commit.value, resource)
    else if compat.Some? then StartCompat(s, resource, compat.value)
    else Spawn(IssueQuote(cfg, s, resource, p), Done(Quoted(|s.quotes|)))
  }

  /** The response is out: a server error gives the commit back, if it still has this receipt. */
  function OnFinish(s: State, r: nat, c: nat, receiptId: nat, status: nat): State
    requires r < |s.threads| && Known(s, c)
  {
    var restore := status >= 500 && s.commits[c].receiptId == Some(receiptId);
    s.(commits := if restore then s.commits[c := s.commits[c].(consumedAt := None)] else s.commits,
       threads := s.threads[r := Done(if status < 500 then Served(Stored(c), receiptId)
                                      else ServeFailed(c, receiptId, restore))])
  }

  // ---- steps and runs --------------------------------------------------------------------------------

  datatype Event =
    | Tick(ms: nat)
    | AskQuote(resource: string, price: Price)
    | PostCommit(quoteId: nat, payer: string)
    | PostFinalize(commitId: nat, proof: Option<PaymentProof>, items: seq<(string, PaymentProof)>)
    | Get(resource: string, commitHeader: Option<nat>, compat: Option<CompatRequest>, price: Price)
    | Verdict(r: nat, v: Verification, guard: Guard)
    | Resume(r: nat, guard: Guard)
    | Finish(r: nat, status: nat)
    | Abort(r: nat)
    | FlushLedger(now: int)

  /** What a waiting thread relies on when its continuation runs. */
  predicate Runnable(s: State, t: Thread) {
    match t
    case AwaitVerify(c, _) => Known(s, c)
    case AwaitGlobal(c, proof, v, _) => Known(s, c) && SingleReady(proof, v)
    case AwaitScoped(c, proof, v, _) => Known(s, c) && SingleReady(proof, v)
    case SplitVerify(c, _, lines) => Known(s, c) && AllVerified(lines)
    case SplitCheck(c, lines, j, _, _) => Known(s, c) && AllVerified(lines) && j < |lines|
    case SplitClaim(c, lines, j, _, _) => Known(s, c) && AllVerified(lines) && j < |lines|
    case SplitReturn(c, lines) => Known(s, c) && AllVerified(lines) && lines != []
    case AwaitLedger(c, _, _) => Known(s, c)
    case CompatVerify(q, _, _, _) => q < |s.quotes|
    case CompatGlobal(q, _, txSig, v, _) => q < |s.quotes| && CompatReady(txSig, v)
    case CompatScoped(q, _, txSig, v, _) => q < |s.quotes| && CompatReady(txSig, v)
    case CompatCanonical(q, _, txSig, v, _) => q < |s.quotes| && CompatReady(txSig, v)
    case Delivering(c, _) => Known(s, c)
    case Done(_) => true
  }

  /** The verifier answers a request that waits for it. */
  function OnVerdict(cfg: Config, s: State, t: Thread, v: Verification, guard: Guard): (f: Effect)
    requires Runnable(s, t)
    ensures Fits(s, f)
  {
    match t
    case AwaitVerify(c, proof) => OnVerify(cfg, s, c, proof, v, guard)
    case SplitVerify(c, proofs, lines) => OnSplitVerify(s, c, proofs, lines, v)
    case CompatVerify(q, url, txSig, blob) => OnCompatVerify(cfg, s, q, url, txSig, blob, v, guard)
    case _ => Stay
  }

  /** Any other promise of a request resolves. */
  function OnResume(s: State, t: Thread, guard: Guard): (f: Effect)
    requires Runnable(s, t)
    ensures Fits(s, f)
  {
    match t
    case AwaitGlobal(c, proof, v, granted) => OnGlobal(s, c, proof, v, granted)
    case AwaitScoped(c, proof, v, granted) => OnScoped(c, proof, v, granted, guard)
    case SplitCheck(c, lines, j, scoped, claimed) => OnSplitCheck(s, c, lines, j, scoped, claimed)
    case SplitClaim(c, lines, j, scoped, granted) => OnSplitClaim(s, c, lines, j, scoped, granted)
    case SplitReturn(c, lines) => OnSplitReturn(c, lines, guard)
    case AwaitLedger(c, id, mode) => Settle(c, id, mode)
    case CompatGlobal(q, url, txSig, v, granted) => OnCompatGlobal(s, q, url, txSig, v, granted)
    case CompatScoped(q, url, txSig, v, granted) => OnCompatScoped(s, q, url, txSig, v, granted, guard)
    case CompatCanonical(q, url, txSig, v, granted) => OnCompatCanonical(q, url, txSig, v, granted, guard)
    case _ => Stay
  }

  function Step(cfg: Config, s: State, e: Event): State {
    match e
    case Tick(ms) => s.(clock := s.clock + ms)
    case AskQuote(resource, p) => Spawn(IssueQuote(cfg, s, resource, p), Done(Quoted(|s.quotes|)))
    case PostCommit(q, payer) => DoCommit(s, q, payer)
    case PostFinalize(c, proof, items) => StartFinalize(cfg, s, c, proof, items)
    case Get(resource, commit, compat, p) => GetResource(cfg, s, resource, commit, compat, p)
    case Verdict(r, v, guard) =>
      if r < |s.threads| && Runnable(s, s.threads[r])
        then Perform(cfg, s, r, OnVerdict(cfg, s, s.threads[r], v, guard)) else s
    case Resume(r, guard) =>
      if r < |s.threads| && Runnable(s, s.threads[r]) then Perform(cfg, s, r, OnResume(s, s.threads[r], guard)) else s
    case Finish(r, status) =>
      if r < |s.threads| && s.threads[r].Delivering? && Known(s, s.threads[r].c)
      then OnFinish(s, r, s.threads[r].c, s.threads[r].receiptId, status) else s
    case Abort(r) =>
      if r < |s.threads| && !s.threads[r].Done? && !s.threads[r].Delivering?
        then Perform(cfg, s, r, Move(Done(Dropped))) else s
    case FlushLedger(now) =>
      var (l, bs) := N.Flush(s.ledger, cfg.netting, now, false);
      s.(ledger := l, batches := s.batches + bs)
  }

  /** The state after a run of events on a server started at time `start`. */
  function Run(cfg: Config, start: nat, es: seq<Event>): State {
    if es == [] then Init(start) else Step(cfg, Run(cfg, start, es[..|es| - 1]), es[|es| - 1])
  }
}
