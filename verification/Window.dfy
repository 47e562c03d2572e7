/**
 * One payment, one receipt, one delivery, for as long as the server runs: what the verifier's
 * window for accepting a payment has to do with the lifetime of replay keys
 * (x402/src/server.ts, x402/src/paymentVerifier.ts, x402/src/verifier/splTransfer.ts).
 */
module Window {
  import opened Common
  import opened Types
  import opened Protocol
  import opened Payments
  import RS = ReplayStore
  import D = Delivery

  // ---- the verifier's window ----------------------------------------------------------------------

  const DEFAULT_REPLAY_TTL_MS: nat := 86_400_000
  const DEFAULT_PROOF_AGE_S: nat := 900

  /** The age check on a transfer: none if no greatest age is set or the block time is unknown. */
  predicate YoungEnough(blockTimeS: Option<nat>, maxAgeS: nat, nowMs: nat) {
    maxAgeS == 0 || blockTimeS.None? || blockTimeS.value == 0 || nowMs - blockTimeS.value * 1000 <= maxAgeS * 1000
  }

  /** The payment that stands behind `key` can be accepted from `born(key)` on, for `age` milliseconds. */
  predicate InWindow(born: RS.ReplayKey -> nat, age: nat, key: RS.ReplayKey, t: nat) {
    born(key) <= t <= born(key) + age
  }

  /** A known block time and a greatest age make a window, once the payment has been made. */
  lemma AgeCheckIsWindow(born: RS.ReplayKey -> nat, key: RS.ReplayKey, blockTimeS: nat, maxAgeS: nat, t: nat)
    requires blockTimeS > 0 && maxAgeS > 0 && born(key) == blockTimeS * 1000 && born(key) <= t
    ensures YoungEnough(Some(blockTimeS), maxAgeS, t) <==> InWindow(born, maxAgeS * 1000, key, t)
  {
  }

  /** The on-chain payment that an accepting verdict names. */
  function Named(t: Thread, v: Verification): Option<RS.ReplayKey> {
    match t
    case AwaitVerify(_, proof) => if v.ok && SingleReady(proof, v) then Some(PaymentKey(proof, v)) else None
    case SplitVerify(_, _, _) =>
      if v.ok && Present(v.txSignature) then Some(GlobalKey("transfer", v.txSignature.value)) else None
    case CompatVerify(_, _, txSig, _) =>
      if v.ok && txSig.Some? && Present(v.txSignature) then Some(GlobalKey("transfer", v.txSignature.value)) else None
    case _ => None
  }

  /** The verifier accepts a payment only within its window. */
  predicate VerdictTimely(born: RS.ReplayKey -> nat, age: nat, s: State, e: Event) {
    e.Verdict? && e.r < |s.threads| && Named(s.threads[e.r], e.v).Some? ==>
      InWindow(born, age, Named(s.threads[e.r], e.v).value, s.clock)
  }

  /** What else claims a payment, a direct split whose lines have all been verified, does so within its window. */
  predicate ClaimTimely(born: RS.ReplayKey -> nat, age: nat, s: State, e: Event) {
    e.Resume? && e.r < |s.threads| && Runnable(s, s.threads[e.r]) ==>
      var f := OnResume(s, s.threads[e.r], e.guard);
      f.Claim? && f.key.amount.Star? ==> InWindow(born, age, f.key, s.clock)
  }

  predicate VerdictsTimely(cfg: Config, born: RS.ReplayKey -> nat, age: nat, start: nat, es: seq<Event>) {
    es == [] ||
    (&& VerdictsTimely(cfg, born, age, start, es[..|es| - 1])
     && VerdictTimely(born, age, Run(cfg, start, es[..|es| - 1]), es[|es| - 1]))
  }

  predicate Timely(cfg: Config, born: RS.ReplayKey -> nat, age: nat, start: nat, es: seq<Event>) {
    es == [] ||
    (&& Timely(cfg, born, age, start, es[..|es| - 1])
     && VerdictTimely(born, age, Run(cfg, start, es[..|es| - 1]), es[|es| - 1])
     && ClaimTimely(born, age, Run(cfg, start, es[..|es| - 1]), es[|es| - 1]))
  }

  // ---- payments are claimed within the window --------------------------------------------------------

  /** The key of a payment itself, not one that is scoped to its use. */
  ghost predicate GrantsInWindow(born: RS.ReplayKey -> nat, age: nat, grants: seq<RS.Grant>) {
    forall i :: 0 <= i < |grants| && grants[i].key.amount.Star? ==> InWindow(born, age, grants[i].key, grants[i].at)
  }

  /** A verdict leads to no claim but of the payment it names. */
  lemma VerdictClaimsNamed(cfg: Config, s: State, t: Thread, v: Verification, guard: Guard)
    requires Runnable(s, t)
    ensures var f := OnVerdict(cfg, s, t, v, guard); f.Claim? ==> Named(t, v) == Some(f.key)
  {
  }

  lemma PerformInWindow(cfg: Config, born: RS.ReplayKey -> nat, age: nat, s: State, r: nat, f: Effect)
    requires GrantsInWindow(born, age, s.grants) && r < |s.threads| && Fits(s, f)
    requires f.Claim? && f.key.amount.Star? ==> InWindow(born, age, f.key, s.clock)
    ensures GrantsInWindow(born, age, Perform(cfg, s, r, f).grants)
  {
  }

  lemma StepInWindow(cfg: Config, born: RS.ReplayKey -> nat, age: nat, s: State, e: Event)
    requires GrantsInWindow(born, age, s.grants) && VerdictTimely(born, age, s, e) && ClaimTimely(born, age, s, e)
    ensures GrantsInWindow(born, age, Step(cfg, s, e).grants)
  {
    match e
    case Verdict(r, v, guard) =>
      if r < |s.threads| && Runnable(s, s.threads[r]) {
        VerdictClaimsNamed(cfg, s, s.threads[r], v, guard);
        PerformInWindow(cfg, born, age, s, r, OnVerdict(cfg, s, s.threads[r], v, guard));
      }
    case Resume(r, guard) =>
      if r < |s.threads| && Runnable(s, s.threads[r]) {
        PerformInWindow(cfg, born, age, s, r, OnResume(s, s.threads[r], guard));
      }
    case _ => OthersGrantNothing(cfg, s, e);
  }

  lemma {:induction false} RunInWindow(cfg: Config, born: RS.ReplayKey -> nat, age: nat, start: nat, es: seq<Event>)
    requires Timely(cfg, born, age, start, es)
    ensures GrantsInWindow(born, age, Run(cfg, start, es).grants)
  {
    if es != [] {
      RunInWindow(cfg, born, age, start, es[..|es| - 1]);
      StepInWindow(cfg, born, age, Run(cfg, start, es[..|es| - 1]), es[|es| - 1]);
    }
  }

  // ---- the theorems ------------------------------------------------------------------------------------

  /** Receipt `x` names the payment `key`. */
  ghost predicate NamedBy(s: State, x: nat, key: RS.ReplayKey) {
    x < |s.receipts| && Names(s.receipts[x].signed.payload, key)
  }

  /** No on-chain payment backs two receipts. */
  ghost predicate ReceiptsInject(s: State) {
    forall x, y, key :: NamedBy(s, x, key) && NamedBy(s, y, key) ==> x == y
  }

  /** Request `r` was served for the payment `key`. */
  ghost predicate ServedFor(s: State, r: nat, key: RS.ReplayKey) {
    && r < |s.threads| && s.threads[r].Done? && s.threads[r].reply.Served?
    && NamedBy(s, s.threads[r].reply.receiptId, key)
  }

  /** No on-chain payment is delivered for twice. */
  ghost predicate DeliveriesInject(s: State) {
    forall r, q, key :: ServedFor(s, r, key) && ServedFor(s, q, key) ==> r == q
  }

  /**
   * In every run, however long: if the verifier's window is shorter than the lifetime of replay
   * keys, no payment backs two receipts.
   */
  lemma OnePaymentOneReceipt(cfg: Config, born: RS.ReplayKey -> nat, age: nat, start: nat, es: seq<Event>)
    requires Timely(cfg, born, age, start, es) && age < cfg.replayTtlMs
    ensures ReceiptsInject(Run(cfg, start, es))
  {
    RunKeeps(cfg, start, es);
    RunInWindow(cfg, born, age, start, es);
    InjectInWindow(cfg, born, age, Run(cfg, start, es));
  }

  lemma InjectInWindow(cfg: Config, born: RS.ReplayKey -> nat, age: nat, s: State)
    requires Inv(cfg, s) && GrantsInWindow(born, age, s.grants) && age < cfg.replayTtlMs
    ensures ReceiptsInject(s)
  {
    forall x: nat, y: nat, key | NamedBy(s, x, key) && NamedBy(s, y, key)
      ensures x == y
    {
      if x != y {
        var i, j := FarApart(cfg, s, x, y, key);
        assert false;
      }
    }
  }

  /** Then no payment is delivered for twice either. */
  lemma OnePaymentOneDelivery(cfg: Config, born: RS.ReplayKey -> nat, age: nat, start: nat, es: seq<Event>)
    requires Timely(cfg, born, age, start, es) && age < cfg.replayTtlMs
    ensures DeliveriesInject(Run(cfg, start, es))
  {
    var s := Run(cfg, start, es);
    OnePaymentOneReceipt(cfg, born, age, start, es);
    forall r: nat, q: nat, key | ServedFor(s, r, key) && ServedFor(s, q, key)
      ensures r == q
    {
      assert s.threads[r].reply.receiptId == s.threads[q].reply.receiptId;
      OneReceiptOneDelivery(cfg, start, es, r, q);
    }
  }

  /**
   * With netting off as well, successful deliveries inject into claimed on-chain payments: each
   * hands out a receipt that names a payment granted to that receipt's issuer, and no two of
   * them name the same one.
   */
  lemma DeliveriesInjectIntoPayments(cfg: Config, born: RS.ReplayKey -> nat, age: nat, start: nat, es: seq<Event>)
    requires Timely(cfg, born, age, start, es) && age < cfg.replayTtlMs && !cfg.nettingEnabled
    ensures var s := Run(cfg, start, es);
            && DeliveriesInject(s)
            && forall r :: 0 <= r < |s.threads| && s.threads[r].Done? && s.threads[r].reply.Served? ==>
                 var x := s.threads[r].reply.receiptId;
                 && x < |s.receipts| && NamesSome(s.receipts[x].signed.payload)
                 && ServedFor(s, r, SomePayment(s.receipts[x].signed.payload))
                 && Backed(s.grants, SomePayment(s.receipts[x].signed.payload), s.receipts[x].issuer)
  {
    OnePaymentOneDelivery(cfg, born, age, start, es);
    EveryDeliveryPaid(cfg, start, es);
  }

  lemma EveryDeliveryPaid(cfg: Config, start: nat, es: seq<Event>)
    requires !cfg.nettingEnabled
    ensures var s := Run(cfg, start, es);
            forall r :: 0 <= r < |s.threads| && s.threads[r].Done? && s.threads[r].reply.Served? ==>
              var x := s.threads[r].reply.receiptId;
              && x < |s.receipts| && NamesSome(s.receipts[x].signed.payload)
              && ServedFor(s, r, SomePayment(s.receipts[x].signed.payload))
              && Backed(s.grants, SomePayment(s.receipts[x].signed.payload), s.receipts[x].issuer)
  {
    D.RunLinks(cfg, start, es);
    RunPaidFor(cfg, start, es);
    RunKeeps(cfg, start, es);
    DeliveriesPaid(cfg, Run(cfg, start, es));
  }

  lemma DeliveriesPaid(cfg: Config, s: State)
    requires D.AllLinked(s) && AllNameSome(s) && Inv(cfg, s)
    ensures forall r :: 0 <= r < |s.threads| && s.threads[r].Done? && s.threads[r].reply.Served? ==>
              var x := s.threads[r].reply.receiptId;
              && x < |s.receipts| && NamesSome(s.receipts[x].signed.payload)
              && ServedFor(s, r, SomePayment(s.receipts[x].signed.payload))
              && Backed(s.grants, SomePayment(s.receipts[x].signed.payload), s.receipts[x].issuer)
  {
    forall r | 0 <= r < |s.threads| && s.threads[r].Done? && s.threads[r].reply.Served?
      ensures var x := s.threads[r].reply.receiptId;
              && x < |s.receipts| && NamesSome(s.receipts[x].signed.payload)
              && ServedFor(s, r, SomePayment(s.receipts[x].signed.payload))
              && Backed(s.grants, SomePayment(s.receipts[x].signed.payload), s.receipts[x].issuer)
    {
      assert D.Linked(s, s.threads[r], r);
      NamedPaymentBacked(cfg, s, s.threads[r].reply.receiptId);
    }
  }

  // ---- runs without direct splits ------------------------------------------------------------------------

  /** What is priced is not to be split. */
  predicate Unsplit(e: Event) {
    match e
    case AskQuote(_, p) => p.split == [] || !p.waterfall
    case Get(_, _, _, p) => p.split == [] || !p.waterfall
    case _ => true
  }

  predicate Splitting(t: Thread) {
    t.SplitVerify? || t.SplitCheck? || t.SplitClaim? || t.SplitReturn?
  }

  ghost predicate NoSplits(s: State) {
    && (forall i :: 0 <= i < |s.quotes| ==> s.quotes[i].split == [])
    && (forall r :: 0 <= r < |s.threads| ==> !Splitting(s.threads[r]))
  }

  /** Only direct splits turn into direct splits. */
  lemma EffectsUnsplit(cfg: Config, s: State, t: Thread, v: Verification, guard: Guard)
    requires Runnable(s, t) && !Splitting(t)
    ensures UnsplitEffect(OnVerdict(cfg, s, t, v, guard)) && UnsplitEffect(OnResume(s, t, guard))
  {
  }

  predicate UnsplitEffect(f: Effect) {
    match f
    case Move(t) => !Splitting(t)
    case Sweep(t) => !Splitting(t)
    case Claim(_, t) => !Splitting(t)
    case _ => true
  }

  lemma PerformUnsplit(cfg: Config, s: State, r: nat, f: Effect)
    requires NoSplits(s) && r < |s.threads| && Fits(s, f) && UnsplitEffect(f)
    ensures NoSplits(Perform(cfg, s, r, f))
  {
  }

  lemma RequestUnsplit(cfg: Config, s: State, e: Event)
    requires NoSplits(s) && Unsplit(e) && (e.PostFinalize? || e.Get? || e.AskQuote? || e.PostCommit?)
    ensures NoSplits(Step(cfg, s, e))
  {
    if e.PostFinalize? {
      AdmitUnsplit(cfg, s, e.commitId, e.proof, e.items);
      FinalizeUnsplit(cfg, s, e.commitId, e.proof, e.items);
    } else if e.Get? {
      GetUnsplit(cfg, s, e.resource, e.commitHeader, e.compat, e.price);
    }
  }

  lemma AdmitUnsplit(cfg: Config, s: State, c: nat, proof: Option<PaymentProof>, items: seq<(string, PaymentProof)>)
    requires NoSplits(s)
    ensures !Splitting(Admit(cfg, s, c, proof, items).t)
  {
  }

  lemma FinalizeUnsplit(cfg: Config, s: State, c: nat, proof: Option<PaymentProof>, items: seq<(string, PaymentProof)>)
    requires NoSplits(s) && !Splitting(Admit(cfg, s, c, proof, items).t)
    ensures NoSplits(StartFinalize(cfg, s, c, proof, items))
  {
  }

  lemma GetUnsplit(cfg: Config, s: State, resource: string, commit: Option<nat>, compat: Option<CompatRequest>,
                   p: Price)
    requires NoSplits(s) && (p.split == [] || !p.waterfall)
    ensures NoSplits(GetResource(cfg, s, resource, commit, compat, p))
  {
    if !(commit.Some? && Deliverable(s, commit.value, resource)) && compat.Some? {
      CompatOpens(s, resource, compat.value);
    }
  }

  lemma StepUnsplit(cfg: Config, s: State, e: Event)
    requires NoSplits(s) && Unsplit(e)
    ensures NoSplits(Step(cfg, s, e))
  {
    match e
    case Verdict(r, v, guard) =>
      if r < |s.threads| && Runnable(s, s.threads[r]) {
        EffectsUnsplit(cfg, s, s.threads[r], v, guard);
        PerformUnsplit(cfg, s, r, OnVerdict(cfg, s, s.threads[r], v, guard));
      }
    case Resume(r, guard) =>
      if r < |s.threads| && Runnable(s, s.threads[r]) {
        EffectsUnsplit(cfg, s, s.threads[r], Verification(false, false, None, None), guard);
        PerformUnsplit(cfg, s, r, OnResume(s, s.threads[r], guard));
      }
    case PostFinalize(_, _, _) => RequestUnsplit(cfg, s, e);
    case Get(_, _, _, _) => RequestUnsplit(cfg, s, e);
    case AskQuote(_, _) => RequestUnsplit(cfg, s, e);
    case PostCommit(_, _) => RequestUnsplit(cfg, s, e);
    case _ =>
  }

  /** Every other request claims its payment in the very segment that the verdict is handed to. */
  lemma ResumesClaimNoPayment(s: State, t: Thread, guard: Guard)
    requires Runnable(s, t) && !Splitting(t)
    ensures var f := OnResume(s, t, guard); f.Claim? ==> !f.key.amount.Star?
  {
  }

  lemma UnsplitClaimTimely(born: RS.ReplayKey -> nat, age: nat, s: State, e: Event)
    requires NoSplits(s)
    ensures ClaimTimely(born, age, s, e)
  {
    if e.Resume? && e.r < |s.threads| && Runnable(s, s.threads[e.r]) {
      ResumesClaimNoPayment(s, s.threads[e.r], e.guard);
    }
  }

  /** Where nothing is split, it is enough that the verifier keeps to its window. */
  lemma {:induction false} UnsplitTimely(cfg: Config, born: RS.ReplayKey -> nat, age: nat, start: nat, es: seq<Event>)
    requires VerdictsTimely(cfg, born, age, start, es) && forall i :: 0 <= i < |es| ==> Unsplit(es[i])
    ensures Timely(cfg, born, age, start, es) && NoSplits(Run(cfg, start, es))
  {
    if es != [] {
      var init, last := es[..|es| - 1], es[|es| - 1];
      UnsplitTimely(cfg, born, age, start, init);
      UnsplitClaimTimely(born, age, Run(cfg, start, init), last);
      StepUnsplit(cfg, Run(cfg, start, init), last);
    }
  }

  // ---- the server's first key lifetime --------------------------------------------------------------------

  function BornAt(start: nat): RS.ReplayKey -> nat {
    _ => start
  }

  /** Up to `age` after the start, every run is timely for payments that can be accepted from the start on. */
  lemma {:induction false} YoungRunsAreTimely(cfg: Config, age: nat, start: nat, es: seq<Event>)
    requires Run(cfg, start, es).clock <= start + age
    ensures Timely(cfg, BornAt(start), age, start, es) && VerdictsTimely(cfg, BornAt(start), age, start, es)
  {
    if es != [] {
      var init := es[..|es| - 1];
      ClockAdvances(cfg, Run(cfg, start, init), es[|es| - 1]);
      YoungRunsAreTimely(cfg, age, start, init);
      GrantsSinceStart(cfg, start, init);
    }
  }

  lemma ClockAdvances(cfg: Config, s: State, e: Event)
    ensures Step(cfg, s, e).clock >= s.clock
  {
    match e
    case Verdict(r, v, guard) =>
      if r < |s.threads| && Runnable(s, s.threads[r]) {
        PerformGrants(cfg, s, r, OnVerdict(cfg, s, s.threads[r], v, guard));
      }
    case Resume(r, guard) =>
      if r < |s.threads| && Runnable(s, s.threads[r]) {
        PerformGrants(cfg, s, r, OnResume(s, s.threads[r], guard));
      }
    case _ => OthersGrantNothing(cfg, s, e);
  }

  /** Whatever the verifier accepts, nothing goes wrong before a key lifetime has passed since the start. */
  lemma FirstLifetimeInjects(cfg: Config, start: nat, es: seq<Event>)
    requires Run(cfg, start, es).clock < start + cfg.replayTtlMs
    ensures ReceiptsInject(Run(cfg, start, es)) && DeliveriesInject(Run(cfg, start, es))
  {
    assert cfg.replayTtlMs > 0 by {
      GrantsSinceStart(cfg, start, es);
    }
    var age := cfg.replayTtlMs - 1;
    assert Timely(cfg, BornAt(start), age, start, es) by {
      YoungRunsAreTimely(cfg, age, start, es);
    }
    OnePaymentOneReceipt(cfg, BornAt(start), age, start, es);
    OnePaymentOneDelivery(cfg, BornAt(start), age, start, es);
  }
}
