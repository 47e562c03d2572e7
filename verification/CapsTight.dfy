/**
 * The bound on the day's total is exact: for every number of overlapping requests some run of the
 * server attains it (x402/src/server.ts).
 */
module CapsTight {
  import opened Common
  import opened Types
  import opened Receipts
  import opened Protocol
  import opened Caps
  import opened Handshake
  import opened Settling
  import D = Delivery
  import L = Limits

  function Other(w: Which): Which {
    if w == Drill then Beta else Drill
  }

  /** A server on which cap `w` is in force, and the other one is off or no tighter. */
  ghost predicate Tightest(cfg: Config, w: Which, payer: string) {
    && PolicyOf(cfg, w).enabled && MostTx(PolicyOf(cfg, w)) > 0
    && (PolicyOf(cfg, Other(w)).enabled ==>
          && MostTx(PolicyOf(cfg, w)) <= MostTx(PolicyOf(cfg, Other(w)))
          && PolicyOf(cfg, w).daily <= PolicyOf(cfg, Other(w)).daily)
    && cfg.quoteTtlMs > 0 && NormalizeCommitment(payer) == Some(payer)
  }

  const PATH := "/resource"

  /** A buyer's session over `amount` without any pause. */
  function Over(amount: nat): Session {
    Session(Price(amount, 0, [], false), false, 0, 0, Verification(true, false, None, None))
  }

  /** What is recorded by the clock's day, how many requests are in flight, and what they are due. */
  ghost predicate Level(w: Which, s: State, clock: nat, recorded: nat, n: nat, due: nat) {
    && D.AllLinked(s) && s.clock == clock && Rolled(UsageOf(s, w), clock).finalized == recorded
    && Rolled(UsageOf(s, Other(w)), clock).finalized <= recorded
    && InFlight(s.threads) == n && AllDue(s, s.threads) == due
  }

  // ---- one request in flight, and one payment -----------------------------------------------------

  function Committed(cfg: Config, s: State, payer: string, amount: nat): State {
    Committing(cfg, s, PATH, Over(amount), |s.quotes|, payer)
  }

  /** Quote, commit and finalize, up to the wait for the verifier. */
  function Booked(cfg: Config, s: State, payer: string, amount: nat, sig: string): State {
    Step(cfg, Committed(cfg, s, payer, amount), PostFinalize(|s.commits|, Some(TransferProof(sig, None)), []))
  }

  ghost predicate BookedShape(w: Which, s: State, a: State, amount: nat, sig: string) {
    && D.Extends(s, a) && a.clock == s.clock && a.seen == s.seen && UsageOf(a, w) == Rolled(UsageOf(s, w), s.clock)
    && Rolled(UsageOf(a, Other(w)), s.clock) == Rolled(UsageOf(s, Other(w)), s.clock)
    && a.threads == s.threads +
       [Done(Quoted(|s.quotes|)), Done(Reply.Committed(|s.commits|)),
        AwaitVerify(|s.commits|, TransferProof(sig, None))]
    && Known(a, |s.commits|) && QuoteOf(a, |s.commits|).total == amount
  }

  /** The caps leave room for `amount` in state `s`. */
  ghost predicate Room(cfg: Config, w: Which, s: State, amount: nat) {
    && amount <= MostTx(PolicyOf(cfg, w))
    && Rolled(UsageOf(s, w), s.clock).finalized + amount <= PolicyOf(cfg, w).daily
    && Rolled(UsageOf(s, Other(w)), s.clock).finalized <= Rolled(UsageOf(s, w), s.clock).finalized
  }

  lemma Books(cfg: Config, w: Which, s: State, payer: string, amount: nat, sig: string)
    requires Tightest(cfg, w, payer) && Room(cfg, w, s, amount)
    ensures CommittedTo(cfg, s, Committed(cfg, s, payer, amount), PATH, Over(amount), payer)
    ensures BookedShape(w, s, Booked(cfg, s, payer, amount, sig), amount, sig)
  {
    CommitSucceeds(cfg, s, PATH, Over(amount), payer);
    BooksFrom(cfg, w, s, Committed(cfg, s, payer, amount), payer, amount, sig);
  }

  lemma BooksFrom(cfg: Config, w: Which, s: State, b: State, payer: string, amount: nat, sig: string)
    requires Tightest(cfg, w, payer) && Room(cfg, w, s, amount)
    requires CommittedTo(cfg, s, b, PATH, Over(amount), payer)
    ensures BookedShape(w, s, Step(cfg, b, PostFinalize(|s.commits|, Some(TransferProof(sig, None)), [])), amount, sig)
  {
    L.CommitIsOpen(cfg, s, b, PATH, Over(amount), payer);
    ReadyHere(cfg, w, s, b, payer, amount, TransferProof(sig, None));
    BooksReady(cfg, w, s, b, payer, amount, sig);
  }

  lemma ReadyHere(cfg: Config, w: Which, s: State, b: State, payer: string, amount: nat, proof: PaymentProof)
    requires Tightest(cfg, w, payer) && Room(cfg, w, s, amount) && proof.TransferProof?
    requires CommittedTo(cfg, s, b, PATH, Over(amount), payer)
    ensures Ready(cfg, b, |s.commits|, proof)
  {
    AllowedHere(cfg, w, s, payer, amount);
    L.OnchainOffered(cfg, s, PATH, Over(amount).price, proof);
    L.ReadyWhenCommitted(cfg, s, b, PATH, Over(amount), payer, proof);
  }

  lemma BooksReady(cfg: Config, w: Which, s: State, b: State, payer: string, amount: nat, sig: string)
    requires Tightest(cfg, w, payer) && CommittedTo(cfg, s, b, PATH, Over(amount), payer)
    requires Known(b, |s.commits|) && QuoteOf(b, |s.commits|) == NewQuote(cfg, s, PATH, Over(amount).price)
    requires Ready(cfg, b, |s.commits|, TransferProof(sig, None))
    ensures BookedShape(w, s, Step(cfg, b, PostFinalize(|s.commits|, Some(TransferProof(sig, None)), [])), amount, sig)
  {
    Admits(cfg, b, |s.commits|, TransferProof(sig, None));
    BooksShape(cfg, w, s, b, Step(cfg, b, PostFinalize(|s.commits|, Some(TransferProof(sig, None)), [])), payer,
               amount, sig);
  }

  lemma AllowedHere(cfg: Config, w: Which, s: State, payer: string, amount: nat)
    requires Tightest(cfg, w, payer) && Room(cfg, w, s, amount)
    ensures CapsAllow(cfg, s, Over(amount).price.amount + Over(amount).price.fee, s.clock + Over(amount).pause)
  {
  }

  lemma BooksShape(cfg: Config, w: Which, s: State, b: State, a: State, payer: string, amount: nat, sig: string)
    requires Tightest(cfg, w, payer) && CommittedTo(cfg, s, b, PATH, Over(amount), payer)
    requires Known(b, |s.commits|) && QuoteOf(b, |s.commits|) == NewQuote(cfg, s, PATH, Over(amount).price)
    requires a == b.(drill := UsageAfterCheck(cfg.drill, b.drill, b.clock),
                     beta := UsageAfterCheck(cfg.beta, b.beta, b.clock),
                     threads := b.threads + [AwaitVerify(|s.commits|, TransferProof(sig, None))])
    ensures BookedShape(w, s, a, amount, sig)
  {
    assert a.threads ==
      s.threads + [Done(Quoted(|s.quotes|)), Done(Reply.Committed(|s.commits|)),
                   AwaitVerify(|s.commits|, TransferProof(sig, None))];
  }

  /** One more request in flight, due `amount`, and none on the way there. */
  lemma BookLevels(cfg: Config, w: Which, s: State, payer: string, amount: nat, sig: string, clock: nat, recorded: nat,
                   n: nat, due: nat)
    requires Tightest(cfg, w, payer) && amount <= MostTx(PolicyOf(cfg, w)) &&
      recorded + amount <= PolicyOf(cfg, w).daily
    requires Level(w, s, clock, recorded, n, due) && D.AllLinked(Booked(cfg, s, payer, amount, sig))
    ensures var a := Booked(cfg, s, payer, amount, sig);
            && BookedShape(w, s, a, amount, sig)
            && Level(w, a, clock, recorded, n + 1, due + amount) && UsageOf(a, w).finalized == recorded
    ensures InFlight(Asked(cfg, s, PATH, Over(amount)).threads) == n &&
      InFlight(Committed(cfg, s, payer, amount).threads) == n
  {
    Books(cfg, w, s, payer, amount, sig);
    ShapeLevels(w, s, Booked(cfg, s, payer, amount, sig), amount, sig, clock, recorded, n, due);
    AskedShape(cfg, s, amount);
    QuietSums(s, Asked(cfg, s, PATH, Over(amount)).threads, Done(Quoted(|s.quotes|)));
    TwoQuietSums(s, Committed(cfg, s, payer, amount).threads, Done(Quoted(|s.quotes|)),
                 Done(Reply.Committed(|s.commits|)));
  }

  lemma AskedShape(cfg: Config, s: State, amount: nat)
    ensures Asked(cfg, s, PATH, Over(amount)).threads == s.threads + [Done(Quoted(|s.quotes|))]
  {
  }

  lemma ShapeLevels(w: Which, s: State, a: State, amount: nat, sig: string, clock: nat, recorded: nat, n: nat, due: nat)
    requires Level(w, s, clock, recorded, n, due) && D.AllLinked(a) && BookedShape(w, s, a, amount, sig)
    ensures Level(w, a, clock, recorded, n + 1, due + amount) && UsageOf(a, w).finalized == recorded
  {
    BookSums(w, s, a, amount, sig);
  }

  lemma QuietSums(s: State, ts: seq<Thread>, t: Thread)
    requires ts == s.threads + [t] && !Counted(t)
    ensures InFlight(ts) == InFlight(s.threads)
  {
    AppendSums(s, s.threads, t);
  }

  lemma TwoQuietSums(s: State, ts: seq<Thread>, t: Thread, u: Thread)
    requires ts == s.threads + [t, u] && !Counted(t) && !Counted(u)
    ensures InFlight(ts) == InFlight(s.threads)
  {
    assert ts == (s.threads + [t]) + [u];
    AppendSums(s, s.threads, t);
    AppendSums(s, s.threads + [t], u);
  }

  lemma BookSums(w: Which, s: State, a: State, amount: nat, sig: string)
    requires D.AllLinked(s) && BookedShape(w, s, a, amount, sig)
    ensures InFlight(a.threads) == InFlight(s.threads) + 1 && AllDue(a, a.threads) == AllDue(s, s.threads) + amount
  {
    var t, u := Done(Quoted(|s.quotes|)), Done(Reply.Committed(|s.commits|));
    var v := AwaitVerify(|s.commits|, TransferProof(sig, None));
    AllDueKept(s, a);
    assert a.threads == ((s.threads + [t]) + [u]) + [v];
    AppendSums(a, s.threads, t);
    AppendSums(a, s.threads + [t], u);
    AppendSums(a, (s.threads + [t]) + [u], v);
  }

  ghost predicate PaidShape(cfg: Config, w: Which, a: State, e: State, r: nat, amount: nat) {
    && D.Extends(a, e) && e.clock == a.clock && |e.threads| == |a.threads| && r < |a.threads|
    && e.threads == a.threads[r := e.threads[r]] && e.threads[r].Done?
    && UsageOf(e, w) == UsageAfterRecord(PolicyOf(cfg, w), UsageOf(a, w), amount, a.clock)
    && UsageOf(e, Other(w)) == UsageAfterRecord(PolicyOf(cfg, Other(w)), UsageOf(a, Other(w)), amount, a.clock)
  }

  /** An unheard-of signature pays whatever is due. */
  lemma Pays(cfg: Config, w: Which, a: State, r: nat, c: nat, sig: string)
    requires r < |a.threads| && a.threads[r] == AwaitVerify(c, TransferProof(sig, None))
    requires Known(a, c) && L.Unheard(a.seen, sig)
    ensures PaidShape(cfg, w, a, Settles(cfg, a, r, L.Signed(sig).v), r, QuoteOf(a, c).total)
  {
    L.UnheardIsGood(a, QuoteOf(a, c), sig, a.clock);
    AwaitSettles(cfg, a, r, c, TransferProof(sig, None), L.Signed(sig).v);
    SettledIsPaid(cfg, w, a, Settles(cfg, a, r, L.Signed(sig).v), r, c, TransferProof(sig, None), L.Signed(sig).v);
  }

  lemma SettledIsPaid(cfg: Config, w: Which, a: State, e: State, r: nat, c: nat, proof: PaymentProof, v: Verification)
    requires Known(a, c) && r < |a.threads| && Settled(cfg, a, e, r, c, proof, v)
    ensures PaidShape(cfg, w, a, e, r, QuoteOf(a, c).total)
  {
  }

  lemma PaidLevels(cfg: Config, w: Which, s: State, a: State, e: State, payer: string, amount: nat, sig: string,
                   clock: nat, recorded: nat)
    requires Tightest(cfg, w, payer) && BookedShape(w, s, a, amount, sig)
    requires PaidShape(cfg, w, a, e, |s.threads| + 2, amount)
    requires Level(w, a, clock, recorded, 1, amount) && D.AllLinked(e)
    ensures Level(w, e, clock, recorded + amount, 0, 0)
  {
    var r := |s.threads| + 2;
    SwapSums(a, e, r, e.threads[r]);
    assert Due(a, a.threads[r]) == amount && Counted(a.threads[r]);
  }

  // ---- runs ---------------------------------------------------------------------------------------------

  /** A step that does not take the requests in flight above `k` extends the run. */
  lemma NeverMoreOn(cfg: Config, start: nat, es: seq<Event>, e: Event, k: nat)
    requires NeverMoreThan(cfg, start, es, k) && InFlight(Step(cfg, Run(cfg, start, es), e).threads) <= k
    ensures Run(cfg, start, es + [e]) == Step(cfg, Run(cfg, start, es), e) && NeverMoreThan(cfg, start, es + [e], k)
  {
    RunOne(cfg, start, es, e);
    OneMoreEvent(cfg, start, es, es + [e], k);
  }

  lemma RunOne(cfg: Config, start: nat, es: seq<Event>, e: Event)
    ensures Run(cfg, start, es + [e]) == Step(cfg, Run(cfg, start, es), e)
  {
    assert (es + [e])[..|es|] == es;
  }

  lemma OneMoreEvent(cfg: Config, start: nat, es: seq<Event>, more: seq<Event>, k: nat)
    requires NeverMoreThan(cfg, start, es, k) && |more| == |es| + 1 && more[..|es|] == es
    requires InFlight(Run(cfg, start, more).threads) <= k
    ensures NeverMoreThan(cfg, start, more, k)
  {
    forall n | 0 <= n <= |more|
      ensures InFlight(Run(cfg, start, more[..n]).threads) <= k
    {
      if n == |more| {
        assert more[..n] == more;
      } else {
        assert more[..n] == es[..n];
      }
    }
  }

  lemma BookRuns(cfg: Config, w: Which, start: nat, es: seq<Event>, k: nat, payer: string, amount: nat, sig: string)
    returns (more: seq<Event>)
    requires NeverMoreThan(cfg, start, es, k)
    requires var s := Run(cfg, start, es);
             && InFlight(s.threads) < k && InFlight(Asked(cfg, s, PATH, Over(amount)).threads) < k
             && InFlight(Committed(cfg, s, payer, amount).threads) < k &&
                InFlight(Booked(cfg, s, payer, amount, sig).threads) <= k
    ensures NeverMoreThan(cfg, start, more, k) &&
      Run(cfg, start, more) == Booked(cfg, Run(cfg, start, es), payer, amount, sig)
  {
    var s := Run(cfg, start, es);
    var e1, e2 := Get(PATH, None, None, Over(amount).price), Tick(0);
    var e3, e4 := PostCommit(|s.quotes|, payer), PostFinalize(|s.commits|, Some(TransferProof(sig, None)), []);
    NeverMoreOn(cfg, start, es, e1, k);
    TickSame(cfg, Asked(cfg, s, PATH, Over(amount)));
    NeverMoreOn(cfg, start, es + [e1], e2, k);
    NeverMoreOn(cfg, start, es + [e1] + [e2], e3, k);
    NeverMoreOn(cfg, start, es + [e1] + [e2] + [e3], e4, k);
    more := es + [e1] + [e2] + [e3] + [e4];
  }

  lemma TickSame(cfg: Config, s: State)
    ensures Step(cfg, s, Tick(0)).threads == s.threads
  {
  }

  /** A run with at most `k` in flight that ends at this level. */
  ghost predicate RunsTo(cfg: Config, w: Which, start: nat, es: seq<Event>, k: nat, recorded: nat, n: nat, due: nat) {
    NeverMoreThan(cfg, start, es, k) && Level(w, Run(cfg, start, es), start, recorded, n, due)
  }

  lemma BookOne(cfg: Config, w: Which, start: nat, es: seq<Event>, k: nat, payer: string, amount: nat,
                sig: string, recorded: nat, n: nat, due: nat) returns (more: seq<Event>)
    requires Tightest(cfg, w, payer) && amount <= MostTx(PolicyOf(cfg, w)) &&
      recorded + amount <= PolicyOf(cfg, w).daily
    requires RunsTo(cfg, w, start, es, k, recorded, n, due) && n < k
    ensures RunsTo(cfg, w, start, more, k, recorded, n + 1, due + amount)
    ensures BookedShape(w, Run(cfg, start, es), Run(cfg, start, more), amount, sig)
    ensures Run(cfg, start, more) == Booked(cfg, Run(cfg, start, es), payer, amount, sig)
    ensures UsageOf(Run(cfg, start, more), w).finalized == recorded
  {
    var s := Run(cfg, start, es);
    BookedLinked(cfg, start, es, payer, amount, sig);
    BookLevels(cfg, w, s, payer, amount, sig, start, recorded, n, due);
    more := BookRuns(cfg, w, start, es, k, payer, amount, sig);
  }

  lemma BookedLinked(cfg: Config, start: nat, es: seq<Event>, payer: string, amount: nat, sig: string)
    ensures D.AllLinked(Booked(cfg, Run(cfg, start, es), payer, amount, sig))
  {
    var s := Run(cfg, start, es);
    D.RunLinks(cfg, start, es);
    D.StepLinks(cfg, s, Get(PATH, None, None, Over(amount).price));
    var a := Asked(cfg, s, PATH, Over(amount));
    D.StepLinks(cfg, a, Tick(0));
    D.StepLinks(cfg, Step(cfg, a, Tick(0)), PostCommit(|s.quotes|, payer));
    D.StepLinks(cfg, Committed(cfg, s, payer, amount), PostFinalize(|s.commits|, Some(TransferProof(sig, None)), []));
  }

  /** The steps of one request change no other thread. */
  lemma OneThread(cfg: Config, s: State, e: Event, r: nat)
    requires r < |s.threads| && ((e.Verdict? && e.r == r) || (e.Resume? && e.r == r))
    ensures var s' := Step(cfg, s, e); |s'.threads| == |s.threads| && s'.threads == s.threads[r := s'.threads[r]]
  {
    if Runnable(s, s.threads[r]) {
      if e.Verdict? {
        PerformOne(cfg, s, r, OnVerdict(cfg, s, s.threads[r], e.v, e.guard));
      } else {
        PerformOne(cfg, s, r, OnResume(s, s.threads[r], e.guard));
      }
    }
  }

  lemma PerformOne(cfg: Config, s: State, r: nat, f: Effect)
    requires r < |s.threads| && Fits(s, f)
    ensures var s' := Perform(cfg, s, r, f); |s'.threads| == |s.threads| && s'.threads == s.threads[r := s'.threads[r]]
  {
  }

  /** Another step of the request that was in flight in `a` keeps the run within `k`. */
  lemma SameRequestOn(cfg: Config, start: nat, a: State, es: seq<Event>, e: Event, r: nat, k: nat)
    requires r < |a.threads| && Counted(a.threads[r]) && InFlight(a.threads) <= k && NeverMoreThan(cfg, start, es, k)
    requires var s := Run(cfg, start, es); |s.threads| == |a.threads| && s.threads == a.threads[r := s.threads[r]]
    requires (e.Verdict? && e.r == r) || (e.Resume? && e.r == r)
    ensures Run(cfg, start, es + [e]) == Step(cfg, Run(cfg, start, es), e) && NeverMoreThan(cfg, start, es + [e], k)
    ensures var s := Step(cfg, Run(cfg, start, es), e);
            |s.threads| == |a.threads| && s.threads == a.threads[r := s.threads[r]]
  {
    var s := Run(cfg, start, es);
    OneThread(cfg, s, e, r);
    var t := Step(cfg, s, e).threads[r];
    assert s.threads[r := t] == a.threads[r := t];
    UpdateSums(a, a.threads, r, t);
    NeverMoreOn(cfg, start, es, e, k);
  }

  /** The verdict on a request in flight, and what follows it, keep the run within `k`. */
  lemma SettlesRuns(cfg: Config, start: nat, es: seq<Event>, r: nat, v: Verification, k: nat) returns (more: seq<Event>)
    requires NeverMoreThan(cfg, start, es, k)
    requires var a := Run(cfg, start, es); r < |a.threads| && Counted(a.threads[r]) && InFlight(a.threads) <= k
    ensures NeverMoreThan(cfg, start, more, k) && Run(cfg, start, more) == Settles(cfg, Run(cfg, start, es), r, v)
  {
    var a, e := Run(cfg, start, es), Resume(r, Pass);
    more := es + [Verdict(r, v, Pass)];
    SameRequestOn(cfg, start, a, es, Verdict(r, v, Pass), r, k);
    SameRequestOn(cfg, start, a, more, e, r, k);
    SameRequestOn(cfg, start, a, more + [e], e, r, k);
    SameRequestOn(cfg, start, a, more + [e] + [e], e, r, k);
    more := more + [e] + [e] + [e];
  }

  lemma PayOne(cfg: Config, w: Which, start: nat, es: seq<Event>, k: nat, payer: string, amount: nat, recorded: nat)
    returns (more: seq<Event>)
    requires Tightest(cfg, w, payer) && amount <= MostTx(PolicyOf(cfg, w)) &&
      recorded + amount <= PolicyOf(cfg, w).daily
    requires RunsTo(cfg, w, start, es, k, recorded, 0, 0) && k >= 1
    ensures RunsTo(cfg, w, start, more, k, recorded + amount, 0, 0)
  {
    var s := Run(cfg, start, es);
    var sig := L.UnheardExists(s.seen);
    more := BookOne(cfg, w, start, es, k, payer, amount, sig, recorded, 0, 0);
    more := PayBooked(cfg, w, start, s, more, k, payer, amount, sig, recorded);
  }

  lemma PayBooked(cfg: Config, w: Which, start: nat, s: State, es: seq<Event>, k: nat, payer: string, amount: nat,
                  sig: string, recorded: nat) returns (more: seq<Event>)
    requires Tightest(cfg, w, payer) && BookedShape(w, s, Run(cfg, start, es), amount, sig) && L.Unheard(s.seen, sig)
    requires RunsTo(cfg, w, start, es, k, recorded, 1, amount) && k >= 1
    ensures RunsTo(cfg, w, start, more, k, recorded + amount, 0, 0)
  {
    var a, r, v := Run(cfg, start, es), |s.threads| + 2, L.Signed(sig).v;
    Pays(cfg, w, a, r, |s.commits|, sig);
    more := SettlesRuns(cfg, start, es, r, v, k);
    D.RunLinks(cfg, start, more);
    PaidLevels(cfg, w, s, a, Settles(cfg, a, r, v), payer, amount, sig, start, recorded);
  }

  /** One payment after the other can bring the day to any total within the cap. */
  lemma {:induction false} FillDay(cfg: Config, w: Which, start: nat, k: nat, payer: string, total: nat)
    returns (es: seq<Event>)
    requires Tightest(cfg, w, payer) && total <= PolicyOf(cfg, w).daily && k >= 1
    ensures RunsTo(cfg, w, start, es, k, total, 0, 0)
    decreases total
  {
    if total == 0 {
      es := [];
      D.RunLinks(cfg, start, []);
    } else {
      var m := MostTx(PolicyOf(cfg, w));
      var part := if total < m then total else m;
      es := FillDay(cfg, w, start, k, payer, total - part);
      es := PayOne(cfg, w, start, es, k, payer, part, total - part);
    }
  }

  /** `n` times `m`. */
  function Times(n: nat, m: nat): nat {
    if n == 0 then 0 else Times(n - 1, m) + m
  }

  lemma {:induction false} TimesIs(n: nat, m: nat)
    ensures Times(n, m) == n * m
  {
    if n > 0 {
      TimesIs(n - 1, m);
      OneMore(n - 1, m);
    }
  }

  /** `n` requests of the largest amount are let in before any is recorded. */
  lemma {:induction false} BookMany(cfg: Config, w: Which, start: nat, before: seq<Event>, k: nat, payer: string,
                                    recorded: nat, n: nat) returns (es: seq<Event>)
    requires Tightest(cfg, w, payer) && recorded + MostTx(PolicyOf(cfg, w)) <= PolicyOf(cfg, w).daily && 1 <= n <= k
    requires RunsTo(cfg, w, start, before, k, recorded, 0, 0)
    ensures RunsTo(cfg, w, start, es, k, recorded, n, Times(n, MostTx(PolicyOf(cfg, w))))
    ensures UsageOf(Run(cfg, start, es), w).finalized == recorded
    decreases n
  {
    var m := MostTx(PolicyOf(cfg, w));
    es := before;
    if n > 1 {
      es := BookMany(cfg, w, start, before, k, payer, recorded, n - 1);
    }
    es := BookOne(cfg, w, start, es, k, payer, m, "s", recorded, n - 1, Times(n - 1, m));
  }

  /** The bound is exact: for every `k` some run with at most `k` requests in flight attains it. */
  lemma DailyBoundAttained(cfg: Config, w: Which, start: nat, k: nat, payer: string) returns (es: seq<Event>)
    requires Tightest(cfg, w, payer) && k >= 1
    ensures NeverMoreThan(cfg, start, es, k)
    ensures var s := Run(cfg, start, es);
            UsageOf(s, w).finalized + AllDue(s, s.threads) == Ceiling(PolicyOf(cfg, w), k)
  {
    var p := PolicyOf(cfg, w);
    var filled := FillDay(cfg, w, start, k, payer, p.daily - MostTx(p));
    es := BookMany(cfg, w, start, filled, k, payer, p.daily - MostTx(p), k);
    TimesIs(k, MostTx(p));
    OneMore(k - 1, MostTx(p));
  }
}
