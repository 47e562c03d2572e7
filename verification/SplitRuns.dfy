/**
 * The steps of a direct-split request in the state machine, when nobody interrupts them, do what
 * the uninterrupted call does: all or nothing (x402/src/server.ts).
 */
module SplitRuns {
  import opened Protocol
  import opened DirectSplit
  import opened Settling
  import RS = ReplayStore

  /** `k` times in a row. */
  function Iterate(f: State -> State, s: State, k: nat): State
    decreases k
  {
    if k == 0 then s else Iterate(f, f(s), k - 1)
  }

  lemma {:induction false} IterateOn(f: State -> State, s: State, a: nat, b: nat)
    ensures Iterate(f, s, a + b) == Iterate(f, Iterate(f, s, a), b)
    decreases a
  {
    if a > 0 {
      IterateOn(f, f(s), a - 1, b);
    }
  }

  /** What every application of `f` keeps, `k` of them keep. */
  lemma {:induction false} IterateKeeps(f: State -> State, p: State -> bool, s: State, k: nat)
    requires p(s) && forall e :: p(e) ==> p(f(e))
    ensures p(Iterate(f, s, k))
    decreases k
  {
    if k > 0 {
      IterateKeeps(f, p, f(s), k - 1);
    }
  }

  /** Request `r` resumes. */
  function Resumed(cfg: Config, r: nat): State -> State {
    s => Step(cfg, s, Resume(r, Pass))
  }

  function Go(cfg: Config, s: State, r: nat, k: nat): State {
    Iterate(Resumed(cfg, r), s, k)
  }

  /** `e` is reached from `s` by resumptions of request `r` alone. */
  ghost predicate Leads(cfg: Config, s: State, e: State, r: nat) {
    exists k: nat :: e == Go(cfg, s, r, k)
  }

  lemma LeadsOn(cfg: Config, s: State, e: State, f: State, r: nat)
    requires Leads(cfg, s, e, r) && Leads(cfg, e, f, r)
    ensures Leads(cfg, s, f, r)
  {
    var a: nat :| e == Go(cfg, s, r, a);
    var b: nat :| f == Go(cfg, e, r, b);
    IterateOn(Resumed(cfg, r), s, a, b);
    assert f == Go(cfg, s, r, a + b);
  }

  lemma NextLeads(cfg: Config, s: State, r: nat)
    ensures Leads(cfg, s, Step(cfg, s, Resume(r, Pass)), r)
  {
    GoOnce(cfg, s, r);
  }

  lemma GoFirst(cfg: Config, s: State, r: nat, k: nat)
    requires k > 0
    ensures Go(cfg, s, r, k) == Go(cfg, Step(cfg, s, Resume(r, Pass)), r, k - 1)
  {
  }

  lemma GoOnce(cfg: Config, s: State, r: nat)
    ensures Go(cfg, s, r, 1) == Step(cfg, s, Resume(r, Pass))
  {
    var f := Resumed(cfg, r);
    assert Iterate(f, s, 1) == Iterate(f, f(s), 0);
  }

  lemma AloneTwice(s: State, a: State, b: State, r: nat)
    requires Alone(s, a, r) && Alone(a, b, r)
    ensures Alone(s, b, r)
  {
  }

  /** Thread `r` works on verified lines of distinct signatures for a known commit. */
  ghost predicate Sane(s: State, r: nat, c: nat, lines: seq<SplitLine>) {
    r < |s.threads| && Known(s, c) && AllVerified(lines) && DistinctSignatures(lines) && lines != []
  }

  function Mint(s: State, c: nat): string
    requires Known(s, c)
  {
    QuoteOf(s, c).mint
  }

  // ---- the pre-check ---------------------------------------------------------------------------

  function KeyAt(s: State, c: nat, lines: seq<SplitLine>, j: nat, scoped: bool): RS.ReplayKey
    requires Known(s, c) && AllVerified(lines) && j < |lines|
  {
    if scoped then LineScopedKey(Mint(s, c), lines[j]) else LineKey(lines[j])
  }

  /** The keys that the pre-check has still to look at are free. */
  ghost predicate FreeFrom(s: State, c: nat, lines: seq<SplitLine>, j: nat, scoped: bool)
    requires Known(s, c) && AllVerified(lines) && j < |lines|
  {
    && (!scoped ==> Free(s, LineKey(lines[j]))) && Free(s, LineScopedKey(Mint(s, c), lines[j]))
    && forall i :: j < i < |lines| ==> Free(s, LineKey(lines[i])) && Free(s, LineScopedKey(Mint(s, c), lines[i]))
  }

  /** What the pre-check leads to. */
  ghost predicate Checked(cfg: Config, s: State, e: State, r: nat, c: nat, lines: seq<SplitLine>, free: bool)
    requires Sane(s, r, c, lines)
  {
    && Alone(s, e, r)
    && if free && ValidSplit(lines) then
         && e.threads[r] == SplitClaim(c, lines, 0, false, Free(s, LineKey(lines[0])))
         && e.seen == RS.Claim(s.seen, LineKey(lines[0]), s.clock, cfg.replayTtlMs)
       else
         e.threads[r].Done? && e.threads[r].reply.Refused? && RS.Cleanup(e.seen, s.clock) == RS.Cleanup(s.seen, s.clock)
  }

  /** One look at a key: it is claimed, or the next one is up, or the claims begin. */
  lemma LookOnce(cfg: Config, s: State, r: nat, c: nat, lines: seq<SplitLine>, j: nat, scoped: bool)
    requires Sane(s, r, c, lines) && j < |lines|
    requires s.threads[r] == SplitCheck(c, lines, j, scoped, !Free(s, KeyAt(s, c, lines, j, scoped)))
    ensures var e := Step(cfg, s, Resume(r, Pass));
            if Free(s, KeyAt(s, c, lines, j, scoped)) && (!scoped || j + 1 < |lines|) then
              && Alone(s, e, r) && e.seen == RS.Cleanup(s.seen, s.clock)
              && e.threads[r] == if scoped then SplitCheck(c, lines, j + 1, false, !Free(s, LineKey(lines[j + 1])))
                                 else SplitCheck(c, lines, j, true, !Free(s, LineScopedKey(Mint(s, c), lines[j])))
            else Checked(cfg, s, e, r, c, lines, Free(s, KeyAt(s, c, lines, j, scoped)))
  {
    Resumes(cfg, s, r);
  }

  lemma {:induction false} CheckPhase(cfg: Config, s: State, r: nat, c: nat, lines: seq<SplitLine>, j: nat,
                                      scoped: bool)
    returns (f: State)
    requires Sane(s, r, c, lines) && j < |lines|
    requires s.threads[r] == SplitCheck(c, lines, j, scoped, !Free(s, KeyAt(s, c, lines, j, scoped)))
    ensures Leads(cfg, s, f, r) && Checked(cfg, s, f, r, c, lines, FreeFrom(s, c, lines, j, scoped))
    decreases |lines| - j, !scoped
  {
    var e := Step(cfg, s, Resume(r, Pass));
    f := e;
    LookOnce(cfg, s, r, c, lines, j, scoped);
    NextLeads(cfg, s, r);
    if Free(s, KeyAt(s, c, lines, j, scoped)) && (!scoped || j + 1 < |lines|) {
      f := CheckPhase(cfg, e, r, c, lines, if scoped then j + 1 else j, !scoped);
      LeadsOn(cfg, s, e, f, r);
      SameFromHere(cfg, s, e, f, r, c, lines, j, scoped);
    }
  }

  /** Dropping expired keys changes no answer. */
  lemma SameFromHere(cfg: Config, s: State, e: State, f: State, r: nat, c: nat, lines: seq<SplitLine>, j: nat,
                     scoped: bool)
    requires Sane(s, r, c, lines) && j < |lines| && Alone(s, e, r) && e.seen == RS.Cleanup(s.seen, s.clock)
    requires Free(s, KeyAt(s, c, lines, j, scoped)) && (!scoped || j + 1 < |lines|)
    requires Checked(cfg, e, f, r, c, lines, FreeFrom(e, c, lines, if scoped then j + 1 else j, !scoped))
    ensures Checked(cfg, s, f, r, c, lines, FreeFrom(s, c, lines, j, scoped))
  {
    assert forall key :: Free(e, key) <==> Free(s, key);
    assert FreeFrom(e, c, lines, if scoped then j + 1 else j, !scoped) <==> FreeFrom(s, c, lines, j, scoped);
    assert RS.Cleanup(e.seen, s.clock) == RS.Cleanup(s.seen, s.clock);
  }

  // ---- the claims ----------------------------------------------------------------------------------

  /** A clock that stands still, as it does while nothing but resumptions happens. */
  function Still(t: nat): Clock {
    _ => t
  }

  /** The claims of the first `n` lines have been added to those of `before`, at time `t`. */
  ghost predicate Added(mint: string, ttl: nat, t: nat, before: RS.Seen, after: RS.Seen, lines: seq<SplitLine>, n: nat)
    requires AllVerified(lines) && n <= |lines|
  {
    AddedClaims(before, after, mint, lines, n, Still(t), ttl, t)
  }

  ghost predicate NoneClaimed(mint: string, t: nat, before: RS.Seen, lines: seq<SplitLine>)
    requires AllVerified(lines)
  {
    Unclaimed(before, mint, lines, Still(t))
  }

  /** Both claims of line `n` succeed. */
  lemma LineSucceeds(mint: string, ttl: nat, t: nat, before: RS.Seen, seen: RS.Seen, lines: seq<SplitLine>, n: nat)
    requires AllVerified(lines) && DistinctSignatures(lines) && n < |lines|
    requires NoneClaimed(mint, t, before, lines) && Added(mint, ttl, t, before, seen, lines, n)
    ensures var g, x := LineKey(lines[n]), LineScopedKey(mint, lines[n]);
            var one := RS.Claim(seen, g, t, ttl);
            && !RS.Claimed(seen, g, t) && !RS.Claimed(one, x, t)
            && Added(mint, ttl, t, before, RS.Claim(one, x, t, ttl), lines, n + 1)
  {
    ClaimLine(before, seen, mint, lines, n, Still(t), ttl, t);
  }

  lemma ClaimScoped(cfg: Config, s: State, r: nat, c: nat, lines: seq<SplitLine>, j: nat)
    requires Sane(s, r, c, lines) && j < |lines| && s.threads[r] == SplitClaim(c, lines, j, false, true)
    requires Free(s, LineScopedKey(Mint(s, c), lines[j]))
    ensures var e := Step(cfg, s, Resume(r, Pass));
            && Alone(s, e, r) && e.threads[r] == SplitClaim(c, lines, j, true, true)
            && e.seen == RS.Claim(s.seen, LineScopedKey(Mint(s, c), lines[j]), s.clock, cfg.replayTtlMs)
  {
    Resumes(cfg, s, r);
  }

  lemma ClaimNext(cfg: Config, s: State, r: nat, c: nat, lines: seq<SplitLine>, j: nat)
    requires Sane(s, r, c, lines) && j < |lines| && s.threads[r] == SplitClaim(c, lines, j, true, true)
    ensures var e := Step(cfg, s, Resume(r, Pass));
            && Alone(s, e, r)
            && if j + 1 < |lines| then
                 && e.threads[r] == SplitClaim(c, lines, j + 1, false, Free(s, LineKey(lines[j + 1])))
                 && e.seen == RS.Claim(s.seen, LineKey(lines[j + 1]), s.clock, cfg.replayTtlMs)
               else e.threads[r] == SplitReturn(c, lines) && e.seen == s.seen
  {
    Resumes(cfg, s, r);
  }

  /** Two steps: the second key of line `j`, and on to the next line or to the end. */
  lemma ClaimTwice(cfg: Config, s: State, r: nat, c: nat, lines: seq<SplitLine>, j: nat)
    requires Sane(s, r, c, lines) && j < |lines| && s.threads[r] == SplitClaim(c, lines, j, false, true)
    requires Free(s, LineScopedKey(Mint(s, c), lines[j]))
    ensures var seen := RS.Claim(s.seen, LineScopedKey(Mint(s, c), lines[j]), s.clock, cfg.replayTtlMs);
            var e := Step(cfg, Step(cfg, s, Resume(r, Pass)), Resume(r, Pass));
            && Alone(s, e, r)
            && if j + 1 < |lines| then
                 && e.threads[r] == SplitClaim(c, lines, j + 1, false,
                                               !RS.Claimed(seen, LineKey(lines[j + 1]), s.clock))
                 && e.seen == RS.Claim(seen, LineKey(lines[j + 1]), s.clock, cfg.replayTtlMs)
               else e.threads[r] == SplitReturn(c, lines) && e.seen == seen
  {
    ClaimScoped(cfg, s, r, c, lines, j);
    var one := Step(cfg, s, Resume(r, Pass));
    ClaimNext(cfg, one, r, c, lines, j);
    AloneTwice(s, one, Step(cfg, one, Resume(r, Pass)), r);
  }

  /** The claims have gone through. */
  ghost predicate Through(cfg: Config, s: State, e: State, before: RS.Seen, r: nat, c: nat, lines: seq<SplitLine>)
    requires Sane(s, r, c, lines)
  {
    && Alone(s, e, r) && e.threads[r] == SplitReturn(c, lines)
    && Added(Mint(s, c), cfg.replayTtlMs, s.clock, before, e.seen, lines, |lines|)
  }

  /** The lines before `j` are claimed, and so is the first key of line `j`. */
  ghost predicate AtLine(cfg: Config, s: State, before: RS.Seen, seen: RS.Seen, r: nat, c: nat,
                         lines: seq<SplitLine>, j: nat) {
    && Sane(s, r, c, lines) && j < |lines| && s.threads[r] == SplitClaim(c, lines, j, false, true)
    && NoneClaimed(Mint(s, c), s.clock, before, lines) &&
       Added(Mint(s, c), cfg.replayTtlMs, s.clock, before, seen, lines, j)
    && s.seen == RS.Claim(seen, LineKey(lines[j]), s.clock, cfg.replayTtlMs)
  }

  lemma ClaimAdvances(cfg: Config, s: State, before: RS.Seen, seen: RS.Seen, r: nat, c: nat, lines: seq<SplitLine>,
                      j: nat)
    returns (e: State, both: RS.Seen)
    requires AtLine(cfg, s, before, seen, r, c, lines, j)
    ensures Leads(cfg, s, e, r) && Alone(s, e, r)
    ensures if j + 1 < |lines| then AtLine(cfg, e, before, both, r, c, lines, j + 1)
      else Through(cfg, s, e, before, r, c, lines)
  {
    var mint, ttl, t := Mint(s, c), cfg.replayTtlMs, s.clock;
    both := RS.Claim(s.seen, LineScopedKey(mint, lines[j]), t, ttl);
    e := Step(cfg, Step(cfg, s, Resume(r, Pass)), Resume(r, Pass));
    TwoLead(cfg, s, r);
    LineSucceeds(mint, ttl, t, before, seen, lines, j);
    ClaimTwice(cfg, s, r, c, lines, j);
    if j + 1 < |lines| {
      LineSucceeds(mint, ttl, t, before, both, lines, j + 1);
    }
  }

  lemma ThroughFromHere(cfg: Config, s: State, e: State, f: State, before: RS.Seen, r: nat, c: nat,
                        lines: seq<SplitLine>)
    requires Sane(s, r, c, lines) && Sane(e, r, c, lines) && Alone(s, e, r) && Through(cfg, e, f, before, r, c, lines)
    ensures Through(cfg, s, f, before, r, c, lines)
  {
    AloneTwice(s, e, f, r);
  }

  lemma {:induction false} ClaimPhase(cfg: Config, s: State, before: RS.Seen, seen: RS.Seen, r: nat, c: nat,
                                      lines: seq<SplitLine>, j: nat)
    returns (f: State)
    requires AtLine(cfg, s, before, seen, r, c, lines, j)
    ensures Leads(cfg, s, f, r) && Through(cfg, s, f, before, r, c, lines)
    decreases |lines| - j
  {
    var e, both := ClaimAdvances(cfg, s, before, seen, r, c, lines, j);
    f := e;
    if j + 1 < |lines| {
      f := ClaimPhase(cfg, e, before, both, r, c, lines, j + 1);
      LeadsOn(cfg, s, e, f, r);
      ThroughFromHere(cfg, s, e, f, before, r, c, lines);
    }
  }

  lemma TwoLead(cfg: Config, s: State, r: nat)
    ensures Leads(cfg, s, Step(cfg, Step(cfg, s, Resume(r, Pass)), Resume(r, Pass)), r)
  {
    var e := Step(cfg, s, Resume(r, Pass));
    NextLeads(cfg, s, r);
    NextLeads(cfg, e, r);
    LeadsOn(cfg, s, e, Step(cfg, e, Resume(r, Pass)), r);
  }

  // ---- the whole request -------------------------------------------------------------------------------

  /**
   * A direct-split request whose lines are verified, left alone: if no key was claimed and the
   * lines are valid it comes through with exactly its own keys claimed, otherwise it is refused
   * and no claim has changed. These are the outcomes of the uninterrupted call.
   */
  lemma UninterruptedSplit(cfg: Config, s: State, r: nat, c: nat, lines: seq<SplitLine>) returns (f: State)
    requires Sane(s, r, c, lines) && s.threads[r] == SplitCheck(c, lines, 0, false, !Free(s, LineKey(lines[0])))
    ensures Leads(cfg, s, f, r) && Decided(cfg, s, f, r, c, lines)
  {
    var e := CheckPhase(cfg, s, r, c, lines, 0, false);
    f := AfterCheck(cfg, s, e, r, c, lines);
    LeadsOn(cfg, s, e, f, r);
  }

  /** Through with every key claimed, or refused with no claim changed. */
  ghost predicate Decided(cfg: Config, s: State, e: State, r: nat, c: nat, lines: seq<SplitLine>)
    requires Sane(s, r, c, lines)
  {
    if NoneClaimed(Mint(s, c), s.clock, s.seen, lines) && ValidSplit(lines) then Through(cfg, s, e, s.seen, r, c, lines)
    else Alone(s, e, r) && e.threads[r].Done? && e.threads[r].reply.Refused? && SameClaims(s.seen, e.seen, s.clock)
  }

  lemma AfterCheck(cfg: Config, s: State, e: State, r: nat, c: nat, lines: seq<SplitLine>) returns (f: State)
    requires Sane(s, r, c, lines) && Checked(cfg, s, e, r, c, lines, FreeFrom(s, c, lines, 0, false))
    ensures Leads(cfg, e, f, r) && Decided(cfg, s, f, r, c, lines)
  {
    FreeMeansUnclaimed(s, c, lines);
    if NoneClaimed(Mint(s, c), s.clock, s.seen, lines) && ValidSplit(lines) {
      ClaimsBegin(cfg, s, e, r, c, lines);
      f := ClaimPhase(cfg, e, s.seen, s.seen, r, c, lines, 0);
      ThroughFromHere(cfg, s, e, f, s.seen, r, c, lines);
    } else {
      f := e;
      assert e == Go(cfg, e, r, 0);
      SameCleanup(s.seen, e.seen, s.clock);
    }
  }

  lemma ClaimsBegin(cfg: Config, s: State, e: State, r: nat, c: nat, lines: seq<SplitLine>)
    requires Sane(s, r, c, lines) && NoneClaimed(Mint(s, c), s.clock, s.seen, lines) && ValidSplit(lines)
    requires Checked(cfg, s, e, r, c, lines, true)
    ensures AtLine(cfg, e, s.seen, s.seen, r, c, lines, 0)
  {
    assert !RS.Claimed(s.seen, LineKey(lines[0]), Still(s.clock)(2 * 0));
  }

  lemma FreeMeansUnclaimed(s: State, c: nat, lines: seq<SplitLine>)
    requires Known(s, c) && AllVerified(lines) && lines != []
    ensures FreeFrom(s, c, lines, 0, false) <==> NoneClaimed(Mint(s, c), s.clock, s.seen, lines)
  {
    if FreeFrom(s, c, lines, 0, false) {
      forall j | 0 <= j < |lines|
        ensures Free(s, LineKey(lines[j])) && Free(s, LineScopedKey(Mint(s, c), lines[j]))
      {
        assert j == 0 || 0 < j;
      }
    }
  }

  lemma SameCleanup(a: RS.Seen, b: RS.Seen, t: nat)
    requires RS.Cleanup(a, t) == RS.Cleanup(b, t)
    ensures SameClaims(a, b, t)
  {
    forall k, u: nat | u >= t
      ensures RS.Claimed(b, k, u) <==> RS.Claimed(a, k, u)
    {
      assert k in RS.Cleanup(a, t) <==> k in RS.Cleanup(b, t);
      assert k in RS.Cleanup(a, t) ==> RS.Cleanup(a, t)[k] == RS.Cleanup(b, t)[k];
    }
  }
}
