/**
 * One direct-split verification that no other request interrupts: all or nothing
 * (`verifyDirectSplitProofs` of x402/src/server.ts). `Protocol` cuts the same code at its awaits.
 */
module DirectSplit {
  import opened Common
  import opened Types
  import opened Protocol
  import RS = ReplayStore

  datatype Outcome =
    | Proven(primary: PaymentProof, v: Verification, proofs: seq<SplitProof>)
    | Rejected(status: nat, commitFailed: bool)

  /** The verifier's answer for each line in turn, and the clock at each look. */
  type Answers = nat -> Verification
  type Clock = nat -> nat

  ghost predicate Advances(now: Clock) {
    forall i: nat, j: nat :: i <= j ==> now(i) <= now(j)
  }

  // ---- what a payable request is ---------------------------------------------------------------

  predicate HasTransfer(q: Quote, proofs: map<string, PaymentProof>, i: nat)
    requires i < |q.split|
  {
    q.split[i].feeLineId in proofs && proofs[q.split[i].feeLineId].TransferProof?
  }

  predicate Affirmed(answers: Answers, i: nat) {
    answers(i).ok && Present(answers(i).txSignature)
  }

  /** The first `n` lines have transfer proofs that verify, under different signatures. */
  predicate Proved(q: Quote, proofs: map<string, PaymentProof>, answers: Answers, n: nat)
    requires n <= |q.split|
  {
    && (forall i :: 0 <= i < n ==> HasTransfer(q, proofs, i) && Affirmed(answers, i))
    && (forall i, j :: 0 <= i < j < n ==> answers(i).txSignature != answers(j).txSignature)
  }

  /** Some line's proof is refused by the verifier after all earlier lines went well. */
  ghost predicate Denied(q: Quote, proofs: map<string, PaymentProof>, answers: Answers) {
    exists n :: 0 <= n < |q.split| && Proved(q, proofs, answers, n) && HasTransfer(q, proofs, n) &&
      !Affirmed(answers, n)
  }

  function LineAt(q: Quote, proofs: map<string, PaymentProof>, answers: Answers, i: nat): (line: SplitLine)
    requires i < |q.split| && HasTransfer(q, proofs, i)
    ensures Affirmed(answers, i) ==> Verified(line)
  {
    SplitLine(q.split[i], proofs[q.split[i].feeLineId], answers(i))
  }

  function LinesOf(q: Quote, proofs: map<string, PaymentProof>, answers: Answers, n: nat): (lines: seq<SplitLine>)
    requires n <= |q.split| && Proved(q, proofs, answers, n)
    ensures |lines| == n && AllVerified(lines) && DistinctSignatures(lines)
    ensures forall i :: 0 <= i < n ==> lines[i] == LineAt(q, proofs, answers, i)
  {
    if n == 0 then [] else LinesOf(q, proofs, answers, n - 1) + [LineAt(q, proofs, answers, n - 1)]
  }

  predicate DistinctSignatures(lines: seq<SplitLine>) {
    forall i, j :: 0 <= i < j < |lines| ==> lines[i].v.txSignature != lines[j].v.txSignature
  }

  /** No key of the lines is claimed when the pre-check looks. */
  ghost predicate Unclaimed(seen: RS.Seen, mint: string, lines: seq<SplitLine>, now: Clock)
    requires AllVerified(lines)
  {
    forall j :: 0 <= j < |lines| ==>
      !RS.Claimed(seen, LineKey(lines[j]), now(2 * j)) &&
        !RS.Claimed(seen, LineScopedKey(mint, lines[j]), now(2 * j + 1))
  }

  /** Exactly what the buyer has to bring. */
  ghost predicate Payable(seen: RS.Seen, q: Quote, items: seq<(string, PaymentProof)>, answers: Answers, now: Clock) {
    && q.split != [] && NoRepeats(items)
    && var proofs := ByFeeLine(items);
       && Proved(q, proofs, answers, |q.split|)
       && Unclaimed(seen, q.mint, LinesOf(q, proofs, answers, |q.split|), now)
       && ValidSplit(LinesOf(q, proofs, answers, |q.split|))
  }

  // ---- what payable means, spelled out ---------------------------------------------------------------

  /** Items under different fee lines: the one for a line is found under it. */
  lemma {:induction false} FiledUnder(items: seq<(string, PaymentProof)>, k: string)
    requires NoRepeats(items)
    ensures k in ByFeeLine(items) <==> exists a :: 0 <= a < |items| && items[a].0 == k
    ensures forall a :: 0 <= a < |items| && items[a].0 == k ==>
              k in ByFeeLine(items) && ByFeeLine(items)[k] == items[a].1
  {
    if items != [] {
      var init, last := items[..|items| - 1], items[|items| - 1];
      FiledUnder(init, k);
      assert forall a :: 0 <= a < |init| ==> init[a] == items[a];
      assert items[|items| - 1] == last;
    }
  }

  predicate UnusedAt(seen: RS.Seen, key: RS.ReplayKey, t: nat) {
    key in seen ==> seen[key] <= t
  }

  /** The transfer brought for line `i` covers it, is accepted, and was not used, as a whole or for these terms. */
  ghost predicate LinePaid(seen: RS.Seen, q: Quote, items: seq<(string, PaymentProof)>, answers: Answers, now: Clock,
                           i: nat)
    requires i < |q.split|
  {
    var line, v := q.split[i], answers(i);
    && (exists a :: 0 <= a < |items| && items[a].0 == line.feeLineId && items[a].1.TransferProof? &&
          (items[a].1.amountHint.Some? ==> items[a].1.amountHint.value >= line.amount))
    && v.ok && v.txSignature.Some? && v.txSignature.value != ""
    && UnusedAt(seen, RS.ReplayKey("dnp-core", "transfer:" + v.txSignature.value, RS.Star, RS.Star, RS.Star),
                now(2 * i))
    && UnusedAt(seen, RS.ReplayKey("dnp-core", v.txSignature.value, RS.Atomic(line.amount), RS.Text(line.recipient),
                                   RS.Text(q.mint)), now(2 * i + 1))
  }

  /** Every line is paid by a transfer of its own, and no line and no item occurs twice. */
  ghost predicate PaidLineByLine(seen: RS.Seen, q: Quote, items: seq<(string, PaymentProof)>, answers: Answers,
                                 now: Clock) {
    && q.split != []
    && (forall a, b :: 0 <= a < b < |items| ==> items[a].0 != items[b].0)
    && (forall i :: 0 <= i < |q.split| ==> LinePaid(seen, q, items, answers, now, i))
    && (forall i, j :: 0 <= i < j < |q.split| ==>
          q.split[i].feeLineId != q.split[j].feeLineId && answers(i).txSignature != answers(j).txSignature)
  }

  /** The same, on the line that the request would collect. */
  predicate Collectible(seen: RS.Seen, q: Quote, proofs: map<string, PaymentProof>, answers: Answers, now: Clock,
                        i: nat)
    requires i < |q.split|
  {
    && HasTransfer(q, proofs, i) && Affirmed(answers, i)
    && var line := LineAt(q, proofs, answers, i);
       && (line.proof.amountHint.Some? ==> line.proof.amountHint.value >= line.requirement.amount)
       && !RS.Claimed(seen, LineKey(line), now(2 * i)) && !RS.Claimed(seen, LineScopedKey(q.mint, line), now(2 * i + 1))
  }

  lemma PaidMeansCollectible(seen: RS.Seen, q: Quote, items: seq<(string, PaymentProof)>, answers: Answers, now: Clock,
                             i: nat)
    requires i < |q.split| && NoRepeats(items)
    ensures LinePaid(seen, q, items, answers, now, i) <==> Collectible(seen, q, ByFeeLine(items), answers, now, i)
  {
    FiledUnder(items, q.split[i].feeLineId);
    if HasTransfer(q, ByFeeLine(items), i) && Affirmed(answers, i) {
      var a :| 0 <= a < |items| && items[a].0 == q.split[i].feeLineId;
      var line := LineAt(q, ByFeeLine(items), answers, i);
      assert items[a].1 == line.proof;
      KeysOf(q.mint, line);
    }
  }

  lemma KeysOf(mint: string, line: SplitLine)
    requires Verified(line)
    ensures LineKey(line) ==
            RS.ReplayKey("dnp-core", "transfer:" + line.v.txSignature.value, RS.Star, RS.Star, RS.Star)
    ensures LineScopedKey(mint, line) ==
            RS.ReplayKey("dnp-core", line.v.txSignature.value, RS.Atomic(line.requirement.amount),
                         RS.Text(line.requirement.recipient), RS.Text(mint))
  {
    assert "transfer" + ":" + line.v.txSignature.value == "transfer:" + line.v.txSignature.value;
  }

  lemma CollectedAt(q: Quote, proofs: map<string, PaymentProof>, answers: Answers, i: nat)
    requires Proved(q, proofs, answers, |q.split|) && i < |q.split|
    ensures HasTransfer(q, proofs, i) && Affirmed(answers, i)
    ensures LinesOf(q, proofs, answers, |q.split|)[i] == LineAt(q, proofs, answers, i)
  {
    assert HasTransfer(q, proofs, i) && Affirmed(answers, i);
  }

  lemma CollectibleLines(seen: RS.Seen, q: Quote, proofs: map<string, PaymentProof>, answers: Answers, now: Clock)
    requires Proved(q, proofs, answers, |q.split|)
    ensures var lines := LinesOf(q, proofs, answers, |q.split|);
            Unclaimed(seen, q.mint, lines, now) && ValidSplit(lines) <==>
            && (forall i :: 0 <= i < |q.split| ==> Collectible(seen, q, proofs, answers, now, i))
            && (forall i, j :: 0 <= i < j < |q.split| ==> q.split[i].feeLineId != q.split[j].feeLineId)
  {
    var lines := LinesOf(q, proofs, answers, |q.split|);
    forall i | 0 <= i < |q.split|
      ensures lines[i].requirement == q.split[i] && lines[i].proof.TransferProof?
      ensures Collectible(seen, q, proofs, answers, now, i) <==>
              && (lines[i].proof.amountHint.Some? ==> lines[i].proof.amountHint.value >= lines[i].requirement.amount)
              && !RS.Claimed(seen, LineKey(lines[i]), now(2 * i))
              && !RS.Claimed(seen, LineScopedKey(q.mint, lines[i]), now(2 * i + 1))
    {
      CollectedAt(q, proofs, answers, i);
    }
  }

  /** A request is payable exactly if it pays line by line. */
  lemma PayableExactly(seen: RS.Seen, q: Quote, items: seq<(string, PaymentProof)>, answers: Answers, now: Clock)
    ensures Payable(seen, q, items, answers, now) <==> PaidLineByLine(seen, q, items, answers, now)
  {
    if q.split != [] && NoRepeats(items) {
      var proofs := ByFeeLine(items);
      forall i | 0 <= i < |q.split|
        ensures LinePaid(seen, q, items, answers, now, i) <==> Collectible(seen, q, proofs, answers, now, i)
        ensures LinePaid(seen, q, items, answers, now, i) ==> HasTransfer(q, proofs, i) && Affirmed(answers, i)
      {
        PaidMeansCollectible(seen, q, items, answers, now, i);
      }
      if Proved(q, proofs, answers, |q.split|) {
        CollectibleLines(seen, q, proofs, answers, now);
      } else if PaidLineByLine(seen, q, items, answers, now) {
        assert forall i :: 0 <= i < |q.split| ==> LinePaid(seen, q, items, answers, now, i);
        assert Proved(q, proofs, answers, |q.split|);
      }
    }
  }

  // ---- claimed keys over time --------------------------------------------------------------------

  /** From `from` on, the claimed keys of `after` are those of `before`. */
  ghost predicate SameClaims(before: RS.Seen, after: RS.Seen, from: nat) {
    forall k, t: nat :: t >= from ==> (RS.Claimed(after, k, t) <==> RS.Claimed(before, k, t))
  }

  /** `k` is one of the keys claimed for the first `n` lines, and is still remembered at `t`. */
  ghost predicate ClaimedFor(mint: string, lines: seq<SplitLine>, n: nat, now: Clock, ttl: nat, k: RS.ReplayKey, t: nat)
    requires AllVerified(lines) && n <= |lines|
  {
    exists j :: 0 <= j < n &&
      ((k == LineKey(lines[j]) && now(2 * |lines| + 2 * j) + ttl > t)
       || (k == LineScopedKey(mint, lines[j]) && now(2 * |lines| + 2 * j + 1) + ttl > t))
  }

  /** From `from` on, the claimed keys of `after` are those of `before` and of the first `n` lines. */
  ghost predicate AddedClaims(before: RS.Seen, after: RS.Seen, mint: string, lines: seq<SplitLine>, n: nat,
                              now: Clock, ttl: nat, from: nat)
    requires AllVerified(lines) && n <= |lines|
  {
    forall k, t: nat :: t >= from ==>
      (RS.Claimed(after, k, t) <==> RS.Claimed(before, k, t) || ClaimedFor(mint, lines, n, now, ttl, k, t))
  }

  /** A granted claim adds its key, until it expires, and nothing else. */
  lemma ClaimAdds(seen: RS.Seen, key: RS.ReplayKey, now: nat, ttl: nat, k: RS.ReplayKey, t: nat)
    requires !RS.Claimed(seen, key, now) && t >= now
    ensures RS.Claimed(RS.Claim(seen, key, now, ttl), k, t) <==> RS.Claimed(seen, k, t) || (k == key && now + ttl > t)
  {
  }

  lemma GlobalKeyInjective(mode: string, a: string, b: string)
    requires GlobalKey(mode, a) == GlobalKey(mode, b)
    ensures a == b
  {
    var x := mode + ":";
    assert (x + a)[|x|..] == a && (x + b)[|x|..] == b;
  }

  /** The keys of the lines that are still to be claimed are not among those claimed already. */
  lemma NextKeysFree(mint: string, lines: seq<SplitLine>, n: nat, now: Clock, ttl: nat, t: nat)
    requires AllVerified(lines) && DistinctSignatures(lines) && n < |lines|
    ensures !ClaimedFor(mint, lines, n, now, ttl, LineKey(lines[n]), t)
    ensures !ClaimedFor(mint, lines, n, now, ttl, LineScopedKey(mint, lines[n]), t)
  {
    forall j | 0 <= j < n
      ensures LineKey(lines[j]) != LineKey(lines[n]) && LineScopedKey(mint, lines[j]) != LineScopedKey(mint, lines[n])
    {
      assert lines[j].v.txSignature != lines[n].v.txSignature;
      if LineKey(lines[j]) == LineKey(lines[n]) {
        GlobalKeyInjective("transfer", lines[j].v.txSignature.value, lines[n].v.txSignature.value);
      }
    }
  }

  lemma ClaimedForStep(mint: string, lines: seq<SplitLine>, n: nat, now: Clock, ttl: nat, k: RS.ReplayKey, t: nat)
    requires AllVerified(lines) && n < |lines|
    ensures ClaimedFor(mint, lines, n + 1, now, ttl, k, t) <==>
            || ClaimedFor(mint, lines, n, now, ttl, k, t)
            || (k == LineKey(lines[n]) && now(2 * |lines| + 2 * n) + ttl > t)
            || (k == LineScopedKey(mint, lines[n]) && now(2 * |lines| + 2 * n + 1) + ttl > t)
  {
  }

  /** Both claims of the next line are granted, and add exactly its two keys. */
  lemma ClaimLine(before: RS.Seen, seen: RS.Seen, mint: string, lines: seq<SplitLine>, n: nat, now: Clock, ttl: nat,
                  from: nat)
    requires AllVerified(lines) && DistinctSignatures(lines) && n < |lines| && Advances(now)
    requires Unclaimed(before, mint, lines, now)
    requires AddedClaims(before, seen, mint, lines, n, now, ttl, from) && from <= now(2 * |lines| + 2 * n)
    ensures var g, s, t1, t2 := LineKey(lines[n]), LineScopedKey(mint, lines[n]), now(2 * |lines| + 2 * n),
      now(2 * |lines| + 2 * n + 1);
            && !RS.Claimed(seen, g, t1) && !RS.Claimed(RS.Claim(seen, g, t1, ttl), s, t2)
            && AddedClaims(before, RS.Claim(RS.Claim(seen, g, t1, ttl), s, t2, ttl), mint, lines, n + 1, now, ttl, t2)
  {
    var g, s, t1, t2 := LineKey(lines[n]), LineScopedKey(mint, lines[n]), now(2 * |lines| + 2 * n),
      now(2 * |lines| + 2 * n + 1);
    NextKeysFree(mint, lines, n, now, ttl, t1);
    NextKeysFree(mint, lines, n, now, ttl, t2);
    assert now(2 * n) <= t1 && now(2 * n + 1) <= t2 && t1 <= t2;
    assert !RS.Claimed(seen, g, t1) && !RS.Claimed(seen, s, t2);
    var one := RS.Claim(seen, g, t1, ttl);
    ClaimAdds(seen, g, t1, ttl, s, t2);
    var two := RS.Claim(one, s, t2, ttl);
    forall k, t: nat | t >= t2
      ensures RS.Claimed(two, k, t) <==> RS.Claimed(before, k, t) || ClaimedFor(mint, lines, n + 1, now, ttl, k, t)
    {
      ClaimAdds(seen, g, t1, ttl, k, t);
      ClaimAdds(one, s, t2, ttl, k, t);
      ClaimedForStep(mint, lines, n, now, ttl, k, t);
    }
  }

  // ---- the primary proof ---------------------------------------------------------------------------

  predicate PaysProvider(line: SplitLine) {
    line.requirement.kind == "PROVIDER_AMOUNT"
  }

  /** `p` is the last provider line, or the first line when no line pays the provider. */
  ghost predicate IsPrimary(lines: seq<SplitLine>, p: nat) {
    && p < |lines|
    && (forall i :: p < i < |lines| ==> !PaysProvider(lines[i]))
    && (p == 0 || PaysProvider(lines[p]))
  }

  /** There is one primary line, and `Primary` finds it. */
  lemma {:induction false} PrimaryIsUnique(lines: seq<SplitLine>, p: nat)
    requires lines != []
    ensures IsPrimary(lines, p) <==> p == Primary(lines)
  {
    var n := |lines| - 1;
    if n > 0 && !PaysProvider(lines[n]) {
      PrimaryIsUnique(lines[..n], p);
      if IsPrimary(lines, p) {
        assert IsPrimary(lines[..n], p);
      }
      if IsPrimary(lines[..n], p) {
        assert forall i :: p < i < n ==> !PaysProvider(lines[..n][i]);
        assert IsPrimary(lines, p);
      }
    }
  }

  // ---- the three loops --------------------------------------------------------------------------------

  /** Files the proofs under their fee lines; two proofs for one line are a replay. */
  method IndexProofs(items: seq<(string, PaymentProof)>) returns (proofs: map<string, PaymentProof>, ok: bool)
    ensures ok <==> NoRepeats(items)
    ensures ok ==> proofs == ByFeeLine(items)
  {
    proofs := map[];
    for i := 0 to |items|
      invariant NoRepeats(items[..i]) && proofs == ByFeeLine(items[..i])
      invariant forall k :: k in proofs <==> exists a :: 0 <= a < i && items[a].0 == k
    {
      if items[i].0 in proofs {
        return proofs, false;
      }
      assert items[..i + 1][..i] == items[..i];
      proofs := proofs[items[i].0 := items[i].1];
    }
    assert items[..|items|] == items;
    ok := true;
  }

  lemma ProvedStep(q: Quote, proofs: map<string, PaymentProof>, answers: Answers, n: nat)
    requires n < |q.split| && Proved(q, proofs, answers, n)
    ensures Proved(q, proofs, answers, n + 1) <==>
            HasTransfer(q, proofs, n) && Affirmed(answers, n)
            && !SeenSignature(LinesOf(q, proofs, answers, n), answers(n).txSignature)
    ensures Proved(q, proofs, answers, n + 1) ==>
            LinesOf(q, proofs, answers, n + 1) == LinesOf(q, proofs, answers, n) + [LineAt(q, proofs, answers, n)]
  {
    var lines := LinesOf(q, proofs, answers, n);
    if SeenSignature(lines, answers(n).txSignature) {
      var i :| 0 <= i < |lines| && lines[i].v.txSignature == answers(n).txSignature;
      assert lines[i] == LineAt(q, proofs, answers, i);
    } else {
      forall i | 0 <= i < n && HasTransfer(q, proofs, i)
        ensures answers(i).txSignature != answers(n).txSignature
      {
        assert lines[i] == LineAt(q, proofs, answers, i);
      }
    }
  }

  /** Where the loop stops, it is settled whether the verifier is to blame. */
  lemma StopDecides(q: Quote, proofs: map<string, PaymentProof>, answers: Answers, n: nat)
    requires n < |q.split| && Proved(q, proofs, answers, n) && !Proved(q, proofs, answers, n + 1)
    ensures !Proved(q, proofs, answers, |q.split|)
    ensures Denied(q, proofs, answers) <==> HasTransfer(q, proofs, n) && !Affirmed(answers, n)
  {
  }

  /** Verifies line by line; `primary` is the index of the main proof so far. */
  method CollectLines(q: Quote, proofs: map<string, PaymentProof>, answers: Answers)
    returns (status: nat, failed: bool, lines: seq<SplitLine>, primary: nat)
    ensures status == 200 <==> Proved(q, proofs, answers, |q.split|)
    ensures status == 200 ==>
      lines == LinesOf(q, proofs, answers, |q.split|) && (lines != [] ==> IsPrimary(lines, primary))
    ensures failed <==> Denied(q, proofs, answers)
  {
    lines, primary, failed := [], 0, false;
    for i := 0 to |q.split|
      invariant Proved(q, proofs, answers, i) && lines == LinesOf(q, proofs, answers, i)
      invariant if i == 0 then primary == 0 else IsPrimary(lines, primary)
    {
      ProvedStep(q, proofs, answers, i);
      if !HasTransfer(q, proofs, i) {
        StopDecides(q, proofs, answers, i);
        return 402, false, lines, primary;
      }
      var v := answers(i);
      if !v.ok || !Present(v.txSignature) {
        StopDecides(q, proofs, answers, i);
        return 402, true, lines, primary;
      }
      if SeenSignature(lines, v.txSignature) {
        StopDecides(q, proofs, answers, i);
        return 409, false, lines, primary;
      }
      var line := SplitLine(q.split[i], proofs[q.split[i].feeLineId], v);
      if PaysProvider(line) {
        primary := i;
      }
      lines := lines + [line];
    }
    status := 200;
  }

  /** Looking whether a key is claimed leaves every later claim as it is. */
  lemma LookChangesNothing(before: RS.Seen, seen: RS.Seen, t: nat, from: nat)
    requires SameClaims(before, seen, from) && from <= t
    ensures SameClaims(before, RS.Cleanup(seen, t), t)
  {
  }

  lemma UnclaimedStep(seen: RS.Seen, mint: string, lines: seq<SplitLine>, j: nat, now: Clock)
    requires AllVerified(lines) && j < |lines| && Unclaimed(seen, mint, lines[..j], now)
    ensures var fine := !RS.Claimed(seen, LineKey(lines[j]), now(2 * j)) &&
      !RS.Claimed(seen, LineScopedKey(mint, lines[j]), now(2 * j + 1));
            (fine ==> Unclaimed(seen, mint, lines[..j + 1], now)) && (!fine ==> !Unclaimed(seen, mint, lines, now))
  {
  }

  /** Asks for both keys of a line whether they are claimed. */
  method LookUpLine(store: RS.Store, mint: string, line: SplitLine, t1: nat, t2: nat, ghost before: RS.Seen,
                    ghost from: nat)
    returns (claimed: bool)
    requires Verified(line) && SameClaims(before, store.seen, from) && from <= t1 <= t2
    modifies store
    ensures claimed <==> RS.Claimed(before, LineKey(line), t1) || RS.Claimed(before, LineScopedKey(mint, line), t2)
    ensures SameClaims(before, store.seen, t2)
  {
    LookChangesNothing(before, store.seen, t1, from);
    claimed := store.IsClaimed(LineKey(line), t1);
    if !claimed {
      LookChangesNothing(before, store.seen, t2, t1);
      claimed := store.IsClaimed(LineScopedKey(mint, line), t2);
    }
  }

  /** Asks for every key whether it is claimed; asking forgets expired keys and changes no claim. */
  method PreCheck(store: RS.Store, mint: string, lines: seq<SplitLine>, now: Clock) returns (free: bool)
    requires AllVerified(lines) && Advances(now)
    modifies store
    ensures free <==> Unclaimed(old(store.seen), mint, lines, now)
    ensures SameClaims(old(store.seen), store.seen, now(2 * |lines|))
  {
    ghost var from: nat := 0;
    for j := 0 to |lines|
      invariant SameClaims(old(store.seen), store.seen, from) && from <= now(2 * j)
      invariant Unclaimed(old(store.seen), mint, lines[..j], now)
    {
      UnclaimedStep(old(store.seen), mint, lines, j, now);
      var claimed := LookUpLine(store, mint, lines[j], now(2 * j), now(2 * j + 1), old(store.seen), from);
      from := now(2 * j + 1);
      if claimed {
        return false;
      }
    }
    assert lines[..|lines|] == lines;
    free := true;
  }

  /** Claims both keys of every line; after the pre-check no claim is refused. */
  method ClaimAll(store: RS.Store, mint: string, lines: seq<SplitLine>, now: Clock, ghost before: RS.Seen)
    requires AllVerified(lines) && DistinctSignatures(lines) && Advances(now)
    requires Unclaimed(before, mint, lines, now) && SameClaims(before, store.seen, now(2 * |lines|))
    modifies store
    ensures AddedClaims(before, store.seen, mint, lines, |lines|, now, store.ttlMs, now(4 * |lines|))
  {
    for j := 0 to |lines|
      invariant AddedClaims(before, store.seen, mint, lines, j, now, store.ttlMs, now(2 * |lines| + 2 * j))
    {
      ClaimLine(before, store.seen, mint, lines, j, now, store.ttlMs, now(2 * |lines| + 2 * j));
      var global := store.TryClaim(LineKey(lines[j]), now(2 * |lines| + 2 * j));
      var scoped := store.TryClaim(LineScopedKey(mint, lines[j]), now(2 * |lines| + 2 * j + 1));
      assert global && scoped;
    }
  }

  /** One receipt proof per requirement, in order, with its exact amount; no signature twice. */
  ghost predicate ProvesInOrder(q: Quote, answers: Answers, proofs: seq<SplitProof>) {
    && |proofs| == |q.split|
    && (forall i :: 0 <= i < |proofs| ==>
          && answers(i).txSignature.Some?
          && proofs[i] == SplitProof(q.split[i].feeLineId, q.split[i].kind, q.split[i].recipient, q.split[i].amount,
                                     q.split[i].token, Transfer, answers(i).txSignature.value))
    && (forall i, j :: 0 <= i < j < |proofs| ==> proofs[i].txSignature != proofs[j].txSignature)
  }

  lemma ProofsMatch(q: Quote, proofs: map<string, PaymentProof>, answers: Answers)
    requires Proved(q, proofs, answers, |q.split|)
    ensures ProvesInOrder(q, answers, SplitProofsOf(LinesOf(q, proofs, answers, |q.split|)))
  {
    var lines := LinesOf(q, proofs, answers, |q.split|);
    forall i | 0 <= i < |lines|
      ensures Verified(lines[i]) && lines[i].requirement == q.split[i] && lines[i].v == answers(i)
    {
      assert HasTransfer(q, proofs, i);
      assert lines[i] == LineAt(q, proofs, answers, i);
    }
  }

  lemma NotDenied(q: Quote, proofs: map<string, PaymentProof>, answers: Answers)
    requires Proved(q, proofs, answers, |q.split|)
    ensures !Denied(q, proofs, answers)
  {
  }

  /**
   * A payable request claims every key and proves every line in order; any other request
   * changes no claim. The commit fails exactly when the verifier turns a line down.
   */
  method VerifyDirectSplitProofs(store: RS.Store, q: Quote, items: seq<(string, PaymentProof)>, answers: Answers,
                                 now: Clock)
    returns (out: Outcome)
    requires Advances(now)
    modifies store
    ensures out.Proven? <==> Payable(old(store.seen), q, items, answers, now)
    ensures out.Proven? ==>
      var lines := LinesOf(q, ByFeeLine(items), answers, |q.split|);
      && AddedClaims(old(store.seen), store.seen, q.mint, lines, |lines|, now, store.ttlMs, now(4 * |lines|))
      && ProvesInOrder(q, answers, out.proofs)
      && out.primary == lines[Primary(lines)].proof && out.v == PrimaryVerification(lines)
    ensures out.Rejected? ==> SameClaims(old(store.seen), store.seen, now(2 * |q.split|))
    ensures out.Rejected? ==>
      (out.commitFailed <==> q.split != [] && NoRepeats(items) && Denied(q, ByFeeLine(items), answers))
  {
    if q.split == [] {
      return Rejected(402, false);
    }
    var proofs, ok := IndexProofs(items);
    if !ok {
      return Rejected(409, false);
    }
    var status, failed, lines, primary := CollectLines(q, proofs, answers);
    if status != 200 {
      return Rejected(status, failed);
    }
    NotDenied(q, proofs, answers);
    var free := PreCheck(store, q.mint, lines, now);
    if !free {
      return Rejected(409, false);
    }
    if !ValidSplit(lines) {
      return Rejected(402, false);
    }
    ClaimAll(store, q.mint, lines, now, old(store.seen));
    PrimaryIsUnique(lines, primary);
    ProofsMatch(q, proofs, answers);
    out := Proven(lines[primary].proof,
                  Verification(true, lines[primary].v.settledOnchain, lines[primary].v.txSignature, None),
                  SplitProofsOf(lines));
  }
}
