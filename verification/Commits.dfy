/** The commit call, and which buyers it tells apart (x402/src/server.ts, x402/src/receipts.ts). */
module Commits {
  import opened Common
  import opened Types
  import opened Receipts
  import opened Protocol
  import N = Netting

  /** 64 hex digits, after `0x` perhaps. */
  predicate NamesPayer(payer: string) {
    |payer| == DigitsFrom(payer) + 64 && forall i :: DigitsFrom(payer) <= i < |payer| ==> IsHex(payer[i])
  }

  /** `n` has the digits of `payer`, in order and in lower case. */
  ghost predicate InLowerCase(payer: string, n: string) {
    && |payer| == DigitsFrom(payer) + 64 && |n| == 64
    && forall i :: 0 <= i < 64 ==>
         var d := payer[DigitsFrom(payer)..][i]; n[i] == if 'A' <= d <= 'F' then d - 'A' + 'a' else d
  }

  /** The commit that the call stored. */
  function Newest(s: State): Commit
    requires s.commits != []
  {
    s.commits[|s.commits| - 1]
  }

  /**
   * A commit is stored if and only if the quote exists, has not expired, and the payer is named
   * by 64 hex digits: it is pending, for that quote, and its payer has those digits in lower case.
   * Otherwise the call is refused: 404, 410 or 400. Nothing else changes.
   */
  lemma CommitsExactly(cfg: Config, s: State, quoteId: nat, payer: string)
    ensures var s' := Step(cfg, s, PostCommit(quoteId, payer));
            if quoteId < |s.quotes| && s.clock < s.quotes[quoteId].expiresAt && NamesPayer(payer) then
              && s'.commits != [] && InLowerCase(payer, Newest(s').payer)
              && s' == s.(commits := s.commits +
                            [Commit(quoteId, Newest(s').payer, s.clock, Pending, None, None, None)],
                          threads := s.threads + [Done(Committed(|s.commits|))])
            else
              s' == s.(threads := s.threads + [Done(Refused(
                         if quoteId >= |s.quotes| then 404
                         else if s.clock >= s.quotes[quoteId].expiresAt then 410 else 400))])
  {
    NormalizedDigits(payer);
    assert NormalizeCommitment(payer).Some? <==> NamesPayer(payer);
  }

  /** Two stored commits, made whenever and for whatever quotes. */
  ghost predicate BothStored(s: State, q: nat, x: string, t: State, r: nat, y: string) {
    && q < |s.quotes| && s.clock < s.quotes[q].expiresAt && NamesPayer(x)
    && r < |t.quotes| && t.clock < t.quotes[r].expiresAt && NamesPayer(y)
  }

  /**
   * Two commits store one payer, and are charged to one account of the ledger per provider, if
   * and only if the posted payers agree up to a `0x` in front and the case of letters.
   */
  lemma SamePayerExactly(cfg: Config, s: State, q: nat, x: string, t: State, r: nat, y: string, provider: string)
    requires BothStored(s, q, x, t, r, y)
    ensures var a, b := Step(cfg, s, PostCommit(q, x)), Step(cfg, t, PostCommit(r, y));
            && a.commits != [] && b.commits != []
            && (Newest(a).payer == Newest(b).payer <==> SameDigits(x, y))
            && (N.KeyOf(Newest(a).payer, provider) == N.KeyOf(Newest(b).payer, provider) <==> SameDigits(x, y))
  {
    NormalizedDigits(x);
    NormalizedDigits(y);
    NormalizeExactly(x, y);
    var m, n := NormalizeCommitment(x).value, NormalizeCommitment(y).value;
    StoresNormal(cfg, s, q, x);
    StoresNormal(cfg, t, r, y);
    N.KeyOfInjective(m, provider, n, provider);
    LowerStays(m);
    LowerStays(n);
  }

  lemma StoresNormal(cfg: Config, s: State, q: nat, x: string)
    requires q < |s.quotes| && s.clock < s.quotes[q].expiresAt && NormalizeCommitment(x).Some?
    ensures var a := Step(cfg, s, PostCommit(q, x));
            a.commits != [] && Newest(a).payer == NormalizeCommitment(x).value
  {
  }

  lemma LowerStays(n: string)
    requires IsCommitment(n)
    ensures ToLower(n) == n
  {
    assert forall i :: 0 <= i < |n| ==> IsHex(n[i]);
  }
}
