/** Agent permission notes and the spends they allow (crates/agent-permission-notes/src/lib.rs). */
module PermissionNotes {
  import opened Common
  import opened Bytes

  const ALLOWED := "dark_null_v1_allowed_scopes"
  const DENIED := "dark_null_v1_denied_scopes"
  const NOTE := "dark_null_v1_permission_note"
  const NULLIFIER := "dark_null_v1_permission_nullifier"
  const WITHDRAW := "dark_null_v1_withdraw_scope"

  datatype Note = Note(
    agentId: Digest, maxTotal: U64, maxSingle: U64, allowed: seq<Digest>, denied: seq<Digest>, expiry: U64,
    lossFuse: Digest, killSwitchRoot: Digest, receiptRoot: Digest, noWithdraw: bool, killSwitchActive: bool)

  datatype Spend = Spend(permission: Digest, amount: U64, scope: Digest, nullifier: Digest, slot: U64)

  function Flag(b: bool): seq<Byte> {
    [if b then 1 else 0]
  }

  /** Both scope lists enter as one digest each. */
  function NoteParts(h: Hash, n: Note): seq<seq<Byte>> {
    [n.agentId, Le64(n.maxTotal), Le64(n.maxSingle), h(ALLOWED, Join(n.allowed)), h(DENIED, Join(n.denied)),
     Le64(n.expiry),
     n.lossFuse, n.killSwitchRoot, n.receiptRoot, Flag(n.noWithdraw), Flag(n.killSwitchActive)]
  }

  function NoteHash(h: Hash, n: Note): Digest {
    h(NOTE, Join(NoteParts(h, n)))
  }

  function NewSpend(h: Hash, n: Note, amount: U64, scope: Digest, slot: U64): Spend {
    var permission := NoteHash(h, n);
    Spend(permission, amount, scope, h(NULLIFIER, Join([permission, scope, Le64(slot)])), slot)
  }

  // ---- a hash stands for one note ----------------------------------------------------------------

  /** Two inputs under one of the three tags that make up a note's hash. */
  ghost predicate NoteCollision(h: Hash, x: seq<Byte>, y: seq<Byte>) {
    Collision(h, NOTE, x, y) || Collision(h, ALLOWED, x, y) || Collision(h, DENIED, x, y)
  }

  /** Everything but the scope lists is the same, and these have the same digests. */
  ghost predicate SameButScopes(h: Hash, a: Note, b: Note) {
    && b == a.(allowed := b.allowed, denied := b.denied)
    && h(ALLOWED, Join(a.allowed)) == h(ALLOWED, Join(b.allowed)) &&
       h(DENIED, Join(a.denied)) == h(DENIED, Join(b.denied))
  }

  lemma PartsDetermine(h: Hash, a: Note, b: Note)
    requires Join(NoteParts(h, a)) == Join(NoteParts(h, b))
    ensures SameButScopes(h, a, b)
  {
    JoinInjective(NoteParts(h, a), NoteParts(h, b));
    SameParts(h, a, b);
  }

  lemma SameParts(h: Hash, a: Note, b: Note)
    requires NoteParts(h, a) == NoteParts(h, b)
    ensures SameButScopes(h, a, b)
  {
    var ps, qs := NoteParts(h, a), NoteParts(h, b);
    assert ps[0] == qs[0] && ps[3] == qs[3] && ps[4] == qs[4] && ps[6] == qs[6] && ps[7] == qs[7] && ps[8] == qs[8];
    assert ps[1] == qs[1] && ps[2] == qs[2] && ps[5] == qs[5];
    Le64Injective(a.maxTotal, b.maxTotal);
    Le64Injective(a.maxSingle, b.maxSingle);
    Le64Injective(a.expiry, b.expiry);
    assert ps[9] == qs[9] && ps[10] == qs[10];
    assert Flag(a.noWithdraw)[0] == Flag(b.noWithdraw)[0] && Flag(a.killSwitchActive)[0] == Flag(b.killSwitchActive)[0];
  }

  /** Notes with one hash are one note, or `x` and `y` have one hash somewhere in its making. */
  lemma NoteBinding(h: Hash, a: Note, b: Note) returns (x: seq<Byte>, y: seq<Byte>)
    requires NoteHash(h, a) == NoteHash(h, b)
    ensures a == b || NoteCollision(h, x, y)
  {
    x, y := Join(NoteParts(h, a)), Join(NoteParts(h, b));
    if x == y {
      PartsDetermine(h, a, b);
      if Join(a.allowed) != Join(b.allowed) {
        x, y := Join(a.allowed), Join(b.allowed);
      } else if Join(a.denied) != Join(b.denied) {
        x, y := Join(a.denied), Join(b.denied);
      } else {
        JoinedDigestsInjective(a.allowed, b.allowed);
        JoinedDigestsInjective(a.denied, b.denied);
      }
    }
  }

  /** Spends with one nullifier are for one note, one scope and one slot, or `u` and `v` have one hash. */
  lemma NullifierBinding(h: Hash, a: Note, b: Note, x: Spend, y: Spend) returns (u: seq<Byte>, v: seq<Byte>)
    requires x == NewSpend(h, a, x.amount, x.scope, x.slot) && y == NewSpend(h, b, y.amount, y.scope, y.slot)
    requires x.nullifier == y.nullifier
    ensures (a == b && x.scope == y.scope && x.slot == y.slot) || NoteCollision(h, u, v) ||
            Collision(h, NULLIFIER, u, v)
  {
    var ps, qs := [x.permission, x.scope, Le64(x.slot)], [y.permission, y.scope, Le64(y.slot)];
    u, v := Join(ps), Join(qs);
    if u == v {
      JoinInjective(ps, qs);
      assert ps[0] == qs[0] && ps[1] == qs[1] && ps[2] == qs[2];
      Le64Injective(x.slot, y.slot);
      u, v := NoteBinding(h, a, b);
    }
  }

  // ---- what a note allows --------------------------------------------------------------------------

  datatype Refusal =
    | HashMismatch | KillSwitch | Expired | SingleExceeded | TotalExceeded(wouldReach: U64)
    | WithdrawDenied | ScopeDenied | ScopeNotAllowed

  function SaturatingAdd(a: U64, b: U64): U64 {
    if a + b > U64_MAX then U64_MAX else a + b
  }

  /** The eight checks in their order; None is acceptance. */
  function SpendAllowed(h: Hash, n: Note, s: Spend, now: U64, total: U64): Option<Refusal> {
    if s.permission != NoteHash(h, n) then Some(HashMismatch)
    else if n.killSwitchActive then Some(KillSwitch)
    else if now > n.expiry then Some(Expired)
    else if s.amount > n.maxSingle then Some(SingleExceeded)
    else if SaturatingAdd(total, s.amount) > n.maxTotal then Some(TotalExceeded(SaturatingAdd(total, s.amount)))
    else if n.noWithdraw && s.scope == h(WITHDRAW, []) then Some(WithdrawDenied)
    else if s.scope in n.denied then Some(ScopeDenied)
    else if n.allowed != [] && s.scope !in n.allowed then Some(ScopeNotAllowed)
    else None
  }

  /** The scope may be spent to. */
  predicate ScopeOk(h: Hash, n: Note, scope: Digest) {
    && !(n.noWithdraw && scope == h(WITHDRAW, []))
    && scope !in n.denied && (n.allowed == [] || scope in n.allowed)
  }

  /**
   * Acceptance in exact arithmetic: the total stays within its limit, except that a limit of
   * the largest u64 never refuses, because the addition saturates there.
   */
  lemma AcceptedExactly(h: Hash, n: Note, s: Spend, now: U64, total: U64)
    ensures SpendAllowed(h, n, s, now, total).None? <==>
            && s.permission == NoteHash(h, n) && !n.killSwitchActive && now <= n.expiry && s.amount <= n.maxSingle
            && (total + s.amount <= n.maxTotal || n.maxTotal == U64_MAX)
            && ScopeOk(h, n, s.scope)
  {
  }

  /** An accepted spend was made for this very note, or `x` and `y` have one hash. */
  lemma AcceptedForThisNote(h: Hash, n: Note, made: Note, amount: U64, scope: Digest, slot: U64, now: U64, total: U64)
    returns (x: seq<Byte>, y: seq<Byte>)
    requires SpendAllowed(h, n, NewSpend(h, made, amount, scope, slot), now, total).None?
    ensures made == n || NoteCollision(h, x, y)
  {
    x, y := NoteBinding(h, made, n);
  }

  // ---- runs ------------------------------------------------------------------------------------------

  datatype Request = Request(spend: Spend, now: U64)

  /** The total that is fed back, and the amounts accepted so far. */
  datatype Account = Account(total: U64, accepted: seq<U64>)

  function Next(h: Hash, n: Note, a: Account, r: Request): Account {
    if SpendAllowed(h, n, r.spend, r.now, a.total).None?
    then Account(SaturatingAdd(a.total, r.spend.amount), a.accepted + [r.spend.amount]) else a
  }

  function Run(h: Hash, n: Note, requests: seq<Request>): Account {
    if requests == [] then Account(0, [])
      else Next(h, n, Run(h, n, requests[..|requests| - 1]), requests[|requests| - 1])
  }

  function Sum(xs: seq<U64>): nat {
    if xs == [] then 0 else Sum(xs[..|xs| - 1]) + xs[|xs| - 1]
  }

  lemma SumSnoc(xs: seq<U64>, x: U64)
    ensures Sum(xs + [x]) == Sum(xs) + x
  {
  }

  /** Below the largest u64 the exact sum of all accepted spends is the tracked total and within its limit. */
  lemma {:induction false} TotalsNeverExceeded(h: Hash, n: Note, requests: seq<Request>)
    requires n.maxTotal < U64_MAX
    ensures var a := Run(h, n, requests); Sum(a.accepted) == a.total <= n.maxTotal
  {
    if requests != [] {
      var a, r := Run(h, n, requests[..|requests| - 1]), requests[|requests| - 1];
      TotalsNeverExceeded(h, n, requests[..|requests| - 1]);
      SumSnoc(a.accepted, r.spend.amount);
    }
  }

  function Repeat(r: Request, k: nat): seq<Request> {
    if k == 0 then [] else Repeat(r, k - 1) + [r]
  }

  lemma MoreAddsUp(h: Hash, n: Note, requests: seq<Request>, r: Request, k: nat)
    requires n.maxTotal == U64_MAX && SpendAllowed(h, n, r.spend, r.now, 0).None? && r.spend.amount > 0
    requires Sum(Run(h, n, requests).accepted) >= k
    ensures Sum(Run(h, n, requests + [r]).accepted) >= k + 1
  {
  }

  lemma {:induction false} RepeatAddsUp(h: Hash, n: Note, r: Request, k: nat, requests: seq<Request>)
    requires n.maxTotal == U64_MAX && SpendAllowed(h, n, r.spend, r.now, 0).None? && r.spend.amount > 0
    requires requests == Repeat(r, k)
    ensures Sum(Run(h, n, requests).accepted) >= k
    decreases k
  {
    if k > 0 {
      var before := Repeat(r, k - 1);
      RepeatAddsUp(h, n, r, k - 1, before);
      MoreAddsUp(h, n, before, r, k - 1);
    }
  }

  /** A limit can be exceeded exactly if it is the largest u64: by repeating any spend that is accepted at all. */
  lemma ExceededExactlyAtLargest(h: Hash, n: Note, r: Request)
    requires SpendAllowed(h, n, r.spend, r.now, 0).None? && r.spend.amount > 0
    ensures (exists k: nat :: Sum(Run(h, n, Repeat(r, k)).accepted) > n.maxTotal) <==> n.maxTotal == U64_MAX
  {
    if n.maxTotal == U64_MAX {
      RepeatAddsUp(h, n, r, n.maxTotal + 1, Repeat(r, n.maxTotal + 1));
    } else {
      forall k: nat
        ensures Sum(Run(h, n, Repeat(r, k)).accepted) <= n.maxTotal
      {
        TotalsNeverExceeded(h, n, Repeat(r, k));
      }
    }
  }
}
