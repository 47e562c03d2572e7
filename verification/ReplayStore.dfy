/** Payment replay keys and the in-process replay store (x402/src/verifier/replayStore.ts). */
module ReplayStore {

  /** `*` or a concrete field. */
  datatype Field = Star | Text(s: string) | Atomic(n: nat)

  /** The five fields that are hashed into a replay key; hashing them is taken as injective. */
  datatype ReplayKey = ReplayKey(shopId: string, txSig: string, amount: Field, recipient: Field, mint: Field)

  /** When each remembered key expires. */
  type Seen = map<ReplayKey, nat>

  function Cleanup(seen: Seen, now: nat): Seen {
    map k | k in seen && seen[k] > now :: seen[k]
  }

  predicate Claimed(seen: Seen, key: ReplayKey, now: nat) {
    key in Cleanup(seen, now)
  }

  function Claim(seen: Seen, key: ReplayKey, now: nat, ttl: nat): Seen {
    if Claimed(seen, key, now) then Cleanup(seen, now) else Cleanup(seen, now)[key := now + ttl]
  }

  class Store {
    const ttlMs: nat
    var seen: Seen

    constructor (ttlMs: nat)
      ensures seen == map[] && this.ttlMs == ttlMs
    {
      this.ttlMs := ttlMs;
      seen := map[];
    }

    method RemoveExpired(now: nat)
      modifies this
      ensures seen == Cleanup(old(seen), now)
    {
      var todo := seen.Keys;
      while todo != {}
        invariant todo <= seen.Keys <= old(seen).Keys
        invariant forall k :: k in seen ==> seen[k] == old(seen)[k]
        invariant forall k :: k in old(seen) && k !in todo ==> (k in seen <==> old(seen)[k] > now)
        decreases todo
      {
        var k :| k in todo;
        if seen[k] <= now {
          seen := seen - {k};
        }
        todo := todo - {k};
      }
    }

    method TryClaim(key: ReplayKey, now: nat) returns (granted: bool)
      modifies this
      ensures granted == !Claimed(old(seen), key, now)
      ensures seen == Claim(old(seen), key, now, ttlMs)
    {
      RemoveExpired(now);
      granted := key !in seen;
      if granted {
        seen := seen[key := now + ttlMs];
      }
    }

    method IsClaimed(key: ReplayKey, now: nat) returns (claimed: bool)
      modifies this
      ensures claimed == Claimed(old(seen), key, now)
      ensures seen == Cleanup(old(seen), now)
    {
      RemoveExpired(now);
      claimed := key in seen;
    }
  }

  // ---- what the store promises about the claims it grants -------------------------------

  /** A granted claim: of which key, when, and to which request. */
  datatype Grant = Grant(key: ReplayKey, at: nat, holder: nat)

  /** The store remembers exactly the grants that are younger than `ttl`. */
  ghost predicate Tracks(seen: Seen, grants: seq<Grant>, ttl: nat, clock: nat) {
    && (forall i :: 0 <= i < |grants| ==> grants[i].at <= clock)
    && (forall i :: 0 <= i < |grants| && grants[i].at + ttl > clock ==>
          grants[i].key in seen && seen[grants[i].key] >= grants[i].at + ttl)
    && (forall k :: k in seen ==> Origin(grants, ttl, k, seen[k]))
  }

  /** Some grant of `key` expires at `expiry`. */
  ghost predicate Origin(grants: seq<Grant>, ttl: nat, key: ReplayKey, expiry: nat) {
    exists i :: 0 <= i < |grants| && grants[i].key == key && grants[i].at + ttl == expiry
  }

  /** Two grants of one key are at least `ttl` apart. */
  ghost predicate Spaced(grants: seq<Grant>, ttl: nat) {
    forall i, j :: 0 <= i < j < |grants| && grants[i].key == grants[j].key ==>
      grants[j].at >= grants[i].at + ttl
  }

  function GrantsAfter(seen: Seen, grants: seq<Grant>, key: ReplayKey, now: nat, holder: nat): seq<Grant> {
    if Claimed(seen, key, now) then grants else grants + [Grant(key, now, holder)]
  }

  lemma CleanupTracks(seen: Seen, grants: seq<Grant>, ttl: nat, clock: nat, now: nat)
    requires Tracks(seen, grants, ttl, clock) && clock <= now
    ensures Tracks(Cleanup(seen, now), grants, ttl, now) && Tracks(seen, grants, ttl, now)
  {
  }

  lemma OriginExtends(grants: seq<Grant>, g: Grant, ttl: nat, key: ReplayKey, expiry: nat)
    requires Origin(grants, ttl, key, expiry)
    ensures Origin(grants + [g], ttl, key, expiry)
  {
    var i :| 0 <= i < |grants| && grants[i].key == key && grants[i].at + ttl == expiry;
    assert (grants + [g])[i] == grants[i];
  }

  /** A claim is granted exactly when every earlier grant of its key is `ttl` or more in the past. */
  lemma ClaimExact(seen: Seen, grants: seq<Grant>, ttl: nat, clock: nat, key: ReplayKey, now: nat)
    requires Tracks(seen, grants, ttl, clock) && clock <= now
    ensures !Claimed(seen, key, now) <==>
            forall i :: 0 <= i < |grants| && grants[i].key == key ==> grants[i].at + ttl <= now
  {
  }

  /** A granted claim is remembered and keeps grants of one key apart. */
  lemma GrantKeeps(seen: Seen, grants: seq<Grant>, ttl: nat, clock: nat, key: ReplayKey, now: nat, holder: nat)
    requires Tracks(seen, grants, ttl, clock) && Spaced(grants, ttl) && clock <= now
    requires !Claimed(seen, key, now)
    ensures Tracks(Claim(seen, key, now, ttl), grants + [Grant(key, now, holder)], ttl, now)
    ensures Spaced(grants + [Grant(key, now, holder)], ttl)
  {
    CleanupTracks(seen, grants, ttl, clock, now);
    ClaimExact(seen, grants, ttl, clock, key, now);
    var g := Grant(key, now, holder);
    var seen', grants' := Claim(seen, key, now, ttl), grants + [g];
    forall k | k in seen'
      ensures Origin(grants', ttl, k, seen'[k])
    {
      if k == key {
        assert grants'[|grants|] == g;
      } else {
        OriginExtends(grants, g, ttl, k, seen'[k]);
      }
    }
  }

  /** Any claim, granted or refused, keeps the store exact and its grants spaced. */
  lemma ClaimKeeps(seen: Seen, grants: seq<Grant>, ttl: nat, clock: nat, key: ReplayKey, now: nat, holder: nat)
    requires Tracks(seen, grants, ttl, clock) && Spaced(grants, ttl) && clock <= now
    ensures Tracks(Claim(seen, key, now, ttl), GrantsAfter(seen, grants, key, now, holder), ttl, now)
    ensures Spaced(GrantsAfter(seen, grants, key, now, holder), ttl)
  {
    if Claimed(seen, key, now) {
      CleanupTracks(seen, grants, ttl, clock, now);
    } else {
      GrantKeeps(seen, grants, ttl, clock, key, now, holder);
    }
  }
}
