/** The agent flight recorder's hash chain (crates/agent-flight-recorder/src/lib.rs). */
module FlightRecorder {
  import opened Bytes

  const RECEIPT := "dark_null_v1_flight_receipt"
  const CHAIN := "dark_null_v1_flight_chain"

  datatype FlightReceipt = FlightReceipt(
    agentId: Digest, modelOutput: Digest, permission: Digest, riskPolicy: Digest, spendReceipt: Digest,
    slot: U64, previous: Digest, killSwitch: Digest)

  function Parts(r: FlightReceipt): seq<seq<Byte>> {
    [r.agentId, r.modelOutput, r.permission, r.riskPolicy, r.spendReceipt, Le64(r.slot), r.previous, r.killSwitch]
  }

  function Encoded(r: FlightReceipt): seq<Byte> {
    Join(Parts(r))
  }

  function ComputeHash(h: Hash, r: FlightReceipt): Digest {
    h(RECEIPT, Encoded(r))
  }

  /** The encoding determines every field. */
  lemma EncodedInjective(r: FlightReceipt, q: FlightReceipt)
    requires Encoded(r) == Encoded(q)
    ensures r == q
  {
    var ps, qs := Parts(r), Parts(q);
    JoinInjective(ps, qs);
    assert ps[0] == qs[0] && ps[1] == qs[1] && ps[2] == qs[2] && ps[3] == qs[3] && ps[4] == qs[4] &&
      ps[6] == qs[6] && ps[7] == qs[7];
    assert ps[5] == qs[5];
    Le64Injective(r.slot, q.slot);
  }

  // ---- chains --------------------------------------------------------------------------------

  predicate IsZero(d: Digest) {
    forall i :: 0 <= i < |d| ==> d[i] == 0
  }

  /** The back link of receipt `i` is the hash of its predecessor, or zeros at the start. */
  predicate LinkOk(h: Hash, rs: seq<FlightReceipt>, i: nat)
    requires i < |rs|
  {
    if i == 0 then IsZero(rs[i].previous) else rs[i].previous == ComputeHash(h, rs[i - 1])
  }

  datatype Verdict = Valid | EmptyChain | ChainBroken(at: nat)

  /** The verdict names the least broken link, if there is one. */
  ghost predicate IsVerdict(h: Hash, rs: seq<FlightReceipt>, v: Verdict) {
    match v
    case EmptyChain => rs == []
    case Valid => rs != [] && forall i :: 0 <= i < |rs| ==> LinkOk(h, rs, i)
    case ChainBroken(at) => at < |rs| && !LinkOk(h, rs, at) && forall i :: 0 <= i < at ==> LinkOk(h, rs, i)
  }

  method ChainValid(h: Hash, rs: seq<FlightReceipt>) returns (v: Verdict)
    ensures IsVerdict(h, rs, v)
  {
    if rs == [] {
      return EmptyChain;
    }
    if !IsZero(rs[0].previous) {
      return ChainBroken(0);
    }
    for i := 1 to |rs|
      invariant forall j :: 0 <= j < i ==> LinkOk(h, rs, j)
    {
      var expected := ComputeHash(h, rs[i - 1]);
      if rs[i].previous != expected {
        return ChainBroken(i);
      }
    }
    return Valid;
  }

  lemma VerdictUnique(h: Hash, rs: seq<FlightReceipt>, v: Verdict, w: Verdict)
    requires IsVerdict(h, rs, v) && IsVerdict(h, rs, w)
    ensures v == w
  {
  }

  ghost predicate ChainOk(h: Hash, rs: seq<FlightReceipt>) {
    IsVerdict(h, rs, Valid)
  }

  lemma PrefixOk(h: Hash, rs: seq<FlightReceipt>)
    requires ChainOk(h, rs) && |rs| > 1
    ensures ChainOk(h, rs[..|rs| - 1])
  {
    var init := rs[..|rs| - 1];
    forall i | 0 <= i < |init|
      ensures LinkOk(h, init, i)
    {
      assert LinkOk(h, rs, i);
    }
  }

  /**
   * The hash of the last receipt determines the whole chain: two valid chains whose last
   * receipts hash alike are the same, or `x` and `y` are two encodings with one hash, or `x`
   * is an encoding whose hash is 32 zero bytes.
   */
  lemma {:induction false} ChainBinding(h: Hash, a: seq<FlightReceipt>, b: seq<FlightReceipt>)
    returns (x: seq<Byte>, y: seq<Byte>)
    requires ChainOk(h, a) && ChainOk(h, b)
    requires ComputeHash(h, a[|a| - 1]) == ComputeHash(h, b[|b| - 1])
    ensures a == b || Collision(h, RECEIPT, x, y) || IsZero(h(RECEIPT, x))
    decreases |a|
  {
    var m, n := |a| - 1, |b| - 1;
    x, y := Encoded(a[m]), Encoded(b[n]);
    if x == y {
      EncodedInjective(a[m], b[n]);
      assert LinkOk(h, a, m) && LinkOk(h, b, n);
      if m > 0 && n > 0 {
        PrefixOk(h, a);
        PrefixOk(h, b);
        x, y := ChainBinding(h, a[..m], b[..n]);
        assert a == a[..m] + [a[m]] && b == b[..n] + [b[n]];
      } else if m > 0 {
        x := Encoded(a[m - 1]);
      } else if n > 0 {
        x := Encoded(b[n - 1]);
      }
    }
  }

  // ---- tampering -----------------------------------------------------------------------------------

  /**
   * Changing anything but the back link of a receipt that is not the last one is reported
   * at the very next receipt, or the old and the new encoding have one hash.
   */
  lemma TamperIsLocalised(h: Hash, rs: seq<FlightReceipt>, k: nat, forged: FlightReceipt, v: Verdict)
    requires ChainOk(h, rs) && k + 1 < |rs| && forged != rs[k] && forged.previous == rs[k].previous
    requires IsVerdict(h, rs[k := forged], v)
    ensures v == ChainBroken(k + 1) || Collision(h, RECEIPT, Encoded(rs[k]), Encoded(forged))
  {
    var ts := rs[k := forged];
    if Encoded(forged) == Encoded(rs[k]) {
      EncodedInjective(forged, rs[k]);
    }
    if ComputeHash(h, forged) != ComputeHash(h, rs[k]) {
      forall i | 0 <= i <= k
        ensures LinkOk(h, ts, i)
      {
        assert LinkOk(h, rs, i);
      }
      assert LinkOk(h, rs, k + 1) && !LinkOk(h, ts, k + 1);
      VerdictUnique(h, ts, v, ChainBroken(k + 1));
    }
  }

  /** Changing a back link is reported right there; changing the last receipt otherwise is not noticed. */
  lemma TamperAtTheEdges(h: Hash, rs: seq<FlightReceipt>, k: nat, forged: FlightReceipt, v: Verdict)
    requires ChainOk(h, rs) && k < |rs| && IsVerdict(h, rs[k := forged], v)
    ensures forged.previous != rs[k].previous ==> v == ChainBroken(k)
    ensures forged.previous == rs[k].previous && k == |rs| - 1 ==> v == Valid
  {
    var ts := rs[k := forged];
    forall i | 0 <= i < k
      ensures LinkOk(h, ts, i)
    {
      assert LinkOk(h, rs, i);
    }
    assert LinkOk(h, rs, k);
    if forged.previous != rs[k].previous {
      VerdictUnique(h, ts, v, ChainBroken(k));
    } else if k == |rs| - 1 {
      VerdictUnique(h, ts, v, Valid);
    }
  }

  // ---- reveals ---------------------------------------------------------------------------------------

  function Hashes(h: Hash, rs: seq<FlightReceipt>): (ds: seq<Digest>)
    ensures |ds| == |rs| && forall i :: 0 <= i < |rs| ==> ds[i] == ComputeHash(h, rs[i])
  {
    if rs == [] then [] else [ComputeHash(h, rs[0])] + Hashes(h, rs[1..])
  }

  function RootInput(h: Hash, rs: seq<FlightReceipt>): seq<Byte> {
    Join(Hashes(h, rs))
  }

  function ChainRoot(h: Hash, rs: seq<FlightReceipt>): Digest {
    h(CHAIN, RootInput(h, rs))
  }

  datatype Reveal = Reveal(root: Digest, receipts: seq<FlightReceipt>)

  predicate RevealAccepted(h: Hash, shown: Reveal) {
    ChainRoot(h, shown.receipts) == shown.root
  }

  /** Two reveals accepted for one root have the same receipts, or `x` and `y` have one hash. */
  lemma RevealBinding(h: Hash, a: Reveal, b: Reveal) returns (x: seq<Byte>, y: seq<Byte>)
    requires RevealAccepted(h, a) && RevealAccepted(h, b) && a.root == b.root
    ensures a.receipts == b.receipts || Collision(h, CHAIN, x, y) || Collision(h, RECEIPT, x, y)
  {
    x, y := RootInput(h, a.receipts), RootInput(h, b.receipts);
    if x == y {
      JoinedDigestsInjective(Hashes(h, a.receipts), Hashes(h, b.receipts));
      x, y := SameHashes(h, a.receipts, b.receipts);
    }
  }

  lemma {:induction false} SameHashes(h: Hash, a: seq<FlightReceipt>, b: seq<FlightReceipt>)
    returns (x: seq<Byte>, y: seq<Byte>)
    requires Hashes(h, a) == Hashes(h, b)
    ensures a == b || Collision(h, RECEIPT, x, y)
  {
    assert |a| == |b|;
    x, y := [], [];
    if a != [] {
      assert Hashes(h, a)[0] == Hashes(h, b)[0];
      if Encoded(a[0]) == Encoded(b[0]) {
        EncodedInjective(a[0], b[0]);
        assert Hashes(h, a[1..]) == Hashes(h, a)[1..] && Hashes(h, b[1..]) == Hashes(h, b)[1..];
        x, y := SameHashes(h, a[1..], b[1..]);
        assert a == [a[0]] + a[1..] && b == [b[0]] + b[1..];
      } else {
        x, y := Encoded(a[0]), Encoded(b[0]);
      }
    }
  }
}
