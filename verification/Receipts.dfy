/** Receipt digests, the chained receipt signer and its verifier (x402/src/receipts.ts). */
module Receipts {
  import opened Common
  import opened Types

  /**
   * SHA-256, Ed25519 and JSON text are parameters. `sign` is signing under the
   * server's secret key, whose public half is `publicKey`.
   */
  datatype Crypto = Crypto(
    hash: string -> string,
    json: Json -> string,
    encodeReceipt: (string, ReceiptPayload) -> string,
    sign: string -> string,
    verify: (string, string, string) -> bool,
    publicKey: string)

  /** Signatures made with the secret key verify under its public key. */
  ghost predicate SignaturesVerify(c: Crypto) {
    forall m: string :: c.verify(m, c.sign(m), c.publicKey)
  }

  /** JSON text determines the back link and the payload. */
  ghost predicate EncodingInjective(c: Crypto) {
    forall p: string, x: ReceiptPayload, q: string, y: ReceiptPayload ::
      c.encodeReceipt(p, x) == c.encodeReceipt(q, y) ==> p == q && x == y
  }

  function Zeros(n: nat): (s: string)
    ensures |s| == n
  {
    if n == 0 then "" else "0" + Zeros(n - 1)
  }

  /** The back link of the first receipt: 64 zeros. */
  const GENESIS: string := Zeros(64)

  // ---- digests -------------------------------------------------------------------------

  function CanonicalBody(c: Crypto, body: Option<Json>): string {
    c.json(if body.Some? then body.value else JNull)
  }

  function RequestText(c: Crypto, verb: string, path: string, body: Option<Json>): string {
    verb + "|" + path + "|" + CanonicalBody(c, body)
  }

  function RequestDigest(c: Crypto, verb: string, path: string, body: Option<Json>): string {
    c.hash(RequestText(c, verb, path, body))
  }

  function ResponseText(c: Crypto, status: nat, body: Option<Json>): string {
    Decimal(status) + "|" + CanonicalBody(c, body)
  }

  function ResponseDigest(c: Crypto, status: nat, body: Option<Json>): string {
    c.hash(ResponseText(c, status, body))
  }

  /** Equal response digests mean equal status and body, or show two texts with one hash. */
  lemma ResponseDigestBinds(c: Crypto, s: nat, x: Json, t: nat, y: Json)
    requires forall a: Json, b: Json :: c.json(a) == c.json(b) ==> a == b
    requires ResponseDigest(c, s, Some(x)) == ResponseDigest(c, t, Some(y))
    ensures (s == t && x == y) || Collides(c.hash, ResponseText(c, s, Some(x)), ResponseText(c, t, Some(y)))
  {
    if ResponseText(c, s, Some(x)) == ResponseText(c, t, Some(y)) {
      SplitAtSeparator(Decimal(s), c.json(x), Decimal(t), c.json(y), '|');
      DecimalInjective(s, t);
    }
  }

  // ---- payer commitments ---------------------------------------------------------------

  predicate IsHex(ch: char) {
    '0' <= ch <= '9' || 'a' <= ch <= 'f' || 'A' <= ch <= 'F'
  }

  function Lower(ch: char): char {
    if 'A' <= ch <= 'Z' then ch - 'A' + 'a' else ch
  }

  function ToLower(s: string): (r: string)
    ensures |r| == |s| && forall i :: 0 <= i < |s| ==> r[i] == Lower(s[i])
  {
    if s == "" then "" else [Lower(s[0])] + ToLower(s[1..])
  }

  predicate Is64Hex(s: string) {
    |s| == 64 && forall i :: 0 <= i < |s| ==> IsHex(s[i])
  }

  predicate IsCommitment(s: string) {
    Is64Hex(s) && forall i :: 0 <= i < |s| ==> !('A' <= s[i] <= 'F')
  }

  /** Strips `0x`, demands 64 hex digits, answers in lower case; None is the thrown error. */
  function NormalizeCommitment(value: string): (r: Option<string>)
    ensures r.Some? ==> IsCommitment(r.value)
    ensures r.None? <==> !Is64Hex(StripPrefix(value))
  {
    if Is64Hex(StripPrefix(value)) then Some(ToLower(StripPrefix(value))) else None
  }

  function StripPrefix(value: string): string {
    if |value| >= 2 && value[..2] == "0x" then value[2..] else value
  }

  /** Where the digits begin: after `0x`, or at once. */
  function DigitsFrom(value: string): (n: nat)
    ensures n <= |value|
  {
    if |value| >= 2 && value[0] == '0' && value[1] == 'x' then 2 else 0
  }

  /**
   * A value is accepted if and only if it has 64 hex digits after an optional `0x`, and then
   * every digit of the result is the value's digit in that place, or its lower-case form.
   */
  lemma NormalizedDigits(value: string)
    ensures NormalizeCommitment(value).Some? <==>
      |value| == DigitsFrom(value) + 64 && forall i :: DigitsFrom(value) <= i < |value| ==> IsHex(value[i])
    ensures NormalizeCommitment(value).Some? ==> forall i :: 0 <= i < 64 ==>
      var d := value[DigitsFrom(value)..][i];
      NormalizeCommitment(value).value[i] == if 'A' <= d <= 'F' then d - 'A' + 'a' else d
  {
    var digits := value[DigitsFrom(value)..];
    assert StripPrefix(value) == digits;
    assert forall i :: 0 <= i < |digits| ==> digits[i] == value[DigitsFrom(value) + i];
    assert forall i :: DigitsFrom(value) <= i < |value| ==> value[i] == digits[i - DigitsFrom(value)];
  }

  /** One character up to the case of letters. */
  predicate SameDigit(d: char, e: char) {
    d == e || ('a' <= d <= 'f' && e == d - 'a' + 'A') || ('A' <= d <= 'F' && e == d - 'A' + 'a')
  }

  /** The same text, up to a `0x` in front and the case of letters. */
  ghost predicate SameDigits(x: string, y: string) {
    var a, b := x[DigitsFrom(x)..], y[DigitsFrom(y)..];
    |a| == |b| && forall i :: 0 <= i < |a| ==> SameDigit(a[i], b[i])
  }

  lemma LowerAlike(d: char, e: char)
    requires IsHex(d) && IsHex(e)
    ensures (if 'A' <= d <= 'F' then d - 'A' + 'a' else d) == (if 'A' <= e <= 'F' then e - 'A' + 'a' else e) <==>
            SameDigit(d, e)
  {
  }

  /** Two accepted values have one normal form if and only if they agree up to `0x` and letter case. */
  lemma NormalizeExactly(x: string, y: string)
    requires NormalizeCommitment(x).Some? && NormalizeCommitment(y).Some?
    ensures NormalizeCommitment(x) == NormalizeCommitment(y) <==> SameDigits(x, y)
  {
    var a, b := x[DigitsFrom(x)..], y[DigitsFrom(y)..];
    var m, n := NormalizeCommitment(x).value, NormalizeCommitment(y).value;
    NormalizedDigits(x);
    NormalizedDigits(y);
    forall i | 0 <= i < 64
      ensures m[i] == n[i] <==> SameDigit(a[i], b[i])
    {
      assert IsHex(x[DigitsFrom(x) + i]) && IsHex(y[DigitsFrom(y) + i]);
      LowerAlike(a[i], b[i]);
    }
    assert m == n <==> forall i :: 0 <= i < 64 ==> m[i] == n[i];
  }

  /** Normalising is idempotent: what the server stores for the client's own form is that form. */
  lemma NormalizeIdempotent(value: string)
    requires NormalizeCommitment(value).Some?
    ensures NormalizeCommitment(NormalizeCommitment(value).value) == NormalizeCommitment(value)
  {
    var n := NormalizeCommitment(value).value;
    assert IsHex(n[1]);
    assert n[..2][1] == n[1];
    assert StripPrefix(n) == n;
    assert ToLower(n) == n;
  }

  // ---- signing -------------------------------------------------------------------------

  function SignReceipt(c: Crypto, prevHash: string, payload: ReceiptPayload): SignedReceipt {
    var h := c.hash(c.encodeReceipt(prevHash, payload));
    SignedReceipt(payload, prevHash, h, c.publicKey, c.sign(h))
  }

  predicate VerifySignedReceipt(c: Crypto, r: SignedReceipt) {
    && c.hash(c.encodeReceipt(r.prevHash, r.payload)) == r.receiptHash
    && c.verify(r.receiptHash, r.signature, r.signerPublicKey)
  }

  function Tip(log: seq<SignedReceipt>): string {
    if log == [] then GENESIS else log[|log| - 1].receiptHash
  }

  /** Every receipt verifies and names its predecessor's hash, the first one 64 zeros. */
  ghost predicate Chained(c: Crypto, log: seq<SignedReceipt>) {
    log == [] ||
    (var init, last := log[..|log| - 1], log[|log| - 1];
     Chained(c, init) && last.prevHash == Tip(init) && VerifySignedReceipt(c, last))
  }

  /** The same, receipt by receipt. */
  lemma {:induction false} ChainedAt(c: Crypto, log: seq<SignedReceipt>, i: nat)
    requires Chained(c, log) && i < |log|
    ensures VerifySignedReceipt(c, log[i])
    ensures log[i].prevHash == (if i == 0 then GENESIS else log[i - 1].receiptHash)
  {
    if i < |log| - 1 {
      ChainedAt(c, log[..|log| - 1], i);
    }
  }

  /** Every receipt carries the server's key and its deterministic signature. */
  ghost predicate ServerSigned(c: Crypto, log: seq<SignedReceipt>) {
    forall r :: r in log ==> r.signerPublicKey == c.publicKey && r.signature == c.sign(r.receiptHash)
  }

  lemma ChainedExtends(c: Crypto, log: seq<SignedReceipt>, payload: ReceiptPayload)
    requires Chained(c, log) && SignaturesVerify(c)
    ensures Chained(c, log + [SignReceipt(c, Tip(log), payload)])
  {
  }

  /** The signer: one hidden field, advanced by `Sign` and left alone by `SignDetached`. */
  class ReceiptSigner {
    const crypto: Crypto
    var previousHash: string
    ghost var log: seq<SignedReceipt>

    ghost predicate Valid()
      reads this
    {
      SignaturesVerify(crypto) && Chained(crypto, log) && previousHash == Tip(log)
    }

    constructor (crypto: Crypto)
      requires SignaturesVerify(crypto)
      ensures Valid() && log == [] && this.crypto == crypto
    {
      this.crypto := crypto;
      previousHash := GENESIS;
      log := [];
    }

    method Sign(payload: ReceiptPayload) returns (signed: SignedReceipt)
      requires Valid()
      modifies this
      ensures Valid()
      ensures signed == SignReceipt(crypto, old(previousHash), payload)
      ensures log == old(log) + [signed]
    {
      var raw := crypto.encodeReceipt(previousHash, payload);
      var receiptHash := crypto.hash(raw);
      var sig := crypto.sign(receiptHash);
      signed := SignedReceipt(payload, previousHash, receiptHash, crypto.publicKey, sig);
      ChainedExtends(crypto, log, payload);
      previousHash := receiptHash;
      log := log + [signed];
    }

    /** A detached signature verifies and does not touch the receipt chain. */
    method SignDetached(payload: Json) returns (payloadHash: string, signature: string)
      requires Valid()
      ensures payloadHash == crypto.hash(crypto.json(payload))
      ensures crypto.verify(payloadHash, signature, crypto.publicKey)
    {
      payloadHash := crypto.hash(crypto.json(payload));
      signature := crypto.sign(payloadHash);
    }
  }

  // ---- what a chain's tip determines -----------------------------------------------------

  datatype SignerCall = CallSign(payload: ReceiptPayload) | CallDetached(json: Json)

  /** The receipts that a signer in its initial state returns for a sequence of calls. */
  function SignerRun(c: Crypto, calls: seq<SignerCall>): seq<SignedReceipt> {
    if calls == [] then []
    else
      var before := SignerRun(c, calls[..|calls| - 1]);
      match calls[|calls| - 1]
      case CallSign(p) => before + [SignReceipt(c, Tip(before), p)]
      case CallDetached(_) => before
  }

  /** However signing and detached signing are mixed, the receipts form one verified chain. */
  lemma {:induction false} SignerRunChained(c: Crypto, calls: seq<SignerCall>)
    requires SignaturesVerify(c)
    ensures Chained(c, SignerRun(c, calls))
    ensures ServerSigned(c, SignerRun(c, calls))
  {
    if calls != [] {
      var init := calls[..|calls| - 1];
      SignerRunChained(c, init);
      if calls[|calls| - 1].CallSign? {
        ChainedExtends(c, SignerRun(c, init), calls[|calls| - 1].payload);
      }
    }
  }

  /**
   * The tip of a log determines the log: two logs made by the signer that end in the
   * same hash are equal, unless two texts with one hash, or a text that hashes to 64
   * zeros, come out of the comparison.
   */
  lemma {:induction false} TipDeterminesLog(c: Crypto, a: seq<SignedReceipt>, b: seq<SignedReceipt>)
    returns (x: string, y: string)
    requires EncodingInjective(c)
    requires Chained(c, a) && Chained(c, b) && Tip(a) == Tip(b)
    requires ServerSigned(c, a) && ServerSigned(c, b)
    ensures a == b || Collides(c.hash, x, y) || c.hash(x) == GENESIS
    decreases |a| + |b|
  {
    x, y := "", "";
    if a == [] && b == [] {
    } else if a == [] || b == [] {
      var r := if a == [] then b[|b| - 1] else a[|a| - 1];
      x := c.encodeReceipt(r.prevHash, r.payload);
    } else {
      var ra, rb := a[|a| - 1], b[|b| - 1];
      x, y := c.encodeReceipt(ra.prevHash, ra.payload), c.encodeReceipt(rb.prevHash, rb.payload);
      if x == y {
        var a', b' := a[..|a| - 1], b[..|b| - 1];
        x, y := TipDeterminesLog(c, a', b');
        assert a == a' + [ra] && b == b' + [rb];
      }
    }
  }
}
