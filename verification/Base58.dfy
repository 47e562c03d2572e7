/** Base58 encoding and the name filters built on it (extensions/null-resolver/codec.js). */
module Base58 {
  import opened Common
  import opened Bytes

  // ---- digits, least significant first ---------------------------------------------------------

  function Value(ds: seq<nat>): nat {
    if ds == [] then 0 else ds[0] + 58 * Value(ds[1..])
  }

  predicate AllDigits(ds: seq<nat>) {
    forall i :: 0 <= i < |ds| ==> ds[i] < 58
  }

  /** The top digit is not zero, except that zero itself is written as one digit. */
  predicate Canonical(ds: seq<nat>) {
    AllDigits(ds) && ds != [] && (ds == [0] || ds[|ds| - 1] != 0)
  }

  function CarryDigits(carry: nat): (ds: seq<nat>)
    ensures AllDigits(ds) && Value(ds) == carry
    ensures carry > 0 ==> ds != [] && ds[|ds| - 1] != 0
  {
    if carry == 0 then [] else [carry % 58] + CarryDigits(carry / 58)
  }

  /** `ds` times 256 plus `carry`, digit by digit. */
  function MulAdd(ds: seq<nat>, carry: nat): seq<nat> {
    if ds == [] then CarryDigits(carry)
    else [(carry + 256 * ds[0]) % 58] + MulAdd(ds[1..], (carry + 256 * ds[0]) / 58)
  }

  lemma {:induction false} MulAddValue(ds: seq<nat>, carry: nat)
    ensures Value(MulAdd(ds, carry)) == 256 * Value(ds) + carry && AllDigits(MulAdd(ds, carry))
    ensures |MulAdd(ds, carry)| >= |ds|
  {
    if ds != [] {
      MulAddValue(ds[1..], (carry + 256 * ds[0]) / 58);
    }
  }

  /** A top digit that is not zero stays not zero. */
  lemma {:induction false} MulAddTop(ds: seq<nat>, carry: nat)
    requires ds != [] && ds[|ds| - 1] != 0
    ensures var r := MulAdd(ds, carry); r != [] && r[|r| - 1] != 0
  {
    var out := (carry + 256 * ds[0]) / 58;
    if |ds| > 1 {
      MulAddTop(ds[1..], out);
    } else {
      assert MulAdd(ds, carry) == [(carry + 256 * ds[0]) % 58] + CarryDigits(out);
    }
  }

  function BytesValue(bs: seq<Byte>): nat {
    if bs == [] then 0 else 256 * BytesValue(bs[..|bs| - 1]) + bs[|bs| - 1]
  }

  function Digits(bs: seq<Byte>): seq<nat> {
    if bs == [] then [0] else MulAdd(Digits(bs[..|bs| - 1]), bs[|bs| - 1])
  }

  /** The digits are the canonical base-58 numeral of the bytes read as a base-256 one. */
  lemma {:induction false} DigitsCanonical(bs: seq<Byte>)
    ensures Canonical(Digits(bs)) && Value(Digits(bs)) == BytesValue(bs)
  {
    if bs != [] {
      var before, last := Digits(bs[..|bs| - 1]), bs[|bs| - 1];
      DigitsCanonical(bs[..|bs| - 1]);
      MulAddValue(before, last);
      if before == [0] {
        assert MulAdd(before, last) == [last % 58] + CarryDigits(last / 58);
      } else {
        MulAddTop(before, last);
      }
    }
  }

  // ---- the alphabet ----------------------------------------------------------------------------

  /** Digits and letters without `0`, `I`, `O` and `l`. */
  const ALPHABET: string := "123456789" + "ABCDEFGH" + "JKLMN" + "PQRSTUVWXYZ" + "abcdefghijk" + "mnopqrstuvwxyz"

  /** The alphabet, range by range. */
  function CharOf(d: nat): (c: char)
    requires d < 58
    ensures DigitOf(c) == Some(d) && (c == '1' <==> d == 0)
  {
    if d < 9 then '1' + d as char
    else if d < 17 then 'A' + (d - 9) as char
    else if d < 22 then 'J' + (d - 17) as char
    else if d < 33 then 'P' + (d - 22) as char
    else if d < 44 then 'a' + (d - 33) as char
    else 'm' + (d - 44) as char
  }

  function DigitOf(c: char): (d: Option<nat>)
    ensures d.Some? ==> d.value < 58
  {
    if '1' <= c <= '9' then Some((c - '1') as nat)
    else if 'A' <= c <= 'H' then Some((c - 'A') as nat + 9)
    else if 'J' <= c <= 'N' then Some((c - 'J') as nat + 17)
    else if 'P' <= c <= 'Z' then Some((c - 'P') as nat + 22)
    else if 'a' <= c <= 'k' then Some((c - 'a') as nat + 33)
    else if 'm' <= c <= 'z' then Some((c - 'm') as nat + 44)
    else None
  }

  lemma CharAt(d: nat)
    requires d < 58
    ensures |ALPHABET| == 58 && CharOf(d) == ALPHABET[d]
  {
  }

  lemma DigitAt(c: char, d: nat)
    ensures DigitOf(c) == Some(d) <==> d < 58 && CharOf(d) == c
  {
  }

  /** The digits are exactly the characters of the alphabet, in its order. */
  lemma AlphabetExactly(c: char, d: nat)
    ensures |ALPHABET| == 58 && (DigitOf(c) == Some(d) <==> d < 58 && ALPHABET[d] == c)
  {
    DigitAt(c, d);
    CharAt(if d < 58 then d else 0);
  }

  /** The digits as text, most significant first. */
  function Spell(ds: seq<nat>): string
    requires AllDigits(ds)
  {
    if ds == [] then "" else Spell(ds[1..]) + [CharOf(ds[0])]
  }

  // ---- encoding ----------------------------------------------------------------------------------

  function LeadingZeros(bs: seq<Byte>): (n: nat)
    ensures n <= |bs| && (forall i :: 0 <= i < n ==> bs[i] == 0) && (n < |bs| ==> bs[n] != 0)
  {
    if bs != [] && bs[0] == 0 then 1 + LeadingZeros(bs[1..]) else 0
  }

  function Ones(n: nat): (s: string)
    ensures |s| == n && forall i :: 0 <= i < n ==> s[i] == '1'
  {
    if n == 0 then "" else Ones(n - 1) + "1"
  }

  function Encode(bs: seq<Byte>): string {
    DigitsCanonical(bs);
    Ones(LeadingZeros(bs)) + Spell(Digits(bs))
  }

  lemma MulAddStep(done: seq<nat>, digits: seq<nat>, j: nat, carry: nat)
    requires j < |digits|
    ensures done + MulAdd(digits[j..], carry) ==
            (done + [(carry + digits[j] * 256) % 58]) + MulAdd(digits[j + 1..], (carry + digits[j] * 256) / 58)
  {
  }

  lemma CarryStep(done: seq<nat>, carry: nat)
    requires carry > 0
    ensures done + CarryDigits(carry) == (done + [carry % 58]) + CarryDigits(carry / 58)
  {
  }

  /** One byte into the number: the carry never exceeds 255 and every digit stays below 58. */
  method AddByte(digits: seq<nat>, byte: Byte) returns (r: seq<nat>)
    requires AllDigits(digits)
    ensures r == MulAdd(digits, byte) && AllDigits(r)
  {
    r := digits;
    var carry: nat := byte;
    for j := 0 to |digits|
      invariant |r| == |digits| && carry <= 255 && AllDigits(r)
      invariant r[j..] == digits[j..]
      invariant MulAdd(digits, byte) == r[..j] + MulAdd(digits[j..], carry)
    {
      assert r[j] == r[j..][0] == digits[j];
      MulAddStep(r[..j], digits, j, carry);
      carry := carry + r[j] * 256;
      ghost var before := r;
      r := r[j := carry % 58];
      assert r[..j + 1] == before[..j] + [carry % 58];
      assert r[j + 1..] == before[j..][1..] == digits[j + 1..];
      carry := carry / 58;
    }
    assert r[..|digits|] == r && digits[|digits|..] == [];
    while carry > 0
      invariant AllDigits(r) && MulAdd(digits, byte) == r + CarryDigits(carry)
    {
      CarryStep(r, carry);
      r := r + [carry % 58];
      carry := carry / 58;
    }
  }

  method Base58Encode(bytes: seq<Byte>) returns (result: string)
    ensures result == Encode(bytes)
  {
    var digits: seq<nat> := [0];
    for i := 0 to |bytes|
      invariant AllDigits(digits) && digits == Digits(bytes[..i])
    {
      assert bytes[..i + 1][..i] == bytes[..i];
      digits := AddByte(digits, bytes[i]);
    }
    assert bytes[..|bytes|] == bytes;
    result := "";
    var k := 0;
    while k < |bytes| && bytes[k] == 0
      invariant 0 <= k <= LeadingZeros(bytes) && result == Ones(k)
    {
      result := result + "1";
      k := k + 1;
    }
    ghost var ones := result;
    var i := |digits|;
    while i > 0
      invariant 0 <= i <= |digits| && result == ones + Spell(digits[i..])
    {
      i := i - 1;
      assert digits[i..][1..] == digits[i + 1..];
      result := result + [CharOf(digits[i])];
    }
  }

  // ---- the standard decoder --------------------------------------------------------------------

  function TextValue(s: string): (n: Option<nat>) {
    if s == "" then Some(0)
    else
      match TextValue(s[..|s| - 1])
      case None => None
      case Some(n) => if DigitOf(s[|s| - 1]).None? then None else Some(58 * n + DigitOf(s[|s| - 1]).value)
  }

  function LeadingOnes(s: string): nat {
    if s != "" && s[0] == '1' then 1 + LeadingOnes(s[1..]) else 0
  }

  /** The shortest big-endian bytes of `n`; none for zero. */
  function BytesOf(n: nat): seq<Byte> {
    if n == 0 then [] else BytesOf(n / 256) + [n % 256]
  }

  /** Section 3 of draft-msporny-base58-03: leading ones are zero bytes, the rest is a number. */
  function Decode(s: string): Option<seq<Byte>> {
    match TextValue(s)
    case None => None
    case Some(n) => Some(ZeroBytes(LeadingOnes(s)) + BytesOf(n))
  }

  lemma {:induction false} SpellValue(ds: seq<nat>)
    requires AllDigits(ds)
    ensures TextValue(Spell(ds)) == Some(Value(ds))
  {
    if ds != [] {
      var s := Spell(ds);
      assert s[..|s| - 1] == Spell(ds[1..]);
      SpellValue(ds[1..]);
    }
  }

  lemma {:induction false} OnesValue(n: nat, s: string)
    requires TextValue(s).Some?
    ensures TextValue(Ones(n) + s) == TextValue(s)
    decreases n, |s|
  {
    var t := Ones(n) + s;
    if s != "" {
      assert t[..|t| - 1] == Ones(n) + s[..|s| - 1];
      OnesValue(n, s[..|s| - 1]);
    } else if n > 0 {
      assert t == Ones(n) && t[..|t| - 1] == Ones(n - 1) + "";
      OnesValue(n - 1, "");
    }
  }

  lemma {:induction false} LeadingOnesCount(n: nat, s: string)
    ensures LeadingOnes(Ones(n) + s) == n + LeadingOnes(s)
  {
    if n == 0 {
      assert Ones(0) + s == s;
    } else {
      var t := Ones(n) + s;
      assert t[0] == '1';
      assert t[1..] == Ones(n - 1) + s by {
        assert Ones(n)[1..] == Ones(n - 1);
      }
      LeadingOnesCount(n - 1, s);
    }
  }

  lemma {:induction false} SpellTop(ds: seq<nat>)
    requires AllDigits(ds) && ds != []
    ensures Spell(ds) != "" && Spell(ds)[0] == CharOf(ds[|ds| - 1])
  {
    if |ds| > 1 {
      SpellTop(ds[1..]);
    }
  }

  lemma {:induction false} BytesOfValue(bs: seq<Byte>)
    requires bs == [] || bs[0] != 0
    ensures BytesOf(BytesValue(bs)) == bs && (bs != [] ==> BytesValue(bs) > 0)
  {
    if bs != [] {
      BytesOfValue(bs[..|bs| - 1]);
    }
  }

  lemma {:induction false} ZerosAddNothing(n: nat, bs: seq<Byte>)
    ensures BytesValue(ZeroBytes(n) + bs) == BytesValue(bs)
    decreases n, |bs|
  {
    var all := ZeroBytes(n) + bs;
    if bs != [] {
      assert all[..|all| - 1] == ZeroBytes(n) + bs[..|bs| - 1];
      ZerosAddNothing(n, bs[..|bs| - 1]);
    } else if n > 0 {
      assert all == ZeroBytes(n) && all[..|all| - 1] == ZeroBytes(n - 1) + [];
      ZerosAddNothing(n - 1, []);
    }
  }

  predicate AllZero(bs: seq<Byte>) {
    forall i :: 0 <= i < |bs| ==> bs[i] == 0
  }

  lemma EncodedValue(bs: seq<Byte>)
    ensures TextValue(Encode(bs)) == Some(BytesValue(bs))
  {
    DigitsCanonical(bs);
    SpellValue(Digits(bs));
    OnesValue(LeadingZeros(bs), Spell(Digits(bs)));
  }

  lemma StrippedValue(bs: seq<Byte>)
    ensures BytesValue(bs) == BytesValue(bs[LeadingZeros(bs)..])
    ensures bs == ZeroBytes(LeadingZeros(bs)) + bs[LeadingZeros(bs)..]
    ensures AllZero(bs) <==> BytesValue(bs) == 0
  {
    var z := LeadingZeros(bs);
    assert bs == ZeroBytes(z) + bs[z..];
    ZerosAddNothing(z, bs[z..]);
    BytesOfValue(bs[z..]);
  }

  lemma {:induction false} ZeroValue(ds: seq<nat>)
    ensures Value(ds) == 0 <==> forall i :: 0 <= i < |ds| ==> ds[i] == 0
  {
    if ds != [] {
      ZeroValue(ds[1..]);
      assert forall i :: 0 <= i < |ds| - 1 ==> ds[1..][i] == ds[i + 1];
    }
  }

  lemma EncodedOnes(bs: seq<Byte>)
    ensures LeadingOnes(Encode(bs)) == LeadingZeros(bs) + if AllZero(bs) then 1 else 0
    ensures AllZero(bs) ==> Encode(bs) == Ones(LeadingZeros(bs)) + "1"
  {
    var ds := Digits(bs);
    DigitsCanonical(bs);
    StrippedValue(bs);
    ZeroValue(ds);
    LeadingOnesCount(LeadingZeros(bs), Spell(ds));
    SpellTop(ds);
    if AllZero(bs) {
      assert ds == [0];
      assert Spell(ds[1..]) == "" && Spell(ds) == "1";
    }
  }

  /** Decoding gives the bytes back, except that an array of zeros gains one. */
  lemma DecodeEncode(bs: seq<Byte>)
    ensures Decode(Encode(bs)) == Some(if AllZero(bs) then bs + [0] else bs)
  {
    var z := LeadingZeros(bs);
    EncodedValue(bs);
    EncodedOnes(bs);
    StrippedValue(bs);
    BytesOfValue(bs[z..]);
    if AllZero(bs) {
      assert ZeroBytes(z + 1) + [] == bs + [0];
    }
  }

  /** The standard decoder inverts the encoder exactly on the arrays with a byte that is not zero. */
  lemma RoundTripExactly(bs: seq<Byte>)
    ensures Decode(Encode(bs)) == Some(bs) <==> !AllZero(bs)
  {
    DecodeEncode(bs);
  }

  /** An array of `n` zeros is encoded as `n + 1` ones. */
  lemma ZerosEncode(bs: seq<Byte>)
    requires AllZero(bs)
    ensures Encode(bs) == Ones(|bs| + 1)
  {
    EncodedOnes(bs);
  }

  lemma EncodeInjective(a: seq<Byte>, b: seq<Byte>)
    requires Encode(a) == Encode(b)
    ensures a == b
  {
    DecodeEncode(a);
    DecodeEncode(b);
    assert AllZero(a) ==> AllZero(a + [0]);
    assert AllZero(b) ==> AllZero(b + [0]);
    assert (a + [0])[..|a|] == a && (b + [0])[..|b|] == b;
  }
}
