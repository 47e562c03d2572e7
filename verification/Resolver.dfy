/** Looking up a `.null` domain by name (extensions/null-resolver/codec.js). */
module Resolver {
  import opened Common
  import opened Bytes
  import opened Base58

  const NULL_DOMAIN_SIZE := 154
  const NULL_DOMAIN_DISC: Byte := 0x4E
  const OFF_NAME := 1
  const OFF_CONTENT_HASH := 97
  const NAME_LEN := 64

  predicate HoldsAt(data: seq<Byte>, offset: nat, bs: seq<Byte>) {
    offset + |bs| <= |data| && data[offset..offset + |bs|] == bs
  }

  /** An account is selected if it holds the decoded bytes at the offset. */
  datatype Filter = Memcmp(offset: nat, bytes: string)

  predicate Matches(f: Filter, data: seq<Byte>) {
    match Decode(f.bytes)
    case None => false
    case Some(bs) => HoldsAt(data, f.offset, bs)
  }

  predicate Selects(fs: seq<Filter>, data: seq<Byte>) {
    forall i :: 0 <= i < |fs| ==> Matches(fs[i], data)
  }

  /** The name as the 64-byte field holds it; None if it does not fit. */
  function PadName(name: seq<Byte>): (r: Option<seq<Byte>>)
    ensures r.Some? <==> |name| <= NAME_LEN
    ensures r.Some? ==> |r.value| == NAME_LEN && name <= r.value && AllZero(r.value[|name|..])
  {
    if |name| > NAME_LEN then None else Some(name + ZeroBytes(NAME_LEN - |name|))
  }

  function DomainFilters(name: seq<Byte>): Option<seq<Filter>> {
    match PadName(name)
    case None => None
    case Some(padded) => Some([DiscriminatorFilter(), NameFilter(padded)])
  }

  function DiscriminatorFilter(): Filter {
    Memcmp(0, Encode([NULL_DOMAIN_DISC]))
  }

  function NameFilter(padded: seq<Byte>): Filter {
    Memcmp(OFF_NAME, Encode(padded))
  }

  function Stripped(name: seq<Byte>): (r: seq<Byte>)
    ensures r <= name && AllZero(name[|r|..]) && (r != [] ==> r[|r| - 1] != 0)
  {
    if name != [] && name[|name| - 1] == 0 then Stripped(name[..|name| - 1]) else name
  }

  /** Byte `i` of the padded name, in terms of what is left without the padding. */
  lemma PaddedAt(name: seq<Byte>, i: nat)
    requires |name| <= NAME_LEN && i < NAME_LEN
    ensures PadName(name).value[i] == if i < |Stripped(name)| then Stripped(name)[i] else 0
  {
  }

  /** The padded name determines what is left without the padding. */
  lemma PaddedDetermines(a: seq<Byte>, b: seq<Byte>)
    requires |a| <= NAME_LEN && |b| <= NAME_LEN && PadName(a) == PadName(b)
    ensures Stripped(a) <= Stripped(b)
  {
  }

  lemma StrippedDetermines(a: seq<Byte>, b: seq<Byte>)
    requires |a| <= NAME_LEN && |b| <= NAME_LEN && Stripped(a) == Stripped(b)
    ensures PadName(a) == PadName(b)
  {
    var p, q := PadName(a).value, PadName(b).value;
    forall i | 0 <= i < NAME_LEN
      ensures p[i] == q[i]
    {
      PaddedAt(a, i);
      PaddedAt(b, i);
    }
    assert p == q;
  }

  lemma PaddedEqual(a: seq<Byte>, b: seq<Byte>)
    requires |a| <= NAME_LEN && |b| <= NAME_LEN
    ensures PadName(a) == PadName(b) <==> Stripped(a) == Stripped(b)
  {
    if PadName(a) == PadName(b) {
      PaddedDetermines(a, b);
      PaddedDetermines(b, a);
    } else if Stripped(a) == Stripped(b) {
      StrippedDetermines(a, b);
    }
  }

  lemma FiltersDeterminePadded(a: seq<Byte>, b: seq<Byte>)
    requires |a| <= NAME_LEN && |b| <= NAME_LEN
    ensures DomainFilters(a) == DomainFilters(b) <==> PadName(a) == PadName(b)
  {
    var p, q := PadName(a).value, PadName(b).value;
    var f, g := DomainFilters(a).value, DomainFilters(b).value;
    assert f[1] == NameFilter(p) && g[1] == NameFilter(q) && f[0] == g[0];
    if f == g {
      EncodeInjective(p, q);
    }
  }

  /** Two names have the same filters exactly if they differ at most in trailing NULs. */
  lemma FiltersAgree(a: seq<Byte>, b: seq<Byte>)
    requires |a| <= NAME_LEN && |b| <= NAME_LEN
    ensures DomainFilters(a) == DomainFilters(b) <==> Stripped(a) == Stripped(b)
    ensures (forall c :: c in a || c in b ==> c != 0) && DomainFilters(a) == DomainFilters(b) ==> a == b
  {
    PaddedEqual(a, b);
    FiltersDeterminePadded(a, b);
    if forall c :: c in a || c in b ==> c != 0 {
      NothingToStrip(a);
      NothingToStrip(b);
    }
  }

  lemma NothingToStrip(name: seq<Byte>)
    requires forall c :: c in name ==> c != 0
    ensures Stripped(name) == name
  {
    assert name != [] ==> name[|name| - 1] in name;
  }

  /** An encoded filter compares its own bytes, and one zero more if they are all zero. */
  lemma MatchesItsBytes(offset: nat, bs: seq<Byte>, data: seq<Byte>)
    ensures Matches(Memcmp(offset, Encode(bs)), data) <==> HoldsAt(data, offset, if AllZero(bs) then bs + [0] else bs)
  {
    DecodeEncode(bs);
    MatchesDecoded(Memcmp(offset, Encode(bs)), if AllZero(bs) then bs + [0] else bs, data);
  }

  lemma MatchesDecoded(f: Filter, bs: seq<Byte>, data: seq<Byte>)
    requires Decode(f.bytes) == Some(bs)
    ensures Matches(f, data) <==> HoldsAt(data, f.offset, bs)
  {
  }

  lemma PaddedZero(name: seq<Byte>)
    requires |name| <= NAME_LEN
    ensures AllZero(PadName(name).value) <==> AllZero(name)
  {
  }

  /**
   * A name with any byte that is not NUL selects exactly the accounts that store it. The
   * empty name is compared one byte too far, into the owner field.
   */
  lemma SelectsByName(name: seq<Byte>, data: seq<Byte>)
    requires |name| <= NAME_LEN
    ensures Selects(DomainFilters(name).value, data) <==>
            var padded := PadName(name).value;
            HoldsAt(data, 0, [NULL_DOMAIN_DISC]) &&
              HoldsAt(data, OFF_NAME, if AllZero(name) then padded + [0] else padded)
  {
    var fs, padded := DomainFilters(name).value, PadName(name).value;
    DiscriminatorMatches(data);
    MatchesItsBytes(OFF_NAME, padded, data);
    PaddedZero(name);
    assert fs == [DiscriminatorFilter(), NameFilter(padded)];
    assert Selects(fs, data) <==> Matches(fs[0], data) && Matches(fs[1], data);
  }

  lemma DiscriminatorMatches(data: seq<Byte>)
    ensures Matches(DiscriminatorFilter(), data) <==> HoldsAt(data, 0, [NULL_DOMAIN_DISC])
  {
    var bs := [NULL_DOMAIN_DISC];
    assert bs[0] != 0;
    MatchesItsBytes(0, bs, data);
  }

  /** The leading fields of a domain account; later program versions only append to `rest`. */
  datatype Domain = Domain(name: seq<Byte>, owner: seq<Byte>, contentHash: seq<Byte>, rest: seq<Byte>)

  predicate WellSized(d: Domain) {
    |d.name| == NAME_LEN && |d.owner| == 32 && |d.contentHash| == 32 && |d.rest| >= 25
  }

  function Pack(d: Domain): seq<Byte> {
    [NULL_DOMAIN_DISC] + d.name + d.owner + d.contentHash + d.rest
  }

  function DecodeContentHash(raw: seq<Byte>): (r: Option<seq<Byte>>)
    ensures r.None? <==> |raw| < NULL_DOMAIN_SIZE || raw[0] != NULL_DOMAIN_DISC
    ensures r.Some? ==> |r.value| == 32 && forall i :: 0 <= i < 32 ==> r.value[i] == raw[OFF_CONTENT_HASH + i]
  {
    if |raw| < NULL_DOMAIN_SIZE || raw[0] != NULL_DOMAIN_DISC then None
    else Some(raw[OFF_CONTENT_HASH..OFF_CONTENT_HASH + 32])
  }

  /** Resolving a name finds its own account, no other, and yields that account's content hash. */
  lemma NameResolves(name: seq<Byte>, d: Domain)
    requires |name| <= NAME_LEN && !AllZero(name) && WellSized(d)
    ensures Selects(DomainFilters(name).value, Pack(d)) <==> d.name == PadName(name).value
    ensures DecodeContentHash(Pack(d)) == Some(d.contentHash)
  {
    var data := Pack(d);
    SelectsByName(name, data);
    assert data[0..1] == [NULL_DOMAIN_DISC] && data[OFF_NAME..OFF_NAME + NAME_LEN] == d.name;
    assert data[OFF_CONTENT_HASH..OFF_CONTENT_HASH + 32] == d.contentHash;
  }

  /** The empty name misses an account that stores it whenever its owner does not start with a zero byte. */
  lemma EmptyNameMisses(name: seq<Byte>, d: Domain)
    requires |name| <= NAME_LEN && AllZero(name) && WellSized(d) && d.name == PadName(name).value
    ensures Selects(DomainFilters(name).value, Pack(d)) <==> d.owner[0] == 0
  {
    var data := Pack(d);
    SelectsByName(name, data);
    assert data[0..1] == [NULL_DOMAIN_DISC];
    assert data[OFF_NAME..OFF_NAME + NAME_LEN + 1] == d.name + [d.owner[0]];
    assert (d.name + [d.owner[0]])[NAME_LEN] == d.owner[0] && (d.name + [0])[NAME_LEN] == 0;
  }
}
