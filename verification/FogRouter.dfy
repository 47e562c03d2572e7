/** The fog rewrite of a compiled v0 message (`build_fog_v0_tx` of crates/alt-fog-router/src/lib.rs). */
module FogRouter {

  type Pubkey = string

  type U8 = n: int | 0 <= n < 256

  /** Signers come first, writable ones before read-only ones; then the rest, writable ones first. */
  datatype Header = Header(signers: U8, readonlySigned: U8, readonlyUnsigned: U8)

  datatype CompiledInstruction = CompiledInstruction(program: nat, accounts: seq<nat>, data: string)

  /** `loaded` are the addresses that lookup tables append after the static keys. */
  datatype Message = Message(
    header: Header, keys: seq<Pubkey>, instructions: seq<CompiledInstruction>, blockhash: string, loaded: seq<Pubkey>)

  datatype FogTransaction = FogTransaction(message: Message, decoyCount: nat)

  predicate Distinct(ks: seq<Pubkey>) {
    forall i, j :: 0 <= i < j < |ks| ==> ks[i] != ks[j]
  }

  /** The header fits the static keys. */
  predicate WellFormed(m: Message) {
    && m.header.readonlySigned <= m.header.signers
    && m.header.signers + m.header.readonlyUnsigned <= |m.keys|
  }

  // ---- what an account index means --------------------------------------------------------------

  function Resolve(m: Message, i: nat): Pubkey
    requires i < |m.keys| + |m.loaded|
  {
    if i < |m.keys| then m.keys[i] else m.loaded[i - |m.keys|]
  }

  predicate IsSigner(m: Message, i: nat) {
    i < m.header.signers
  }

  /** For a static key. */
  predicate IsWritable(m: Message, i: nat) {
    if i < m.header.signers then i < m.header.signers - m.header.readonlySigned
    else i < |m.keys| - m.header.readonlyUnsigned
  }

  // ---- the rewrite ---------------------------------------------------------------------------------

  /** The decoys that are neither among the keys nor repeated, in order. */
  function Fresh(keys: seq<Pubkey>, decoys: seq<Pubkey>): (r: seq<Pubkey>)
    ensures forall k :: k in r ==> k in decoys && k !in keys
    ensures forall k :: k in decoys ==> k in keys || k in r
    ensures Distinct(r) && |r| <= |decoys|
  {
    if decoys == [] then []
    else
      var init, last := Fresh(keys, decoys[..|decoys| - 1]), decoys[|decoys| - 1];
      assert decoys == decoys[..|decoys| - 1] + [last];
      if last in keys || last in init then init else init + [last]
  }

  function Saturated(n: nat): U8 {
    if n > 255 then 255 else n
  }

  /** The whole rewrite: fresh decoys at the end, counted as read-only in saturating u8 arithmetic. */
  function Fogged(m: Message, decoys: seq<Pubkey>): Message {
    var extra := Fresh(m.keys, decoys);
    m.(keys := m.keys + extra,
       header := m.header.(readonlyUnsigned := Saturated(m.header.readonlyUnsigned + Saturated(|extra|))))
  }

  lemma FreshStep(keys: seq<Pubkey>, decoys: seq<Pubkey>, i: nat)
    requires i < |decoys|
    ensures Fresh(keys, decoys[..i + 1]) ==
            if decoys[i] in keys || decoys[i] in Fresh(keys, decoys[..i]) then Fresh(keys, decoys[..i])
            else Fresh(keys, decoys[..i]) + [decoys[i]]
  {
    assert decoys[..i + 1][..i] == decoys[..i];
  }

  lemma AppendStep(start: seq<Pubkey>, decoys: seq<Pubkey>, i: nat)
    requires i < |decoys|
    ensures var keys, next := start + Fresh(start, decoys[..i]), Fresh(start, decoys[..i + 1]);
            if decoys[i] in keys then next == Fresh(start, decoys[..i]) else start + next == keys + [decoys[i]]
  {
    FreshStep(start, decoys, i);
  }

  /** Appends the decoys that are not there yet, counting them in a saturating u8. */
  method AppendDecoys(start: seq<Pubkey>, decoys: seq<Pubkey>) returns (keys: seq<Pubkey>, added: U8)
    ensures keys == start + Fresh(start, decoys) && added == Saturated(|Fresh(start, decoys)|)
  {
    keys, added := start, 0;
    for i := 0 to |decoys|
      invariant keys == start + Fresh(start, decoys[..i]) && added == Saturated(|keys| - |start|)
    {
      AppendStep(start, decoys, i);
      if decoys[i] !in keys {
        keys := keys + [decoys[i]];
        added := if added == 255 then 255 else added + 1;
      }
    }
    assert decoys[..|decoys|] == decoys;
  }

  method BuildFogTx(compiled: Message, decoys: seq<Pubkey>) returns (tx: FogTransaction)
    ensures tx.message == Fogged(compiled, decoys)
    ensures tx.decoyCount == Saturated(|Fresh(compiled.keys, decoys)|)
  {
    var keys, added := AppendDecoys(compiled.keys, decoys);
    var header := compiled.header;
    if added > 0 {
      var sum := header.readonlyUnsigned + added;
      header := header.(readonlyUnsigned := if sum > 255 then 255 else sum);
    }
    tx := FogTransaction(compiled.(keys := keys, header := header), added);
  }

  // ---- meaning ---------------------------------------------------------------------------------------

  /** Every static key keeps its place and role, and every key that is new is a read-only non-signer. */
  ghost predicate KeepsRoles(m: Message, f: Message) {
    && m.keys <= f.keys
    && (forall i :: 0 <= i < |m.keys| ==>
        (IsSigner(f, i) <==> IsSigner(m, i)) && (IsWritable(f, i) <==> IsWritable(m, i)))
    && (forall i :: |m.keys| <= i < |f.keys| ==> !IsSigner(f, i) && !IsWritable(f, i))
  }

  /** Roles are kept exactly if the header can count the new read-only keys in a u8. */
  lemma RolesKeptExactly(m: Message, decoys: seq<Pubkey>)
    requires WellFormed(m)
    ensures KeepsRoles(m, Fogged(m, decoys)) <==> m.header.readonlyUnsigned + |Fresh(m.keys, decoys)| <= 255
  {
    var f, n, ro := Fogged(m, decoys), |Fresh(m.keys, decoys)|, m.header.readonlyUnsigned;
    if ro + n > 255 {
      // The first key past the old writable ones has become writable.
      var i := |m.keys| - ro;
      assert |f.keys| - f.header.readonlyUnsigned > i >= m.header.signers;
      assert IsWritable(f, i) && (i < |m.keys| ==> !IsWritable(m, i));
    }
  }

  predicate Refers(ix: CompiledInstruction, i: nat) {
    i == ix.program || i in ix.accounts
  }

  /** The instruction's program and accounts resolve to the same keys. */
  ghost predicate SameTargets(m: Message, f: Message, ix: CompiledInstruction) {
    forall i: nat :: Refers(ix, i) ==>
      && i < |m.keys| + |m.loaded| && i < |f.keys| + |f.loaded| && Resolve(f, i) == Resolve(m, i)
  }

  /** Every index that resolved before resolves to the same key. */
  ghost predicate SameKeys(m: Message, f: Message) {
    forall i: nat :: i < |m.keys| + |m.loaded| ==> i < |f.keys| + |f.loaded| && Resolve(f, i) == Resolve(m, i)
  }

  /**
   * The new decoys move the loaded addresses back, so all indices keep their keys exactly if
   * the loaded addresses read the same with the new decoys in front of them: in particular
   * when there are none, or when no decoy is new.
   */
  lemma KeysKeptExactly(m: Message, decoys: seq<Pubkey>)
    ensures SameKeys(m, Fogged(m, decoys)) <==> m.loaded <= Fresh(m.keys, decoys) + m.loaded
  {
    var f, extra := Fogged(m, decoys), Fresh(m.keys, decoys);
    forall i: nat | i < |m.keys| + |m.loaded|
      ensures Resolve(f, i) == if i < |m.keys| then m.keys[i] else (extra + m.loaded)[i - |m.keys|]
    {
    }
    if SameKeys(m, f) {
      forall j | 0 <= j < |m.loaded|
        ensures (extra + m.loaded)[j] == m.loaded[j]
      {
        assert Resolve(f, |m.keys| + j) == Resolve(m, |m.keys| + j);
      }
    } else {
      var i: nat :| i < |m.keys| + |m.loaded| && Resolve(f, i) != Resolve(m, i);
      assert (extra + m.loaded)[i - |m.keys|] != m.loaded[i - |m.keys|];
    }
  }

  /** When no loaded address is among the decoys, exactly if nothing is loaded or nothing is new. */
  lemma LookupsAreShifted(m: Message, decoys: seq<Pubkey>)
    requires forall k :: k in m.loaded ==> k !in decoys
    ensures SameKeys(m, Fogged(m, decoys)) <==> m.loaded == [] || Fresh(m.keys, decoys) == []
  {
    KeysKeptExactly(m, decoys);
    var extra := Fresh(m.keys, decoys);
    if m.loaded != [] && extra != [] {
      assert (extra + m.loaded)[0] == extra[0] && extra[0] in extra && m.loaded[0] in m.loaded;
    }
    if extra == [] {
      assert extra + m.loaded == m.loaded;
    }
  }

  /**
   * While the loaded addresses keep their places and the counts fit, the rewrite preserves
   * meaning: the same instructions on the same keys in the same roles, distinct keys, and an
   * exact decoy count.
   */
  lemma FogPreservesMeaning(m: Message, decoys: seq<Pubkey>, ix: CompiledInstruction)
    requires WellFormed(m) && Distinct(m.keys) && m.loaded <= Fresh(m.keys, decoys) + m.loaded
    requires m.header.readonlyUnsigned + |Fresh(m.keys, decoys)| <= 255
    requires ix in m.instructions && forall i: nat :: Refers(ix, i) ==> i < |m.keys| + |m.loaded|
    ensures var f := Fogged(m, decoys);
            && f.instructions == m.instructions && f.blockhash == m.blockhash && f.loaded == m.loaded && WellFormed(f)
            && SameTargets(m, f, ix) && KeepsRoles(m, f) && Distinct(f.keys)
            && |f.keys| == |m.keys| + Saturated(|Fresh(m.keys, decoys)|)
  {
    RolesKeptExactly(m, decoys);
    KeysKeptExactly(m, decoys);
    var f, extra := Fogged(m, decoys), Fresh(m.keys, decoys);
    forall i, j | 0 <= i < j < |f.keys|
      ensures f.keys[i] != f.keys[j]
    {
      if i < |m.keys| <= j {
        assert extra[j - |m.keys|] in extra;
      }
    }
  }

  /** The decoy count is exact up to 255 and stays there. */
  lemma DecoyCountExactly(m: Message, decoys: seq<Pubkey>)
    ensures Saturated(|Fresh(m.keys, decoys)|) == |Fogged(m, decoys).keys| - |m.keys| <==>
      |Fresh(m.keys, decoys)| <= 255
  {
  }
}
