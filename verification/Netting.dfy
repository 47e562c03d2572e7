/** The bilateral netting ledger (x402/src/nettingLedger.ts). */
module Netting {
  import opened Common
  import opened Receipts

  /** A missing fee threshold is 0, which switches that trigger off. */
  datatype Options = Options(threshold: nat, intervalMs: int, feeThreshold: nat)

  /** A payer-signed cumulative voucher; everything but the running total is opaque. */
  datatype Voucher = Voucher(cumulative: nat, text: string)

  datatype Charge = Charge(
    payer: string, provider: string, amount: nat, fee: nat,
    quoteId: nat, commitId: nat, at: int, voucher: Option<Voucher>)

  datatype Entry = Entry(
    payer: string, provider: string, gross: nat, providerDue: nat, feeDue: nat, charges: nat,
    firstSeen: int, lastUpdated: int, quoteIds: seq<nat>, commitIds: seq<nat>, voucher: Option<Voucher>)

  datatype Batch = Batch(
    key: string, payer: string, provider: string, settle: nat, providerAmount: nat, platformFee: nat,
    quoteIds: seq<nat>, commitIds: seq<nat>, voucher: Option<Voucher>)

  /** The entries together with the insertion order in which a JavaScript Map lists its keys. */
  datatype Ledger = Ledger(entries: map<string, Entry>, order: seq<string>)

  const EMPTY: Ledger := Ledger(map[], [])

  function KeyOf(payer: string, provider: string): string {
    ToLower(payer) + "::" + provider
  }

  // ---- the operations as functions on the ledger's value ---------------------------------

  /** The later voucher wins only with a strictly larger running total. */
  function Latest(held: Option<Voucher>, offered: Option<Voucher>): Option<Voucher> {
    if offered.Some? && (held.None? || offered.value.cumulative > held.value.cumulative) then offered else held
  }

  function EntryAfter(held: Option<Entry>, c: Charge): Entry {
    if held.None? then
      Entry(ToLower(c.payer), c.provider, c.amount + c.fee, c.amount, c.fee, 1, c.at, c.at,
            [c.quoteId], [c.commitId], c.voucher)
    else
      var e := held.value;
      e.(gross := e.gross + (c.amount + c.fee), providerDue := e.providerDue + c.amount,
         feeDue := e.feeDue + c.fee, charges := e.charges + 1, lastUpdated := c.at,
         quoteIds := e.quoteIds + [c.quoteId], commitIds := e.commitIds + [c.commitId],
         voucher := Latest(e.voucher, c.voucher))
  }

  function Lookup(l: Ledger, key: string): Option<Entry> {
    if key in l.entries then Some(l.entries[key]) else None
  }

  function Add(l: Ledger, c: Charge): Ledger {
    var key := KeyOf(c.payer, c.provider);
    Ledger(l.entries[key := EntryAfter(Lookup(l, key), c)],
           if key in l.entries then l.order else l.order + [key])
  }

  predicate IsReady(o: Options, e: Entry, now: int) {
    || e.gross >= o.threshold
    || (o.feeThreshold > 0 && e.feeDue >= o.feeThreshold)
    || now - e.firstSeen >= o.intervalMs
  }

  function ToBatch(key: string, e: Entry): Batch {
    Batch(key, e.payer, e.provider, e.gross, e.providerDue, e.feeDue, e.quoteIds, e.commitIds, e.voucher)
  }

  predicate Selected(l: Ledger, o: Options, now: int, needVoucher: bool, key: string) {
    key in l.entries && IsReady(o, l.entries[key], now) && (needVoucher ==> l.entries[key].voucher.Some?)
  }

  /** The keys among `ks` that a flush picks, in order. */
  function Picked(l: Ledger, o: Options, now: int, needVoucher: bool, ks: seq<string>): (r: seq<string>)
    ensures forall k :: k in r <==> k in ks && Selected(l, o, now, needVoucher, k)
  {
    if ks == [] then []
    else
      var init, last := ks[..|ks| - 1], ks[|ks| - 1];
      assert ks == init + [last];
      Picked(l, o, now, needVoucher, init) + (if Selected(l, o, now, needVoucher, last) then [last] else [])
  }

  function BatchesOf(l: Ledger, ks: seq<string>): seq<Batch>
    requires forall k :: k in ks ==> k in l.entries
  {
    if ks == [] then [] else BatchesOf(l, ks[..|ks| - 1]) + [ToBatch(ks[|ks| - 1], l.entries[ks[|ks| - 1]])]
  }

  function Without(ks: seq<string>, key: string): (r: seq<string>)
    ensures forall k :: k in r <==> k in ks && k != key
  {
    if ks == [] then []
    else
      assert ks == ks[..|ks| - 1] + [ks[|ks| - 1]];
      Without(ks[..|ks| - 1], key) + (if ks[|ks| - 1] == key then [] else [ks[|ks| - 1]])
  }

  function Remove(l: Ledger, key: string): Ledger {
    Ledger(l.entries - {key}, Without(l.order, key))
  }

  function RemoveAll(l: Ledger, ks: seq<string>): Ledger {
    if ks == [] then l else Remove(RemoveAll(l, ks[..|ks| - 1]), ks[|ks| - 1])
  }

  function Flush(l: Ledger, o: Options, now: int, needVoucher: bool): (Ledger, seq<Batch>) {
    var ks := Picked(l, o, now, needVoucher, l.order);
    (RemoveAll(l, ks), BatchesOf(l, ks))
  }

  ghost predicate Distinct(ks: seq<string>) {
    forall i, j :: 0 <= i < j < |ks| ==> ks[i] != ks[j]
  }

  /** The order lists every key once, and an entry holds at least one charge. */
  ghost predicate WellFormed(l: Ledger) {
    && Distinct(l.order)
    && (forall k :: k in l.order <==> k in l.entries)
    && (forall k :: k in l.entries ==> |l.entries[k].commitIds| > 0)
  }

  // ---- what a set of charges, batches or entries is worth --------------------------------

  datatype Totals = Totals(
    gross: nat, provider: nat, fee: nat, quoteIds: seq<nat>, commitIds: seq<nat>)
  {
    function Plus(t: Totals): Totals {
      Totals(gross + t.gross, provider + t.provider, fee + t.fee,
             quoteIds + t.quoteIds, commitIds + t.commitIds)
    }
  }

  const ZERO: Totals := Totals(0, 0, 0, [], [])

  lemma PlusCancels(a: Totals, b: Totals, c: Totals)
    requires a.Plus(b) == a.Plus(c)
    ensures b == c
  {
    assert (a.quoteIds + b.quoteIds)[|a.quoteIds|..] == b.quoteIds;
    assert (a.quoteIds + c.quoteIds)[|a.quoteIds|..] == c.quoteIds;
    assert (a.commitIds + b.commitIds)[|a.commitIds|..] == b.commitIds;
    assert (a.commitIds + c.commitIds)[|a.commitIds|..] == c.commitIds;
  }

  lemma PlusAssociative(a: Totals, b: Totals, c: Totals)
    ensures a.Plus(b).Plus(c) == a.Plus(b.Plus(c))
  {
  }

  function ChargeTotals(c: Charge): Totals {
    Totals(c.amount + c.fee, c.amount, c.fee, [c.quoteId], [c.commitId])
  }

  function Charged(log: seq<Charge>, key: string): Totals {
    if log == [] then ZERO
    else
      var before, c := Charged(log[..|log| - 1], key), log[|log| - 1];
      if KeyOf(c.payer, c.provider) == key then before.Plus(ChargeTotals(c)) else before
  }

  function BatchTotals(b: Batch): Totals {
    Totals(b.settle, b.providerAmount, b.platformFee, b.quoteIds, b.commitIds)
  }

  function Flushed(out: seq<Batch>, key: string): Totals {
    if out == [] then ZERO
    else
      var before, b := Flushed(out[..|out| - 1], key), out[|out| - 1];
      if b.key == key then before.Plus(BatchTotals(b)) else before
  }

  function Worth(e: Entry): Totals {
    Totals(e.gross, e.providerDue, e.feeDue, e.quoteIds, e.commitIds)
  }

  /** What was flushed under `key`, followed by what is outstanding under it. */
  function Accounted(l: Ledger, out: seq<Batch>, key: string): Totals {
    if key in l.entries then Flushed(out, key).Plus(Worth(l.entries[key])) else Flushed(out, key)
  }

  /**
   * The conservation law: per key, all that was charged is what was flushed followed by
   * what is outstanding - three sums and two id lists, in order.
   */
  ghost predicate Conserved(l: Ledger, log: seq<Charge>, out: seq<Batch>) {
    forall key :: Charged(log, key) == Accounted(l, out, key)
  }

  // ---- conservation, operation by operation ----------------------------------------------

  lemma {:induction false} RemoveAllLookup(l: Ledger, ks: seq<string>, key: string)
    ensures Lookup(RemoveAll(l, ks), key) == if key in ks then None else Lookup(l, key)
  {
    if ks != [] {
      RemoveAllLookup(l, ks[..|ks| - 1], key);
      assert ks == ks[..|ks| - 1] + [ks[|ks| - 1]];
    }
  }

  lemma {:induction false} WithoutDistinct(ks: seq<string>, key: string)
    requires Distinct(ks)
    ensures Distinct(Without(ks, key))
  {
    if ks != [] {
      WithoutDistinct(ks[..|ks| - 1], key);
      assert ks[|ks| - 1] !in ks[..|ks| - 1];
    }
  }

  lemma {:induction false} RemoveAllWellFormed(l: Ledger, ks: seq<string>)
    requires WellFormed(l)
    ensures WellFormed(RemoveAll(l, ks))
  {
    if ks != [] {
      RemoveAllWellFormed(l, ks[..|ks| - 1]);
      WithoutDistinct(RemoveAll(l, ks[..|ks| - 1]).order, ks[|ks| - 1]);
    }
  }

  lemma {:induction false} PickedDistinct(l: Ledger, o: Options, now: int, needVoucher: bool, ks: seq<string>)
    requires Distinct(ks)
    ensures Distinct(Picked(l, o, now, needVoucher, ks))
  {
    if ks != [] {
      PickedDistinct(l, o, now, needVoucher, ks[..|ks| - 1]);
      assert ks[|ks| - 1] !in ks[..|ks| - 1];
    }
  }

  /** Appending the batches made for distinct keys flushes exactly the entries under them. */
  lemma {:induction false} FlushedBatches(l: Ledger, ks: seq<string>, out: seq<Batch>, key: string)
    requires Distinct(ks) && forall k :: k in ks ==> k in l.entries
    ensures Flushed(out + BatchesOf(l, ks), key) ==
            if key in ks then Flushed(out, key).Plus(Worth(l.entries[key])) else Flushed(out, key)
  {
    if ks == [] {
      assert out + BatchesOf(l, ks) == out;
    } else {
      var init, last := ks[..|ks| - 1], ks[|ks| - 1];
      FlushedBatches(l, init, out, key);
      assert ks == init + [last] && last !in init;
      var bs, b := out + BatchesOf(l, init), ToBatch(last, l.entries[last]);
      assert out + BatchesOf(l, ks) == bs + [b];
      assert (bs + [b])[..|bs|] == bs;
    }
  }

  lemma AddConserves(l: Ledger, c: Charge, log: seq<Charge>, out: seq<Batch>)
    requires Conserved(l, log, out)
    ensures Conserved(Add(l, c), log + [c], out)
  {
    forall key
      ensures Charged(log + [c], key) == Accounted(Add(l, c), out, key)
    {
      assert (log + [c])[..|log|] == log;
      if KeyOf(c.payer, c.provider) == key && key in l.entries {
        PlusAssociative(Flushed(out, key), Worth(l.entries[key]), ChargeTotals(c));
      }
    }
  }

  lemma FlushConserves(l: Ledger, o: Options, now: int, needVoucher: bool, log: seq<Charge>, out: seq<Batch>)
    requires WellFormed(l) && Conserved(l, log, out)
    ensures WellFormed(Flush(l, o, now, needVoucher).0)
    ensures Conserved(Flush(l, o, now, needVoucher).0, log, out + Flush(l, o, now, needVoucher).1)
  {
    var ks := Picked(l, o, now, needVoucher, l.order);
    PickedDistinct(l, o, now, needVoucher, l.order);
    RemoveAllWellFormed(l, ks);
    var l', bs := RemoveAll(l, ks), BatchesOf(l, ks);
    forall key
      ensures Charged(log, key) == Accounted(l', out + bs, key)
    {
      FlushedBatches(l, ks, out, key);
      RemoveAllLookup(l, ks, key);
    }
  }

  /** Per key, gross is provider plus fee in everything charged, flushed or outstanding. */
  lemma {:induction false} GrossSplits(log: seq<Charge>, key: string)
    ensures Charged(log, key).gross == Charged(log, key).provider + Charged(log, key).fee
  {
    if log != [] {
      GrossSplits(log[..|log| - 1], key);
    }
  }

  // ---- an entry is the fold of its unflushed charges ---------------------------------------

  function KeyCharges(log: seq<Charge>, key: string): seq<Charge> {
    if log == [] then []
    else
      var before, c := KeyCharges(log[..|log| - 1], key), log[|log| - 1];
      if KeyOf(c.payer, c.provider) == key then before + [c] else before
  }

  function Fold(cs: seq<Charge>): Option<Entry> {
    if cs == [] then None else Some(EntryAfter(Fold(cs[..|cs| - 1]), cs[|cs| - 1]))
  }

  lemma {:induction false} KeyChargesLength(log: seq<Charge>, key: string)
    ensures |Charged(log, key).commitIds| == |KeyCharges(log, key)|
  {
    if log != [] {
      KeyChargesLength(log[..|log| - 1], key);
    }
  }

  /** The charges under `key` that no batch has taken yet. */
  function Unflushed(log: seq<Charge>, out: seq<Batch>, key: string): seq<Charge> {
    var n := |Flushed(out, key).commitIds|;
    if n <= |KeyCharges(log, key)| then KeyCharges(log, key)[n..] else []
  }

  /**
   * Nothing of the past but the unflushed charges shows in an entry: its sums and ids, the
   * time it was first seen, its count and its best voucher are those of these charges.
   */
  ghost predicate Folded(l: Ledger, log: seq<Charge>, out: seq<Batch>) {
    forall key :: Lookup(l, key) == Fold(Unflushed(log, out, key))
  }

  lemma AddFolds(l: Ledger, c: Charge, log: seq<Charge>, out: seq<Batch>)
    requires Folded(l, log, out) && Conserved(l, log, out)
    ensures Folded(Add(l, c), log + [c], out)
  {
    forall key
      ensures Lookup(Add(l, c), key) == Fold(Unflushed(log + [c], out, key))
    {
      KeyChargesLength(log, key);
      assert Charged(log, key) == Accounted(l, out, key);
      UnflushedSnoc(log, out, c, key);
    }
  }

  lemma UnflushedSnoc(log: seq<Charge>, out: seq<Batch>, c: Charge, key: string)
    requires |Flushed(out, key).commitIds| <= |KeyCharges(log, key)|
    ensures Fold(Unflushed(log + [c], out, key)) ==
            if KeyOf(c.payer, c.provider) == key then Some(EntryAfter(Fold(Unflushed(log, out, key)), c))
            else Fold(Unflushed(log, out, key))
  {
    assert (log + [c])[..|log|] == log;
    if KeyOf(c.payer, c.provider) == key {
      var before, after := Unflushed(log, out, key), Unflushed(log + [c], out, key);
      assert after == before + [c];
      assert after[..|after| - 1] == before;
    }
  }

  lemma FlushFolds(l: Ledger, o: Options, now: int, needVoucher: bool, log: seq<Charge>, out: seq<Batch>)
    requires WellFormed(l) && Folded(l, log, out) && Conserved(l, log, out)
    ensures Folded(Flush(l, o, now, needVoucher).0, log, out + Flush(l, o, now, needVoucher).1)
  {
    var ks := Picked(l, o, now, needVoucher, l.order);
    PickedDistinct(l, o, now, needVoucher, l.order);
    forall key
      ensures Lookup(RemoveAll(l, ks), key) == Fold(Unflushed(log, out + BatchesOf(l, ks), key))
    {
      FlushedBatches(l, ks, out, key);
      RemoveAllLookup(l, ks, key);
      KeyChargesLength(log, key);
      assert Charged(log, key) == Accounted(l, out, key);
    }
  }

  // ---- whole runs --------------------------------------------------------------------------

  /** `Settle` is `flushToSettlement` with the sink's verdict, nothing happening meanwhile. */
  datatype Op = OpAdd(charge: Charge) | OpFlush(now: int) | OpSettle(now: int, sinkOk: bool)

  datatype World = World(ledger: Ledger, log: seq<Charge>, out: seq<Batch>)

  function Apply(o: Options, w: World, op: Op): World {
    match op
    case OpAdd(c) => World(Add(w.ledger, c), w.log + [c], w.out)
    case OpFlush(now) =>
      var (l, bs) := Flush(w.ledger, o, now, false);
      World(l, w.log, w.out + bs)
    case OpSettle(now, sinkOk) =>
      var (l, bs) := Flush(w.ledger, o, now, true);
      if sinkOk then World(l, w.log, w.out + bs) else w
  }

  function RunFrom(o: Options, w: World, ops: seq<Op>): World {
    if ops == [] then w else Apply(o, RunFrom(o, w, ops[..|ops| - 1]), ops[|ops| - 1])
  }

  ghost predicate Sound(w: World) {
    WellFormed(w.ledger) && Conserved(w.ledger, w.log, w.out) && Folded(w.ledger, w.log, w.out)
  }

  lemma {:induction false} RunSound(o: Options, w: World, ops: seq<Op>)
    requires Sound(w)
    ensures Sound(RunFrom(o, w, ops))
  {
    if ops != [] {
      RunSound(o, w, ops[..|ops| - 1]);
      var v := RunFrom(o, w, ops[..|ops| - 1]);
      match ops[|ops| - 1]
      case OpAdd(c) =>
        AddConserves(v.ledger, c, v.log, v.out);
        AddFolds(v.ledger, c, v.log, v.out);
      case OpFlush(now) =>
        FlushConserves(v.ledger, o, now, false, v.log, v.out);
        FlushFolds(v.ledger, o, now, false, v.log, v.out);
      case OpSettle(now, sinkOk) =>
        FlushConserves(v.ledger, o, now, true, v.log, v.out);
        FlushFolds(v.ledger, o, now, true, v.log, v.out);
    }
  }

  /** Conservation over every run that starts with an empty ledger. */
  lemma NettingConserves(o: Options, ops: seq<Op>, key: string)
    ensures var w := RunFrom(o, World(EMPTY, [], []), ops);
            && Charged(w.log, key) == Accounted(w.ledger, w.out, key)
            && Charged(w.log, key).gross == Charged(w.log, key).provider + Charged(w.log, key).fee
            && Lookup(w.ledger, key) == Fold(Unflushed(w.log, w.out, key))
  {
    var start := World(EMPTY, [], []);
    RunSound(o, start, ops);
    GrossSplits(RunFrom(o, start, ops).log, key);
  }

  // ---- what an entry says, in terms of its charges -----------------------------------------

  /** `v` is the voucher with the largest running total among those of `cs`, the earliest of these. */
  ghost predicate BestVoucher(cs: seq<Charge>, v: Option<Voucher>) {
    if v.None? then forall j :: 0 <= j < |cs| ==> cs[j].voucher.None?
    else exists i :: 0 <= i < |cs| && IsBest(cs, i) && cs[i].voucher == v
  }

  ghost predicate IsBest(cs: seq<Charge>, i: nat) {
    && i < |cs| && cs[i].voucher.Some?
    && (forall j :: 0 <= j < i && cs[j].voucher.Some? ==>
          cs[j].voucher.value.cumulative < cs[i].voucher.value.cumulative)
    && (forall j :: i < j < |cs| && cs[j].voucher.Some? ==>
          cs[j].voucher.value.cumulative <= cs[i].voucher.value.cumulative)
  }

  /** The entry for `cs`: count, first and last time, the pair as first named, and the best voucher. */
  ghost predicate SpeaksFor(e: Entry, cs: seq<Charge>) {
    && cs != [] && e.charges == |cs| && e.firstSeen == cs[0].at && e.lastUpdated == cs[|cs| - 1].at
    && |e.payer| == |cs[0].payer| && (forall i :: 0 <= i < |e.payer| ==> e.payer[i] == Lower(cs[0].payer[i]))
    && e.provider == cs[0].provider && BestVoucher(cs, e.voucher)
  }

  lemma {:induction false} FoldSpeaks(cs: seq<Charge>)
    requires cs != []
    ensures SpeaksFor(Fold(cs).value, cs)
  {
    var init, c := cs[..|cs| - 1], cs[|cs| - 1];
    if init != [] {
      FoldSpeaks(init);
      BetterVoucher(init, Fold(init).value.voucher, c);
      assert init + [c] == cs;
    } else {
      assert Fold(init).None?;
      assert c.voucher.Some? ==> IsBest(cs, 0);
    }
  }

  lemma StaysBest(cs: seq<Charge>, i: nat, c: Charge)
    requires IsBest(cs, i) && (c.voucher.Some? ==> c.voucher.value.cumulative <= cs[i].voucher.value.cumulative)
    ensures IsBest(cs + [c], i)
  {
  }

  lemma BecomesBest(cs: seq<Charge>, i: nat, c: Charge)
    requires IsBest(cs, i) && c.voucher.Some? && c.voucher.value.cumulative > cs[i].voucher.value.cumulative
    ensures IsBest(cs + [c], |cs|)
  {
  }

  lemma FirstIsBest(cs: seq<Charge>, c: Charge)
    requires c.voucher.Some? && forall j :: 0 <= j < |cs| ==> cs[j].voucher.None?
    ensures IsBest(cs + [c], |cs|)
  {
  }

  lemma BetterVoucher(cs: seq<Charge>, v: Option<Voucher>, c: Charge)
    requires BestVoucher(cs, v)
    ensures BestVoucher(cs + [c], if c.voucher.Some? && (v.None? || c.voucher.value.cumulative > v.value.cumulative)
                                  then c.voucher else v)
  {
    var all := cs + [c];
    if v.Some? {
      var i :| 0 <= i < |cs| && IsBest(cs, i) && cs[i].voucher == v;
      if c.voucher.Some? && c.voucher.value.cumulative > v.value.cumulative {
        BecomesBest(cs, i, c);
        assert all[|cs|].voucher == c.voucher;
      } else {
        StaysBest(cs, i, c);
        assert all[i].voucher == v;
      }
    } else if c.voucher.Some? {
      FirstIsBest(cs, c);
      assert all[|cs|].voucher == c.voucher;
    }
  }

  lemma {:induction false} KeyChargesKeyed(log: seq<Charge>, key: string)
    ensures forall i :: 0 <= i < |KeyCharges(log, key)| ==>
      KeyOf(KeyCharges(log, key)[i].payer, KeyCharges(log, key)[i].provider) == key
  {
    if log != [] {
      KeyChargesKeyed(log[..|log| - 1], key);
    }
  }

  /** In every run an entry speaks for exactly the charges under its key that no batch has taken. */
  lemma EntriesSpeak(o: Options, ops: seq<Op>, key: string)
    ensures var w := RunFrom(o, World(EMPTY, [], []), ops);
            var cs := Unflushed(w.log, w.out, key);
            && (key in w.ledger.entries <==> cs != [])
            && (key in w.ledger.entries ==> SpeaksFor(w.ledger.entries[key], cs))
            && forall i :: 0 <= i < |cs| ==> KeyOf(cs[i].payer, cs[i].provider) == key
  {
    NettingConserves(o, ops, key);
    var w := RunFrom(o, World(EMPTY, [], []), ops);
    var cs := Unflushed(w.log, w.out, key);
    KeyChargesKeyed(w.log, key);
    if cs != [] {
      FoldSpeaks(cs);
    }
  }

  // ---- which entries a flush takes -----------------------------------------------------------

  /** `a` is listed before `b`. */
  ghost predicate Before(ks: seq<string>, a: string, b: string) {
    exists i, j :: 0 <= i < j < |ks| && ks[i] == a && ks[j] == b
  }

  lemma BeforeSnoc(ks: seq<string>, k: string, a: string, b: string)
    ensures Before(ks + [k], a, b) <==> Before(ks, a, b) || (a in ks && b == k)
  {
    var all := ks + [k];
    if Before(all, a, b) {
      var i, j :| 0 <= i < j < |all| && all[i] == a && all[j] == b;
      assert ks[i] == a;
    }
    if Before(ks, a, b) {
      var i, j :| 0 <= i < j < |ks| && ks[i] == a && ks[j] == b;
      assert all[i] == a && all[j] == b;
    }
    if a in ks && b == k {
      var i :| 0 <= i < |ks| && ks[i] == a;
      assert all[i] == a && all[|ks|] == b;
    }
  }

  lemma {:induction false} PickedInOrder(l: Ledger, o: Options, now: int, needVoucher: bool, ks: seq<string>, a: string,
                                         b: string)
    requires Before(Picked(l, o, now, needVoucher, ks), a, b)
    ensures Before(ks, a, b)
  {
    if ks != [] {
      var init, last := ks[..|ks| - 1], ks[|ks| - 1];
      var picked := Picked(l, o, now, needVoucher, init);
      assert ks == init + [last];
      BeforeSnoc(init, last, a, b);
      BeforeSnoc(picked, last, a, b);
      assert picked + [] == picked;
      if Before(picked, a, b) {
        PickedInOrder(l, o, now, needVoucher, init, a, b);
      }
    }
  }

  lemma {:induction false} WithoutInOrder(ks: seq<string>, key: string, a: string, b: string)
    ensures Before(Without(ks, key), a, b) <==> a != key && b != key && Before(ks, a, b)
  {
    if ks != [] {
      var init, last := ks[..|ks| - 1], ks[|ks| - 1];
      assert ks == init + [last];
      WithoutInOrder(init, key, a, b);
      BeforeSnoc(init, last, a, b);
      BeforeSnoc(Without(init, key), last, a, b);
      assert Without(init, key) + [] == Without(init, key);
    }
  }

  lemma {:induction false} RemoveAllInOrder(l: Ledger, ks: seq<string>, a: string, b: string)
    ensures Before(RemoveAll(l, ks).order, a, b) <==> a !in ks && b !in ks && Before(l.order, a, b)
  {
    if ks != [] {
      var init, last := ks[..|ks| - 1], ks[|ks| - 1];
      assert ks == init + [last];
      RemoveAllInOrder(l, init, a, b);
      WithoutInOrder(RemoveAll(l, init).order, last, a, b);
    }
  }

  lemma {:induction false} BatchAt(l: Ledger, ks: seq<string>, i: nat)
    requires forall k :: k in ks ==> k in l.entries
    ensures |BatchesOf(l, ks)| == |ks|
    ensures i < |ks| ==> BatchOf(BatchesOf(l, ks)[i], ks[i], l.entries[ks[i]])
  {
    if ks != [] {
      BatchAt(l, ks[..|ks| - 1], i);
    }
  }

  /** The batch of an entry: its key and pair, its sums, its ids in order, and its voucher. */
  ghost predicate BatchOf(b: Batch, key: string, e: Entry) {
    && b.key == key && b.payer == e.payer && b.provider == e.provider
    && b.settle == e.gross && b.providerAmount == e.providerDue && b.platformFee == e.feeDue
    && b.quoteIds == e.quoteIds && b.commitIds == e.commitIds && b.voucher == e.voucher
  }

  /** Exactly one of the batches is for `key`, and it is the batch of `e`. */
  ghost predicate OneBatch(bs: seq<Batch>, key: string, e: Entry) {
    exists i :: 0 <= i < |bs| && BatchOf(bs[i], key, e) && forall j :: 0 <= j < |bs| && j != i ==> bs[j].key != key
  }

  /** The batches are those of the entries missing from `after`, one each, in insertion order. */
  ghost predicate BatchesTaken(before: Ledger, after: Ledger, bs: seq<Batch>) {
    && (forall k :: k in before.entries && k !in after.entries ==> OneBatch(bs, k, before.entries[k]))
    && (forall i :: 0 <= i < |bs| ==> bs[i].key in before.entries && bs[i].key !in after.entries)
    && (forall i, j :: 0 <= i < j < |bs| ==> Before(before.order, bs[i].key, bs[j].key))
  }

  /** `after` is `before` without some entries; the others stay as they are, in their order. */
  ghost predicate PartOf(before: Ledger, after: Ledger) {
    && (forall k :: k in after.entries ==> k in before.entries && after.entries[k] == before.entries[k])
    && (forall a, b :: Before(after.order, a, b) <==>
          a in after.entries && b in after.entries && Before(before.order, a, b))
  }

  ghost predicate TookOut(before: Ledger, after: Ledger, bs: seq<Batch>) {
    PartOf(before, after) && BatchesTaken(before, after, bs)
  }

  lemma LeavesPart(l: Ledger, ks: seq<string>)
    requires WellFormed(l)
    ensures PartOf(l, RemoveAll(l, ks))
    ensures forall k :: k in RemoveAll(l, ks).entries <==> k in l.entries && k !in ks
  {
    var l' := RemoveAll(l, ks);
    forall k
      ensures Lookup(l', k) == if k in ks then None else Lookup(l, k)
    {
      RemoveAllLookup(l, ks, k);
    }
    forall a, b
      ensures Before(l'.order, a, b) <==> a in l'.entries && b in l'.entries && Before(l.order, a, b)
    {
      RemoveAllInOrder(l, ks, a, b);
    }
  }

  lemma TheOneBatch(l: Ledger, ks: seq<string>, key: string)
    requires Distinct(ks) && (forall k :: k in ks ==> k in l.entries) && key in ks
    ensures OneBatch(BatchesOf(l, ks), key, l.entries[key])
  {
    var i :| 0 <= i < |ks| && ks[i] == key;
    var bs := BatchesOf(l, ks);
    BatchAt(l, ks, i);
    forall j | 0 <= j < |bs| && j != i
      ensures bs[j].key != key
    {
      BatchAt(l, ks, j);
    }
  }

  lemma TakesBatches(l: Ledger, l': Ledger, ks: seq<string>)
    requires Distinct(ks) && (forall k :: k in ks ==> k in l.entries)
    requires forall i, j :: 0 <= i < j < |ks| ==> Before(l.order, ks[i], ks[j])
    requires forall k :: k in l'.entries <==> k in l.entries && k !in ks
    ensures BatchesTaken(l, l', BatchesOf(l, ks))
  {
    var bs := BatchesOf(l, ks);
    BatchAt(l, ks, 0);
    forall i | 0 <= i < |ks|
      ensures bs[i].key == ks[i]
    {
      BatchAt(l, ks, i);
    }
    forall k | k in ks
      ensures OneBatch(bs, k, l.entries[k])
    {
      TheOneBatch(l, ks, k);
    }
  }

  lemma TakesOut(l: Ledger, o: Options, now: int, needVoucher: bool)
    requires WellFormed(l)
    ensures TookOut(l, Flush(l, o, now, needVoucher).0, Flush(l, o, now, needVoucher).1)
    ensures forall k :: k in Flush(l, o, now, needVoucher).0.entries <==>
      k in l.entries && !Selected(l, o, now, needVoucher, k)
  {
    var ks := Picked(l, o, now, needVoucher, l.order);
    LeavesPart(l, ks);
    PickedDistinct(l, o, now, needVoucher, l.order);
    forall i, j | 0 <= i < j < |ks|
      ensures Before(l.order, ks[i], ks[j])
    {
      assert Before(ks, ks[i], ks[j]);
      PickedInOrder(l, o, now, needVoucher, l.order, ks[i], ks[j]);
    }
    TakesBatches(l, RemoveAll(l, ks), ks);
  }

  /**
   * A flush keeps an entry if and only if its gross is below the threshold, its fees are below
   * the fee threshold if there is one, and it is younger than the interval; every other entry
   * becomes exactly one batch, in insertion order.
   */
  lemma FlushExactly(l: Ledger, o: Options, now: int)
    requires WellFormed(l)
    ensures var (l', bs) := Flush(l, o, now, false);
            && TookOut(l, l', bs)
            && forall k :: k in l'.entries <==>
                 && k in l.entries
                 && l.entries[k].gross < o.threshold
                 && (o.feeThreshold == 0 || l.entries[k].feeDue < o.feeThreshold)
                 && now - l.entries[k].firstSeen < o.intervalMs
  {
    TakesOut(l, o, now, false);
  }

  /** The same for a settlement: an entry without a voucher stays in any case. */
  lemma SettlementExactly(l: Ledger, o: Options, now: int)
    requires WellFormed(l)
    ensures var (l', bs) := Flush(l, o, now, true);
            && TookOut(l, l', bs)
            && forall k :: k in l'.entries <==>
                 && k in l.entries
                 && (l.entries[k].voucher.Some? ==>
                       && l.entries[k].gross < o.threshold
                       && (o.feeThreshold == 0 || l.entries[k].feeDue < o.feeThreshold)
                       && now - l.entries[k].firstSeen < o.intervalMs)
  {
    TakesOut(l, o, now, true);
  }

  // ---- a settlement that is overtaken ------------------------------------------------------

  /** The end of `flushToSettlement`: the submitted keys are deleted, whatever they hold by now. */
  function SettleEnd(w: World, ks: seq<string>, submitted: seq<Batch>): World {
    World(RemoveAll(w.ledger, ks), w.log, w.out + submitted)
  }

  /**
   * When other operations run while the sink is busy, conservation survives exactly if
   * every submitted key still holds what was submitted for it.
   */
  lemma OvertakenSettlement(o: Options, w: World, now: int, meanwhile: seq<Op>)
    requires Sound(w)
    ensures var ks := Picked(w.ledger, o, now, true, w.ledger.order);
            var v := RunFrom(o, w, meanwhile);
            var end := SettleEnd(v, ks, BatchesOf(w.ledger, ks));
            Conserved(end.ledger, end.log, end.out) <==>
            forall k :: k in ks ==> k in v.ledger.entries && Worth(v.ledger.entries[k]) == Worth(w.ledger.entries[k])
  {
    var ks := Picked(w.ledger, o, now, true, w.ledger.order);
    var v := RunFrom(o, w, meanwhile);
    var end := SettleEnd(v, ks, BatchesOf(w.ledger, ks));
    RunSound(o, w, meanwhile);
    PickedDistinct(w.ledger, o, now, true, w.ledger.order);
    forall k
      ensures Charged(end.log, k) == Accounted(end.ledger, end.out, k) <==>
              (k in ks ==> k in v.ledger.entries && Worth(v.ledger.entries[k]) == Worth(w.ledger.entries[k]))
    {
      OvertakenKey(w.ledger, v, ks, k);
    }
  }

  lemma OvertakenKey(begin: Ledger, v: World, ks: seq<string>, k: string)
    requires Distinct(ks) && forall k :: k in ks ==> k in begin.entries
    requires k in ks ==> |begin.entries[k].commitIds| > 0
    requires Charged(v.log, k) == Accounted(v.ledger, v.out, k)
    ensures var end := SettleEnd(v, ks, BatchesOf(begin, ks));
            Charged(v.log, k) == Accounted(end.ledger, end.out, k) <==>
            (k in ks ==> k in v.ledger.entries && Worth(v.ledger.entries[k]) == Worth(begin.entries[k]))
  {
    FlushedBatches(begin, ks, v.out, k);
    RemoveAllLookup(v.ledger, ks, k);
    if k in ks {
      var f, submitted := Flushed(v.out, k), Worth(begin.entries[k]);
      if k in v.ledger.entries {
        var held := Worth(v.ledger.entries[k]);
        if f.Plus(held) == f.Plus(submitted) {
          PlusCancels(f, held, submitted);
        }
      } else {
        assert |f.Plus(submitted).commitIds| > |f.commitIds|;
      }
    }
  }

  lemma PickedStep(l: Ledger, o: Options, now: int, needVoucher: bool, ks: seq<string>, i: nat)
    requires i < |ks|
    ensures Picked(l, o, now, needVoucher, ks[..i + 1]) ==
            Picked(l, o, now, needVoucher, ks[..i]) + (if Selected(l, o, now, needVoucher, ks[i]) then [ks[i]] else [])
  {
    assert ks[..i + 1][..i] == ks[..i];
  }

  lemma TakenStep(l: Ledger, ks: seq<string>, key: string)
    ensures RemoveAll(l, ks + [key]) == Remove(RemoveAll(l, ks), key)
    ensures key in l.entries && (forall k :: k in ks ==> k in l.entries) ==>
              BatchesOf(l, ks + [key]) == BatchesOf(l, ks) + [ToBatch(key, l.entries[key])]
  {
  }

  // ---- the ledger object -------------------------------------------------------------------

  class NettingLedger {
    const options: Options
    var entries: map<string, Entry>
    var order: seq<string>

    function State(): Ledger
      reads this
    {
      Ledger(entries, order)
    }

    constructor (options: Options)
      ensures State() == EMPTY && this.options == options
    {
      this.options := options;
      entries := map[];
      order := [];
    }

    /** Charges one call and returns the entry it now belongs to. */
    method AddCharge(c: Charge) returns (snapshot: Entry)
      modifies this
      ensures State() == Add(old(State()), c)
      ensures Lookup(State(), KeyOf(c.payer, c.provider)) == Some(snapshot)
    {
      var key := KeyOf(c.payer, c.provider);
      if key !in entries {
        entries := entries[key := Entry(ToLower(c.payer), c.provider, c.amount + c.fee, c.amount, c.fee, 1,
                                        c.at, c.at, [c.quoteId], [c.commitId], c.voucher)];
        order := order + [key];
      } else {
        var e := entries[key];
        e := e.(gross := e.gross + (c.amount + c.fee), providerDue := e.providerDue + c.amount,
                feeDue := e.feeDue + c.fee, charges := e.charges + 1, lastUpdated := c.at,
                quoteIds := e.quoteIds + [c.quoteId], commitIds := e.commitIds + [c.commitId]);
        if c.voucher.Some? && (e.voucher.None? || c.voucher.value.cumulative > e.voucher.value.cumulative) {
          e := e.(voucher := c.voucher);
        }
        entries := entries[key := e];
      }
      snapshot := entries[key];
    }

    /** Removes every ready entry and returns the batches, oldest entry first. */
    method FlushReady(now: int) returns (ready: seq<Batch>)
      requires WellFormed(State())
      modifies this
      ensures (State(), ready) == Flush(old(State()), options, now, false)
      ensures TookOut(old(State()), State(), ready)
      ensures forall k :: k in entries <==>
        && k in old(entries)
        && old(entries)[k].gross < options.threshold
        && (options.feeThreshold == 0 || old(entries)[k].feeDue < options.feeThreshold)
        && now - old(entries)[k].firstSeen < options.intervalMs
    {
      var ks := order;
      ghost var l := State();
      ready := [];
      var i := 0;
      while i < |ks|
        invariant 0 <= i <= |ks| && ks == l.order
        invariant State() == RemoveAll(l, Picked(l, options, now, false, ks[..i]))
        invariant ready == BatchesOf(l, Picked(l, options, now, false, ks[..i]))
      {
        var key := ks[i];
        ghost var picked := Picked(l, options, now, false, ks[..i]);
        PickedStep(l, options, now, false, ks, i);
        RemoveAllLookup(l, picked, key);
        assert Lookup(State(), key) == Lookup(l, key) && key in l.entries;
        var e := entries[key];
        if IsReady(options, e, now) {
          TakenStep(l, picked, key);
          ready := ready + [ToBatch(key, e)];
          entries := entries - {key};
          order := Without(order, key);
        } else {
          assert picked + [] == picked;
        }
        i := i + 1;
      }
      assert ks[..i] == ks;
      FlushExactly(l, options, now);
    }

    /** The ready entries that carry a voucher: their keys and batches, oldest first. */
    method CollectVouchered(now: int) returns (keys: seq<string>, settled: seq<Batch>)
      requires WellFormed(State())
      ensures keys == Picked(State(), options, now, true, order) && settled == BatchesOf(State(), keys)
    {
      keys, settled := [], [];
      for i := 0 to |order|
        invariant keys == Picked(State(), options, now, true, order[..i]) && settled == BatchesOf(State(), keys)
      {
        var key := order[i];
        PickedStep(State(), options, now, true, order, i);
        if entries[key].voucher.Some? && IsReady(options, entries[key], now) {
          TakenStep(State(), keys, key);
          settled := settled + [ToBatch(key, entries[key])];
          keys := keys + [key];
        } else {
          assert keys + [] == keys;
        }
      }
      assert order[..|order|] == order;
    }

    method DeleteKeys(keys: seq<string>)
      modifies this
      ensures State() == RemoveAll(old(State()), keys)
    {
      for i := 0 to |keys|
        invariant State() == RemoveAll(old(State()), keys[..i])
      {
        assert keys[..i + 1] == keys[..i] + [keys[i]];
        TakenStep(old(State()), keys[..i], keys[i]);
        entries := entries - {keys[i]};
        order := Without(order, keys[i]);
      }
      assert keys[..|keys|] == keys;
    }

    /** `sinkOk` is the sink's answer; a failing sink is a thrown error and changes nothing. */
    method FlushToSettlement(now: int, sinkOk: bool) returns (settled: seq<Batch>, thrown: bool)
      requires WellFormed(State())
      modifies this
      ensures settled == Flush(old(State()), options, now, true).1
      ensures thrown <==> settled != [] && !sinkOk
      ensures State() == if thrown then old(State()) else Flush(old(State()), options, now, true).0
      ensures !thrown ==> TookOut(old(State()), State(), settled)
      ensures !thrown ==> forall k :: k in entries <==>
        && k in old(entries)
        && (old(entries)[k].voucher.Some? ==>
              && old(entries)[k].gross < options.threshold
              && (options.feeThreshold == 0 || old(entries)[k].feeDue < options.feeThreshold)
              && now - old(entries)[k].firstSeen < options.intervalMs)
    {
      SettlementExactly(State(), options, now);
      var keys;
      keys, settled := CollectVouchered(now);
      thrown := settled != [] && !sinkOk;
      if settled != [] && sinkOk {
        DeleteKeys(keys);
      }
    }
  }

  // ---- keys ----------------------------------------------------------------------------------

  /** On payers of one length, as all normalised commitments are, a key names one pair. */
  lemma KeyOfInjective(p: string, x: string, q: string, y: string)
    requires |p| == |q|
    ensures KeyOf(p, x) == KeyOf(q, y) <==> ToLower(p) == ToLower(q) && x == y
  {
    var a, b := ToLower(p), ToLower(q);
    if KeyOf(p, x) == KeyOf(q, y) {
      assert KeyOf(p, x)[..|a|] == a && KeyOf(q, y)[..|b|] == b;
      assert KeyOf(p, x)[|a| + 2..] == x && KeyOf(q, y)[|b| + 2..] == y;
    }
  }
}
