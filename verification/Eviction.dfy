/** First in, first out: the context that a full table gives up is the one that entered it first. */
module Eviction {
  import opened Bits
  import opened Dicts
  import opened HotEntries
  import opened Types
  import opened HotTables
  import opened LockStep
  import opened Epochs

  /** How many operations had happened when the context last entered the table. */
  ghost function Entered(p: StoreParams, ops: seq<HotOp>, c: Context): nat {
    if ops == [] then 0 else
      var before := ops[..|ops| - 1];
      if c in HotRun(p, ops).table.m && c !in HotRun(p, before).table.m then |ops| else Entered(p, before, c)
  }

  ghost predicate InOrder(p: StoreParams, ops: seq<HotOp>) {
    var keys := HotRun(p, ops).table.keys;
    && HotRun(p, ops).table.Valid()
    && forall i, j :: 0 <= i < j < |keys| ==> Entered(p, ops, keys[i]) < Entered(p, ops, keys[j])
  }

  lemma {:induction false} EnteredBefore(p: StoreParams, ops: seq<HotOp>, c: Context)
    ensures Entered(p, ops, c) <= |ops|
  {
    hide HotRun;
    if ops != [] { EnteredBefore(p, ops[..|ops| - 1], c); }
  }

  ghost predicate Rising(keys: seq<Context>, rank: Context -> nat) {
    forall i, j :: 0 <= i < j < |keys| ==> rank(keys[i]) < rank(keys[j])
  }

  /** Compaction keeps the order of what it keeps. */
  lemma {:induction false} CompactKeepsOrder(p: Params, h: Hot<Context>, keys: seq<Context>, rank: Context -> nat)
    requires Rising(keys, rank)
    ensures var d := CompactFrom(p, h, keys);
            d.Valid() && Rising(d.keys, rank) && forall i :: 0 <= i < |d.keys| ==> d.keys[i] in keys
  {
    hide Survives, Decayed, Rising, Dict.Valid;
    if keys == [] {
      NothingRises(rank);
    } else {
      var init, last := keys[..|keys| - 1], keys[|keys| - 1];
      RisingParts(keys, rank);
      CompactKeepsOrder(p, h, init, rank);
      var d := CompactFrom(p, h, init);
      forall i | 0 <= i < |d.keys| ensures rank(d.keys[i]) < rank(last) && d.keys[i] in keys {
        assert d.keys[i] in init;
      }
      if last in h.table.m { PutLast(d, last, Decayed(p, h.table.m[last]), rank); }
    }
  }

  lemma NothingRises(rank: Context -> nat)
    ensures EmptyDict<Context, Entry>().Valid() && Rising([], rank)
  {
  }

  lemma RisingParts(keys: seq<Context>, rank: Context -> nat)
    requires Rising(keys, rank) && keys != []
    ensures Rising(keys[..|keys| - 1], rank)
    ensures forall c :: c in keys[..|keys| - 1] ==> rank(c) < rank(keys[|keys| - 1]) && c in keys
  {
  }

  lemma PutLast(d: Dict<Context, Entry>, k: Context, v: Entry, rank: Context -> nat)
    requires d.Valid() && Rising(d.keys, rank) && forall i :: 0 <= i < |d.keys| ==> rank(d.keys[i]) < rank(k)
    ensures d.Put(k, v).Valid() && Rising(d.Put(k, v).keys, rank) && d.Put(k, v).keys == d.keys + [k]
  {
  }

  lemma CompactInOrder(p: StoreParams, before: seq<HotOp>, ops: seq<HotOp>)
    requires InOrder(p, before) && ops == before + [DoCompact]
    ensures InOrder(p, ops)
  {
    hide HotRun, Dict.Valid, CompactFrom;
    OneMore(p, before, DoCompact);
    var h := HotRun(p, before);
    ValidKeys(h.table);
    ghost var rank: Context -> nat := c => Entered(p, before, c);
    CompactKeepsOrder(p.entry, h, h.table.keys, rank);
    var keys := HotRun(p, ops).table.keys;
    ValidKeys(HotRun(p, ops).table);
    assert ops[..|before|] == before;
    forall i | 0 <= i < |keys| ensures Entered(p, ops, keys[i]) == rank(keys[i]) {
      assert keys[i] in h.table.keys;
    }
  }

  lemma ValidKeys<V>(d: Dict<Context, V>)
    requires d.Valid()
    ensures forall c :: c in d.keys <==> c in d.m
    ensures forall i, j :: 0 <= i < j < |d.keys| ==> d.keys[i] != d.keys[j]
  {
  }

  /** What one observation does to the keys. */
  lemma TouchedKeys(p: StoreParams, h: Hot<Context>, t: Touch<Context>)
    requires h.table.Valid()
    ensures var g := ApplyTouch(p, h, t);
            && g.table.Valid()
            && g.table.keys == if t.key in h.table.m then h.table.keys
                               else if p.maxEntries > 0 && |h.table.keys| >= p.maxEntries
                               then h.table.keys[1..] + [t.key] else h.table.keys + [t.key]
    ensures forall c :: c != t.key && c in ApplyTouch(p, h, t).table.m ==>
              c in h.table.m && ApplyTouch(p, h, t).table.m[c] == h.table.m[c]
  {
    hide Observed, ResetEntry, Fresh;
    if p.maxEntries > 0 && |h.table.keys| >= p.maxEntries { RemoveFirst(h.table); }
  }

  lemma TouchInOrder(p: StoreParams, before: seq<HotOp>, t: Touch<Context>, ops: seq<HotOp>)
    requires InOrder(p, before) && ops == before + [DoTouch(t)]
    ensures InOrder(p, ops)
  {
    hide HotRun, Dict.Valid, ApplyTouch;
    OneMore(p, before, DoTouch(t));
    var h := HotRun(p, before);
    TouchedKeys(p, h, t);
    ValidKeys(h.table);
    ValidKeys(HotRun(p, ops).table);
    var keys := HotRun(p, ops).table.keys;
    assert ops[..|before|] == before;
    forall i | 0 <= i < |keys| && keys[i] in h.table.m
      ensures Entered(p, ops, keys[i]) == Entered(p, before, keys[i])
    {
    }
    forall i, j | 0 <= i < j < |keys| ensures Entered(p, ops, keys[i]) < Entered(p, ops, keys[j]) {
      EnteredBefore(p, before, keys[i]);
    }
  }

  /** The table lists its contexts in the order in which they entered. */
  lemma {:induction false} ListedAsEntered(p: StoreParams, ops: seq<HotOp>)
    ensures InOrder(p, ops)
  {
    hide InOrder, ApplyTouch, Compacted;
    if ops == [] {
      NothingListed(p);
    } else {
      var before, op := ops[..|ops| - 1], ops[|ops| - 1];
      assert ops == before + [op];
      ListedAsEntered(p, before);
      match op
      case DoTouch(t) => TouchInOrder(p, before, t, ops);
      case DoCompact => CompactInOrder(p, before, ops);
      case DoBump(scope, file) => BumpInOrder(p, before, scope, file, ops);
    }
  }

  lemma NothingListed(p: StoreParams)
    ensures InOrder(p, [])
  {
  }

  lemma BumpInOrder(p: StoreParams, before: seq<HotOp>, scope: Word, file: int, ops: seq<HotOp>)
    requires InOrder(p, before) && ops == before + [DoBump(scope, file)]
    ensures InOrder(p, ops)
  {
    hide HotRun, Dict.Valid;
    OneMore(p, before, DoBump(scope, file));
    assert ops[..|before|] == before;
    ValidKeys(HotRun(p, before).table);
  }

  /** A new context in a full table costs exactly the one that entered first; all others keep their entries. */
  lemma FirstInFirstOut(p: StoreParams, ops: seq<HotOp>, t: Touch<Context>)
    requires p.maxEntries > 0 && t.key !in HotRun(p, ops).table.m && |HotRun(p, ops).table.keys| >= p.maxEntries
    ensures var m, m' := HotRun(p, ops).table.m, HotRun(p, ops + [DoTouch(t)]).table.m;
            exists first ::
              && first in m && first !in m' && t.key in m'
              && forall c :: c in m && c != first ==>
                   Entered(p, ops, first) < Entered(p, ops, c) && c in m' && m'[c] == m[c]
  {
    hide HotRun, Dict.Valid, ApplyTouch, Entered;
    var h := HotRun(p, ops);
    ListedAsEntered(p, ops);
    OneMore(p, ops, DoTouch(t));
    TouchedKeys(p, h, t);
    ValidKeys(h.table);
    var g := ApplyTouch(p, h, t);
    ValidKeys(g.table);
    var first := h.table.keys[0];
    assert g.table.keys == h.table.keys[1..] + [t.key];
    forall c | c in h.table.m && c != first
      ensures Entered(p, ops, first) < Entered(p, ops, c) && c in g.table.m && g.table.m[c] == h.table.m[c]
    {
      var i :| 0 <= i < |h.table.keys| && h.table.keys[i] == c;
      assert h.table.keys[1..][i - 1] == c && c in g.table.keys;
    }
    assert first !in g.table.keys;
  }
}
