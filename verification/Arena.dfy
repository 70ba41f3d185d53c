/** The append-only token arena that span bodies live in. */
module Arenas {
  import opened Bits
  import opened Spans

  function Flatten(blocks: seq<seq<int>>): seq<int> {
    if blocks == [] then [] else Flatten(blocks[..|blocks| - 1]) + blocks[|blocks| - 1]
  }

  /** A whole block with this content starts at `off`. */
  ghost predicate IsBlock(blocks: seq<seq<int>>, off: nat, toks: seq<int>) {
    exists i :: BlockAt(blocks, i, off, toks)
  }

  ghost predicate BlockAt(blocks: seq<seq<int>>, i: int, off: nat, toks: seq<int>) {
    0 <= i < |blocks| && blocks[i] == toks && off == |Flatten(blocks[..i])|
  }

  lemma {:induction false} FlattenPrefix(blocks: seq<seq<int>>, i: nat)
    requires i <= |blocks|
    ensures Flatten(blocks[..i]) <= Flatten(blocks)
  {
    if i == |blocks| {
      assert blocks[..i] == blocks;
    } else {
      FlattenPrefix(blocks[..|blocks| - 1], i);
      assert blocks[..|blocks| - 1][..i] == blocks[..i];
    }
  }

  /** Python's slice: clamped to the tokens that are there. */
  function Slice(toks: seq<int>, off: nat, len: nat): seq<int> {
    toks[if off < |toks| then off else |toks|..if off + len < |toks| then off + len else |toks|]
  }

  lemma SliceLength(toks: seq<int>, off: nat, len: nat)
    requires off + len <= |toks|
    ensures |Slice(toks, off, len)| == len
  {
  }

  lemma BlockSlice(blocks: seq<seq<int>>, off: nat, toks: seq<int>)
    requires IsBlock(blocks, off, toks)
    ensures Slice(Flatten(blocks), off, |toks|) == toks
    ensures off + |toks| <= |Flatten(blocks)|
  {
    var i :| BlockAt(blocks, i, off, toks);
    FlattenPrefix(blocks, i + 1);
    assert blocks[..i + 1][..i] == blocks[..i];
    assert Flatten(blocks[..i + 1]) == Flatten(blocks[..i]) + toks;
  }

  lemma BlockKept(blocks: seq<seq<int>>, off: nat, toks: seq<int>, more: seq<int>)
    requires IsBlock(blocks, off, toks)
    ensures IsBlock(blocks + [more], off, toks)
  {
    var i :| BlockAt(blocks, i, off, toks);
    assert (blocks + [more])[..i] == blocks[..i];
    assert BlockAt(blocks + [more], i, off, toks);
  }

  lemma BlockAdded(blocks: seq<seq<int>>, toks: seq<int>)
    ensures Flatten(blocks + [toks]) == Flatten(blocks) + toks
    ensures IsBlock(blocks + [toks], |Flatten(blocks)|, toks)
  {
    assert (blocks + [toks])[..|blocks|] == blocks;
    assert BlockAt(blocks + [toks], |blocks|, |Flatten(blocks)|, toks);
  }

  /** Non-empty blocks that start at the same place are the same block. */
  lemma SameStart(blocks: seq<seq<int>>, off: nat, a: seq<int>, b: seq<int>)
    requires IsBlock(blocks, off, a) && IsBlock(blocks, off, b) && a != [] && b != []
    ensures a == b
  {
    var i :| BlockAt(blocks, i, off, a);
    var j :| BlockAt(blocks, j, off, b);
    if i < j { StartsLater(blocks, i, j); } else if j < i { StartsLater(blocks, j, i); }
  }

  lemma StartsLater(blocks: seq<seq<int>>, i: nat, j: nat)
    requires i < j <= |blocks|
    ensures |Flatten(blocks[..i])| + |blocks[i]| <= |Flatten(blocks[..j])|
  {
    FlattenPrefix(blocks[..j], i + 1);
    assert blocks[..j][..i + 1] == blocks[..i + 1];
    assert blocks[..i + 1][..i] == blocks[..i];
  }

  /** A span's record in the store; its body is the block at `arenaOff`. */
  class SpanEntry {
    const key: Word
    const scopeId: Word
    const seg: int
    var arenaOff: nat
    var length: nat
    var dom: int
    var epoch: nat
    var count: nat
    var breaks: map<nat, Break>

    constructor (key: Word, arenaOff: nat, length: nat, scopeId: Word, seg: int, dom: int, epoch: nat, count: nat,
                 breaks: map<nat, Break>)
      ensures this.key == key && this.arenaOff == arenaOff && this.length == length && this.scopeId == scopeId
      ensures this.seg == seg
      ensures this.dom == dom && this.epoch == epoch && this.count == count && this.breaks == breaks
    {
      this.key, this.arenaOff, this.length, this.scopeId, this.seg := key, arenaOff, length, scopeId, seg;
      this.dom, this.epoch, this.count, this.breaks := dom, epoch, count, breaks;
    }
  }

  class SpanArena {
    var tokens: seq<int>
    var dedup: map<seq<int>, nat>
    ghost var blocks: seq<seq<int>>

    /** The tokens are whole blocks one after the other, and the dedup table points at blocks. */
    ghost predicate Valid()
      reads this
    {
      && tokens == Flatten(blocks)
      && forall c :: c in dedup ==> IsBlock(blocks, dedup[c], c)
    }

    /** No content is stored twice. */
    ghost predicate Deduplicated()
      reads this
    {
      && (forall i, j :: 0 <= i < j < |blocks| ==> blocks[i] != blocks[j])
      && forall i :: 0 <= i < |blocks| ==> blocks[i] in dedup
    }

    constructor ()
      ensures Valid() && Deduplicated() && tokens == [] && blocks == []
    {
      tokens, dedup, blocks := [], map[], [];
    }

    function Get(off: nat, len: nat): seq<int>
      reads this
    {
      Slice(tokens, off, len)
    }

    /** Stores a body, or finds it: content identity is the dedup key. Existing blocks stay where they are. */
    method Add(toks: seq<int>) returns (off: nat)
      requires Valid()
      modifies this
      ensures Valid() && IsBlock(blocks, off, toks)
      ensures toks in dedup && dedup[toks] == off
      ensures forall o, c :: IsBlock(old(blocks), o, c) ==> IsBlock(blocks, o, c)
      ensures old(Deduplicated()) ==> Deduplicated()
      ensures blocks == if toks in old(dedup) then old(blocks) else old(blocks) + [toks]
      ensures dedup.Keys == old(dedup).Keys + {toks}
    {
      hide IsBlock, Flatten;
      if toks in dedup {
        off := dedup[toks];
      } else {
        off := |tokens|;
        ghost var before := blocks;
        forall o, c | IsBlock(before, o, c) ensures IsBlock(before + [toks], o, c) { BlockKept(before, o, c, toks); }
        BlockAdded(before, toks);
        tokens := tokens + toks;
        dedup := dedup[toks := off];
        blocks := blocks + [toks];
      }
    }

    /** Rebuilds the arena from the live spans and moves each span to its new place. */
    method Compact(live: seq<SpanEntry>)
      requires Valid()
      requires forall i :: 0 <= i < |live| ==>
                 && live[i].arenaOff + live[i].length <= |tokens|
                 && IsBlock(blocks, live[i].arenaOff, Get(live[i].arenaOff, live[i].length))
      requires forall i, j :: 0 <= i < j < |live| ==> live[i] != live[j]
      modifies this, live
      ensures Valid() && Deduplicated()
      ensures forall i :: 0 <= i < |live| ==>
                && live[i].length == old(live[i].length)
                && Get(live[i].arenaOff, live[i].length) == old(Get(live[i].arenaOff, live[i].length))
                && IsBlock(blocks, live[i].arenaOff, old(Get(live[i].arenaOff, live[i].length)))
                && live[i].dom == old(live[i].dom) && live[i].epoch == old(live[i].epoch)
                && live[i].count == old(live[i].count) && live[i].breaks == old(live[i].breaks)
      ensures forall b :: b in blocks ==> exists i :: 0 <= i < |live| && b == old(Get(live[i].arenaOff, live[i].length))
      ensures |tokens| <= old(|tokens|)
    {
      hide IsBlock, Flatten;
      var arena := new SpanArena();
      ghost var bodies :=
        seq(|live|, i requires 0 <= i < |live| reads this, live => Get(live[i].arenaOff, live[i].length));
      forall i | 0 <= i < |live| ensures bodies[i] in blocks { BlockIsMember(blocks, live[i].arenaOff, bodies[i]); }
      Refill(arena, live, bodies);
      BodiesAreBlocks(blocks, arena.blocks, bodies);
      DistinctFit(arena.blocks, blocks);
      tokens := arena.tokens;
      dedup := arena.dedup;
      blocks := arena.blocks;
      forall i | 0 <= i < |live| ensures Get(live[i].arenaOff, live[i].length) == bodies[i] {
        BlockSlice(blocks, live[i].arenaOff, bodies[i]);
      }
    }

    /** Adds every live body to the new arena and points its span there. */
    method Refill(arena: SpanArena, live: seq<SpanEntry>, ghost bodies: seq<seq<int>>)
      requires arena != this && arena.Valid() && arena.Deduplicated() && arena.blocks == []
      requires |bodies| == |live| && forall i, j :: 0 <= i < j < |live| ==> live[i] != live[j]
      requires forall i :: 0 <= i < |live| ==>
               bodies[i] == Get(live[i].arenaOff, live[i].length) && |bodies[i]| == live[i].length
      modifies arena, live`arenaOff
      ensures arena.Valid() && arena.Deduplicated()
      ensures forall i :: 0 <= i < |live| ==> IsBlock(arena.blocks, live[i].arenaOff, bodies[i])
      ensures forall b :: b in arena.blocks ==> b in bodies
    {
      hide IsBlock, Flatten;
      for k := 0 to |live|
        invariant arena.Valid() && arena.Deduplicated()
        invariant forall i :: k <= i < |live| ==> live[i].arenaOff == old(live[i].arenaOff)
        invariant forall i :: 0 <= i < k ==> IsBlock(arena.blocks, live[i].arenaOff, bodies[i])
        invariant forall b :: b in arena.blocks ==> b in bodies
      {
        var e := live[k];
        var toks := Get(e.arenaOff, e.length);
        assert toks == bodies[k];
        var off := arena.Add(toks);
        e.arenaOff := off;
      }
    }

    /** Reloads dumped tokens; the dedup table starts empty, the blocks are where they were. */
    method Load(toks: seq<int>, ghost whole: seq<seq<int>>)
      requires toks == Flatten(whole)
      modifies this
      ensures Valid() && tokens == toks && blocks == whole && dedup == map[]
    {
      tokens := toks;
      dedup := map[];
      blocks := whole;
    }
  }

  lemma BlockIsMember(blocks: seq<seq<int>>, off: nat, toks: seq<int>)
    requires IsBlock(blocks, off, toks)
    ensures toks in blocks
  {
    var i :| BlockAt(blocks, i, off, toks);
  }

  lemma BodiesAreBlocks(blocks: seq<seq<int>>, kept: seq<seq<int>>, bodies: seq<seq<int>>)
    requires forall b :: b in kept ==> b in bodies
    requires forall i :: 0 <= i < |bodies| ==> bodies[i] in blocks
    ensures forall b :: b in kept ==> b in blocks
  {
  }

  /** Distinct blocks taken from `blocks` need no more room than `blocks`. */
  lemma {:induction false} DistinctFit(kept: seq<seq<int>>, blocks: seq<seq<int>>)
    requires forall i, j :: 0 <= i < j < |kept| ==> kept[i] != kept[j]
    requires forall b :: b in kept ==> b in blocks
    ensures |Flatten(kept)| <= |Flatten(blocks)|
  {
    if kept != [] {
      var last := kept[|kept| - 1];
      assert last in kept;
      var i :| 0 <= i < |blocks| && blocks[i] == last;
      var rest := blocks[..i] + blocks[i + 1..];
      forall b | b in kept[..|kept| - 1] ensures b in rest {
        assert b in kept && b != last;
        var j :| 0 <= j < |blocks| && blocks[j] == b;
        if j < i { assert rest[j] == b; } else { assert rest[j - 1] == b; }
      }
      DistinctFit(kept[..|kept| - 1], rest);
      TakeOutBlock(blocks, i);
    }
  }

  lemma {:induction false} TakeOutBlock(blocks: seq<seq<int>>, i: nat)
    requires i < |blocks|
    ensures |Flatten(blocks)| == |Flatten(blocks[..i] + blocks[i + 1..])| + |blocks[i]|
  {
    var rest := blocks[..i] + blocks[i + 1..];
    if i == |blocks| - 1 {
      assert rest == blocks[..i];
    } else {
      TakeOutBlock(blocks[..|blocks| - 1], i);
      assert rest[..|rest| - 1] == blocks[..|blocks| - 1][..i] + blocks[..|blocks| - 1][i + 1..];
    }
  }
}
