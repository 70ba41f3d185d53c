/** Snapshots as documents: what is written down, and what reading it back stands for. */
module Documents {
  import opened Bits
  import opened Dicts
  import opened HotEntries
  import opened Spans
  import opened Arenas

  /** Candidates are keyed by token, and their order is not recorded. */
  datatype HotDoc = HotDoc(key: Word, seg: int, dom: int, scopeId: Word, epoch: nat, kCap: nat, cov: real,
                           cands: map<int, Cand>)

  datatype SpanDoc = SpanDoc(key: Word, off: nat, len: nat, scopeId: Word, seg: int, dom: int, epoch: nat, count: nat,
                             breaks: map<nat, Break>)

  datatype Document = Document(version: int, hot: seq<HotDoc>, spans: seq<SpanDoc>, arena: seq<int>, epochs: EpochTable)

  function EntryOf(d: HotDoc): Entry {
    Entry(d.seg, d.dom, d.scopeId, d.epoch, d.kCap, d.cov, d.cands)
  }

  /** The table that reading the records in order builds. */
  function ReadHot(docs: seq<HotDoc>): Dict<Word, Entry> {
    if docs == [] then EmptyDict() else ReadHot(docs[..|docs| - 1]).Put(docs[|docs| - 1].key, EntryOf(docs[|docs| - 1]))
  }

  function SpanOfDoc(arena: seq<int>, d: SpanDoc): Span {
    Span(Slice(arena, d.off, d.len), d.scopeId, d.seg, d.dom, d.epoch, d.count, d.breaks)
  }

  function ReadSpans(arena: seq<int>, docs: seq<SpanDoc>): map<Word, Span> {
    if docs == [] then map[]
    else ReadSpans(arena, docs[..|docs| - 1])[docs[|docs| - 1].key := SpanOfDoc(arena, docs[|docs| - 1])]
  }

  /** The record names one whole, non-empty block of the arena, and its breaks lie inside it. */
  ghost predicate SpanDocOk(blocks: seq<seq<int>>, d: SpanDoc) {
    && d.len >= 1 && d.off + d.len <= |Flatten(blocks)|
    && IsBlock(blocks, d.off, Slice(Flatten(blocks), d.off, d.len))
    && forall b :: b in d.breaks ==> b < d.len
  }

  ghost predicate DocumentOk(doc: Document, blocks: seq<seq<int>>) {
    doc.arena == Flatten(blocks) && forall i :: 0 <= i < |doc.spans| ==> SpanDocOk(blocks, doc.spans[i])
  }

  /** The first `n` entries of a table. */
  ghost function First(t: Dict<Word, Entry>, n: nat): Dict<Word, Entry>
    requires n <= |t.keys|
  {
    Dict(t.keys[..n], map k | k in t.m && k in t.keys[..n] :: t.m[k])
  }

  lemma FirstGrows(t: Dict<Word, Entry>, n: nat)
    requires t.Valid() && n < |t.keys|
    ensures t.keys[n] in t.m && First(t, n + 1) == First(t, n).Put(t.keys[n], t.m[t.keys[n]])
  {
    assert t.keys[..n + 1] == t.keys[..n] + [t.keys[n]];
    var a, b := First(t, n + 1).m, First(t, n).Put(t.keys[n], t.m[t.keys[n]]).m;
    forall k ensures k in a <==> k in b {}
  }

  lemma {:induction false} ReadFirst(t: Dict<Word, Entry>, docs: seq<HotDoc>, n: nat)
    requires t.Valid() && |docs| == |t.keys| && n <= |docs|
    requires forall i :: 0 <= i < |docs| ==>
             t.keys[i] in t.m && docs[i].key == t.keys[i] && EntryOf(docs[i]) == t.m[t.keys[i]]
    ensures ReadHot(docs[..n]) == First(t, n)
  {
    hide EntryOf, Dict.Valid;
    if n > 0 {
      ReadFirst(t, docs, n - 1);
      FirstGrows(t, n - 1);
      assert docs[..n][..n - 1] == docs[..n - 1];
    }
  }

  /** Writing a table down in its own order and reading it back gives the same table, order included. */
  lemma ReadBack(t: Dict<Word, Entry>, docs: seq<HotDoc>)
    requires t.Valid() && |docs| == |t.keys|
    requires forall i :: 0 <= i < |docs| ==>
             t.keys[i] in t.m && docs[i].key == t.keys[i] && EntryOf(docs[i]) == t.m[t.keys[i]]
    ensures ReadHot(docs) == t
  {
    hide EntryOf, ReadHot;
    ReadFirst(t, docs, |docs|);
    assert docs[..|docs|] == docs && t.keys[..|docs|] == t.keys;
    assert First(t, |docs|).m == t.m;
  }

  lemma {:induction false} ReadSpansBack(spans: map<Word, Span>, keys: seq<Word>, arena: seq<int>, docs: seq<SpanDoc>)
    requires |docs| == |keys| && forall k :: k in keys ==> k in spans
    requires forall i :: 0 <= i < |docs| ==>
             docs[i].key == keys[i] && keys[i] in spans && SpanOfDoc(arena, docs[i]) == spans[keys[i]]
    ensures ReadSpans(arena, docs) == map k | k in keys :: spans[k]
  {
    hide SpanOfDoc;
    if docs != [] {
      var n := |docs| - 1;
      ReadSpansBack(spans, keys[..n], arena, docs[..n]);
      assert keys == keys[..n] + [keys[n]];
    }
  }
}
