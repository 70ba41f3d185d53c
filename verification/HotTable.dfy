/** The hot table as a function of what it is told, for any way of naming contexts. */
module HotTables {
  import opened Bits
  import opened Dicts
  import opened HotEntries
  import opened Signatures
  import opened Types
  import opened Backoff = Backoff

  /** What a table entry is about: the exact last `order` tokens, in a scope and a segment. */
  datatype Context = Context(order: int, scope: Word, seg: int, toks: seq<int>)

  /** The 64-bit name the store uses for a context. */
  function Hash(c: Context): Word {
    if 0 <= c.order <= MAX_ORDER then FoldKey(SigOf(c.toks), c.order, c.scope, c.seg) else 0
  }

  type Naming<!K> = Context -> K

  datatype Hot<!K(==, !new)> = Hot(table: Dict<K, Entry>, epochs: map<(Word, int), nat>) {

    function EpochNow(scope: Word, dom: int): nat {
      if dom == 0 then 0 else if (scope, dom) in epochs then epochs[(scope, dom)] else 0
    }

    predicate IsFresh(e: Entry) {
      e.epoch == EpochNow(e.scope, e.dom)
    }
  }

  function EmptyHot<K(==, !new)>(): Hot<K> {
    Hot(EmptyDict(), map[])
  }

  function BumpEpoch<K(!new)>(h: Hot<K>, scope: Word, file: int): Hot<K> {
    var now := if (scope, file) in h.epochs then h.epochs[(scope, file)] else 0;
    h.(epochs := h.epochs[(scope, file) := (now + 1) % (U16_MAX + 1)])
  }

  // ---------------------------------------------------------------- writing

  function EvictOldest<K(!new), V>(p: StoreParams, d: Dict<K, V>): Dict<K, V> {
    if p.maxEntries > 0 && |d.keys| >= p.maxEntries then d.Remove(d.keys[0]) else d
  }

  /** The entry a write goes to: created (evicting the oldest when full), revalidated when stale, or moved to the
      file last observed. */
  function GetOrCreate<K(!new)>(p: StoreParams, h: Hot<K>, key: K, seg: int, dom: int, scope: Word): (r: Hot<K>)
    ensures key in r.table.m
  {
    var now := h.EpochNow(scope, dom);
    if key !in h.table.m then
      h.(table := EvictOldest(p, h.table).Put(key, Fresh(seg, dom, scope, now, p.entry.kInit)))
    else
      var e := h.table.m[key];
      if !h.IsFresh(e) then h.(table := h.table.Put(key, ResetEntry(e, now, dom)))
      else if dom != 0 && e.dom != dom then h.(table := h.table.Put(key, e.(dom := dom, epoch := now)))
      else h
  }

  /** One observation of a realized token at one context. */
  datatype Touch<!K> = Touch(key: K, seg: int, dom: int, scope: Word, obs: Observation)

  datatype Observation = Observation(realized: int, rejected: Option<int>, topk: Option<(seq<int>, seq<int>)>)

  ghost function Observed(p: Params, e: Entry, o: Observation): Entry {
    var e1 := Realized(p, e, o.realized);
    var e2 := if o.rejected.Some? then Rejected(p, e1, o.rejected.value) else e1;
    if o.topk.Some? then Merged(p, e2, o.topk.value.0, o.topk.value.1) else e2
  }

  ghost function ApplyTouch<K(!new)>(p: StoreParams, h: Hot<K>, t: Touch<K>): Hot<K> {
    var g := GetOrCreate(p, h, t.key, t.seg, t.dom, t.scope);
    g.(table := g.table.Put(t.key, Observed(p.entry, g.table.m[t.key], t.obs)))
  }

  ghost function ApplyTouches<K(!new)>(p: StoreParams, h: Hot<K>, ts: seq<Touch<K>>): Hot<K>
    decreases |ts|
  {
    if ts == [] then h else ApplyTouches(p, ApplyTouch(p, h, ts[0]), ts[1..])
  }

  lemma {:induction false} ApplyTouchesConcat<K(!new)>(p: StoreParams, h: Hot<K>, ts: seq<Touch<K>>, us: seq<Touch<K>>)
    ensures ApplyTouches(p, h, ts + us) == ApplyTouches(p, ApplyTouches(p, h, ts), us)
    decreases |ts|
  {
    if ts == [] {
      assert ts + us == us;
    } else {
      assert (ts + us)[1..] == ts[1..] + us;
      ApplyTouchesConcat(p, ApplyTouch(p, h, ts[0]), ts[1..], us);
    }
  }

  // ---------------------------------------------------------------- what an event touches

  /** Where a realized token was seen: the tokens before it, the active scopes, its segment and file. */
  datatype Site = Site(before: seq<int>, scopes: seq<Word>, seg: int, dom: int)

  function ContextAt(s: Site, order: int, depth: nat): Context
    requires order >= 0 && depth < |s.scopes|
  {
    Context(order, s.scopes[depth], s.seg % 4, LastTokens(s.before, order))
  }

  ghost function DepthTouches<K(!new)>(p: StoreParams, f: Naming<K>, s: Site, o: Observation, order: nat,
                                       depth: nat): seq<Touch<K>>
    decreases |s.scopes| - depth
  {
    if depth >= |s.scopes| then [] else
      (if depth in p.scopeDepths then [Touch(f(ContextAt(s, order, depth)), s.seg, s.dom, s.scopes[depth], o)] else [])
      + DepthTouches(p, f, s, o, order, depth + 1)
  }

  /** Orders from `order` up to what the stream and the maximum allow. */
  ghost function OrderTouches<K(!new)>(p: StoreParams, f: Naming<K>, s: Site, o: Observation, order: nat): seq<Touch<K>>
    decreases MAX_ORDER + 1 - order
  {
    if order > MAX_ORDER || order > |s.before| then [] else
      (if order in p.orders then DepthTouches(p, f, s, o, order, 0) else []) + OrderTouches(p, f, s, o, order + 1)
  }

  ghost function SiteTouches<K(!new)>(p: StoreParams, f: Naming<K>, s: Site, o: Observation): seq<Touch<K>> {
    OrderTouches(p, f, s, o, 2)
  }

  function SiteAt(ev: Event, pos: nat): Site
    requires pos <= |ev.Realized()|
  {
    Site(ev.ctxTail + ev.Realized()[..pos], ev.scopes, ev.SegAt(pos), ev.DomAt(pos))
  }

  function ObservationAt(ev: Event, pos: nat): Observation
    requires pos < |ev.Realized()| && |ev.topkIds| <= |ev.topkQ8s|
  {
    Observation(ev.Realized()[pos],
                if pos == ev.acceptedLen && pos < |ev.draft| then Some(ev.draft[pos]) else None,
                if pos < |ev.topkIds| then Some((ev.topkIds[pos], ev.topkQ8s[pos])) else None)
  }

  ghost function EventTouches<K(!new)>(p: StoreParams, f: Naming<K>, ev: Event, pos: nat): seq<Touch<K>>
    requires pos <= |ev.Realized()| && ev.WellFormed()
    decreases |ev.Realized()| - pos
  {
    if pos == |ev.Realized()| then [] else
      SiteTouches(p, f, SiteAt(ev, pos), ObservationAt(ev, pos)) + EventTouches(p, f, ev, pos + 1)
  }

  ghost function ApplyEvent<K(!new)>(p: StoreParams, f: Naming<K>, h: Hot<K>, ev: Event): Hot<K>
    requires ev.WellFormed()
  {
    ApplyTouches(p, h, EventTouches(p, f, ev, 0))
  }

  // ---------------------------------------------------------------- compaction

  /** Keeps the live entries in their order: stale ones go, the others are halved and go when nothing remains. */
  predicate Survives(p: Params, current: bool, e: Entry) {
    current && Decayed(p, e).cands != map[]
  }

  function CompactFrom<K(!new)>(p: Params, h: Hot<K>, keys: seq<K>): Dict<K, Entry> {
    if keys == [] then EmptyDict() else
      var d := CompactFrom(p, h, keys[..|keys| - 1]);
      var k := keys[|keys| - 1];
      if k in h.table.m && Survives(p, h.IsFresh(h.table.m[k]), h.table.m[k]) then d.Put(k, Decayed(p, h.table.m[k]))
      else d
  }

  function Compacted<K(!new)>(p: Params, h: Hot<K>): Hot<K> {
    h.(table := CompactFrom(p, h, h.table.keys))
  }

  // ---------------------------------------------------------------- reading

  /** A matched entry: the order and depth it was found at, and what it holds. */
  datatype Match = Match(order: nat, depth: nat, entry: Entry)

  /** A probe finds an entry only if it is fresh and of the same segment. */
  function Probe<K(!new)>(h: Hot<K>, key: K, seg: int): Option<Entry> {
    if key in h.table.m && h.IsFresh(h.table.m[key]) && h.table.m[key].seg == seg then Some(h.table.m[key]) else None
  }

  function DepthMatches<K(!new)>(p: StoreParams, f: Naming<K>, h: Hot<K>, s: Site, order: nat, depth: nat): seq<Match>
    decreases |s.scopes| - depth
  {
    if depth >= |s.scopes| then [] else
      var e := if depth in p.scopeDepths then Probe(h, f(ContextAt(s, order, depth)), s.seg) else None;
      (if e.Some? then [Match(order, depth, e.value)] else []) + DepthMatches(p, f, h, s, order, depth + 1)
  }

  function OrderMatches<K(!new)>(p: StoreParams, f: Naming<K>, h: Hot<K>, s: Site, order: nat): seq<Match>
    decreases MAX_ORDER + 1 - order
  {
    if order > MAX_ORDER || order > |s.before| then [] else
      (if order in p.orders then DepthMatches(p, f, h, s, order, 0) else []) + OrderMatches(p, f, h, s, order + 1)
  }

  /** Everything a lookup of the site would blend. */
  function Matches<K(!new)>(p: StoreParams, f: Naming<K>, h: Hot<K>, s: Site): seq<Match> {
    OrderMatches(p, f, h, s, 2)
  }
}
