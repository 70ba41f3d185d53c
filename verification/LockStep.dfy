/** Whole runs of the hot store, and the proof that hashing contexts changes nothing as long as keys do not collide. */
module LockStep {
  import opened Bits
  import opened Dicts
  import opened HotEntries
  import opened Types
  import opened HotTables
  import opened Backoff

  // ---------------------------------------------------------------- runs

  datatype Op = Offer(events: seq<Event>) | Drain(limit: Option<nat>) | Bump(scope: Word, file: int) | Compact

  datatype Store<!K(==, !new)> = Store(hot: Hot<K>, queue: seq<Event>, drops: nat, applied: nat, sinceCompact: nat)

  function EmptyStore<K(==, !new)>(): Store<K> {
    Store(EmptyHot(), [], 0, 0, 0)
  }

  /** Never blocks: a full queue drops its oldest event, a disabled one drops everything. */
  function Harvest(p: StoreParams, queue: seq<Event>, drops: nat, events: seq<Event>): (seq<Event>, nat)
    decreases |events|
  {
    if p.queueCap <= 0 then (queue, drops + |events|)
    else if events == [] then (queue, drops)
    else if |queue| >= p.queueCap then Harvest(p, queue[1..] + [events[0]], drops + 1, events[1..])
    else Harvest(p, queue + [events[0]], drops, events[1..])
  }

  ghost function ApplyEvents<K(!new)>(p: StoreParams, f: Naming<K>, h: Hot<K>, evs: seq<Event>): Hot<K>
    requires forall i :: 0 <= i < |evs| ==> evs[i].WellFormed()
  {
    if evs == [] then h else ApplyEvent(p, f, ApplyEvents(p, f, h, evs[..|evs| - 1]), evs[|evs| - 1])
  }

  function DrainCount(queue: seq<Event>, limit: Option<nat>): nat {
    if limit.Some? && limit.value < |queue| then limit.value else |queue|
  }

  ghost predicate WellFormedQueue(queue: seq<Event>) {
    forall i :: 0 <= i < |queue| ==> queue[i].WellFormed()
  }

  ghost function Step<K(!new)>(p: StoreParams, f: Naming<K>, st: Store<K>, op: Op): Store<K>
    requires WellFormedQueue(st.queue)
  {
    match op
    case Offer(events) =>
      var (q, d) := Harvest(p, st.queue, st.drops, events);
      st.(queue := q, drops := d)
    case Drain(limit) =>
      var n := DrainCount(st.queue, limit);
      var hot := ApplyEvents(p, f, st.hot, st.queue[..n]);
      var due := p.compactEvery > 0 && n > 0 && st.sinceCompact + n >= p.compactEvery;
      Store(if due then Compacted(p.entry, hot) else hot, st.queue[n..], st.drops, st.applied + n,
            if due then 0 else st.sinceCompact + n)
    case Bump(scope, file) =>
      st.(hot := BumpEpoch(st.hot, scope, file))
    case Compact =>
      st.(hot := Compacted(p.entry, st.hot))
  }

  ghost predicate WellFormedOps(ops: seq<Op>) {
    forall i :: 0 <= i < |ops| && ops[i].Offer? ==> WellFormedQueue(ops[i].events)
  }

  ghost function Run<K(!new)>(p: StoreParams, f: Naming<K>, ops: seq<Op>): (st: Store<K>)
    requires WellFormedOps(ops)
    ensures WellFormedQueue(st.queue)
  {
    if ops == [] then EmptyStore() else
      var before := Run(p, f, ops[..|ops| - 1]);
      var op := ops[|ops| - 1];
      if op.Offer? then HarvestKeeps(p, before.queue, before.drops, op.events); Step(p, f, before, op)
      else Step(p, f, before, op)
  }

  lemma RunSnoc<K(!new)>(p: StoreParams, f: Naming<K>, ops: seq<Op>, op: Op)
    requires WellFormedOps(ops) && (op.Offer? ==> WellFormedQueue(op.events))
    ensures WellFormedOps(ops + [op]) && Run(p, f, ops + [op]) == Step(p, f, Run(p, f, ops), op)
  {
    hide Step;
    assert (ops + [op])[..|ops|] == ops;
  }

  lemma {:induction false} HarvestKeeps(p: StoreParams, queue: seq<Event>, drops: nat, events: seq<Event>)
    requires WellFormedQueue(queue) && WellFormedQueue(events)
    ensures WellFormedQueue(Harvest(p, queue, drops, events).0)
    decreases |events|
  {
    if p.queueCap > 0 && events != [] {
      if |queue| >= p.queueCap {
        HarvestKeeps(p, queue[1..] + [events[0]], drops + 1, events[1..]);
      } else {
        HarvestKeeps(p, queue + [events[0]], drops, events[1..]);
      }
    }
  }

  // ---------------------------------------------------------------- tables that mirror each other

  /** The reference store names every context by itself. */
  const EXACT: Naming<Context> := c => c

  ghost predicate InjectiveOn<K(!new)>(f: Naming<K>, all: iset<Context>) {
    forall a, b :: a in all && b in all && f(a) == f(b) ==> a == b
  }

  /** The same entries in the same order, under the names that `f` gives the contexts. */
  ghost predicate Mirror<K(!new), V>(f: Naming<K>, all: iset<Context>, d: Dict<Context, V>, d': Dict<K, V>) {
    && d.Valid() && d'.Valid() && |d.keys| == |d'.keys|
    && forall i :: 0 <= i < |d.keys| ==>
         d.keys[i] in all && d'.keys[i] == f(d.keys[i]) && d'.m[d'.keys[i]] == d.m[d.keys[i]]
  }

  lemma MirrorLookup<K(!new), V>(f: Naming<K>, all: iset<Context>, d: Dict<Context, V>, d': Dict<K, V>, c: Context)
    requires InjectiveOn(f, all) && Mirror(f, all, d, d') && c in all
    ensures c in d.m <==> f(c) in d'.m
    ensures c in d.m ==> d.m[c] == d'.m[f(c)]
  {
    if c in d.m {
      var i :| 0 <= i < |d.keys| && d.keys[i] == c;
      assert d'.keys[i] == f(c);
    }
    if f(c) in d'.m {
      var i :| 0 <= i < |d'.keys| && d'.keys[i] == f(c);
      assert f(d.keys[i]) == f(c);
    }
  }

  /** Every key of the mirroring table names a context of the mirrored one. */
  lemma MirrorContext<K(!new), V>(f: Naming<K>, all: iset<Context>, d: Dict<Context, V>, d': Dict<K, V>, key: K)
    returns (c: Context)
    requires Mirror(f, all, d, d') && key in d'.m
    ensures c in all && c in d.m && key == f(c)
  {
    var i :| 0 <= i < |d'.keys| && d'.keys[i] == key;
    c := d.keys[i];
  }

  lemma MirrorPut<K(!new), V>(f: Naming<K>, all: iset<Context>, d: Dict<Context, V>, d': Dict<K, V>, c: Context, v: V)
    requires InjectiveOn(f, all) && Mirror(f, all, d, d') && c in all
    ensures Mirror(f, all, d.Put(c, v), d'.Put(f(c), v))
  {
    MirrorLookup(f, all, d, d', c);
    var e, e' := d.Put(c, v), d'.Put(f(c), v);
    forall i | 0 <= i < |e.keys|
      ensures e.keys[i] in all && e'.keys[i] == f(e.keys[i]) && e'.m[e'.keys[i]] == e.m[e.keys[i]]
    {
      if e.keys[i] != c && i < |d.keys| { assert f(d.keys[i]) != f(c); }
    }
  }

  lemma {:induction false} WithoutAbsent<K(!new)>(keys: seq<K>, k: K)
    requires k !in keys
    ensures Without(keys, k) == keys
  {
    if keys != [] { WithoutAbsent(keys[1..], k); }
  }

  lemma RemoveFirst<K(!new), V>(d: Dict<K, V>)
    requires d.Valid() && d.keys != []
    ensures d.Remove(d.keys[0]) == Dict(d.keys[1..], d.m - {d.keys[0]}) && d.Remove(d.keys[0]).Valid()
  {
    assert d.keys[0] !in d.keys[1..];
    WithoutAbsent(d.keys[1..], d.keys[0]);
    RemoveValid(d, d.keys[0]);
  }

  lemma MirrorEvict<K(!new), V>(p: StoreParams, f: Naming<K>, all: iset<Context>, d: Dict<Context, V>, d': Dict<K, V>)
    requires InjectiveOn(f, all) && Mirror(f, all, d, d')
    ensures Mirror(f, all, EvictOldest(p, d), EvictOldest(p, d'))
  {
    hide Without;
    if p.maxEntries > 0 && |d.keys| >= p.maxEntries {
      RemoveFirst(d);
      RemoveFirst(d');
    }
  }

  ghost predicate MirrorHot<K(!new)>(f: Naming<K>, all: iset<Context>, h: Hot<Context>, h': Hot<K>) {
    Mirror(f, all, h.table, h'.table) && h.epochs == h'.epochs
  }

  /** The same observation under the context and under its name. */
  ghost predicate SameTouch<K(!new)>(f: Naming<K>, all: iset<Context>, t: Touch<Context>, t': Touch<K>) {
    t.key in all && t' == Touch(f(t.key), t.seg, t.dom, t.scope, t.obs)
  }

  ghost predicate SameTouches<K(!new)>(f: Naming<K>, all: iset<Context>, ts: seq<Touch<Context>>, ts': seq<Touch<K>>) {
    |ts| == |ts'| && forall i :: 0 <= i < |ts| ==> SameTouch(f, all, ts[i], ts'[i])
  }

  lemma MirrorCreate<K(!new)>(p: StoreParams, f: Naming<K>, all: iset<Context>, h: Hot<Context>, h': Hot<K>,
                              c: Context, seg: int, dom: int, scope: Word)
    requires InjectiveOn(f, all) && MirrorHot(f, all, h, h') && c in all
    ensures MirrorHot(f, all, GetOrCreate(p, h, c, seg, dom, scope), GetOrCreate(p, h', f(c), seg, dom, scope))
  {
    hide Mirror, InjectiveOn, ResetEntry, Fresh, EvictOldest;
    MirrorLookup(f, all, h.table, h'.table, c);
    var now := h.EpochNow(scope, dom);
    if c !in h.table.m {
      MirrorEvict(p, f, all, h.table, h'.table);
      MirrorPut(f, all, EvictOldest(p, h.table), EvictOldest(p, h'.table), c,
                Fresh(seg, dom, scope, now, p.entry.kInit));
    } else {
      var e := h.table.m[c];
      MirrorPut(f, all, h.table, h'.table, c, ResetEntry(e, now, dom));
      MirrorPut(f, all, h.table, h'.table, c, e.(dom := dom, epoch := now));
    }
  }

  lemma MirrorTouch<K(!new)>(p: StoreParams, f: Naming<K>, all: iset<Context>, h: Hot<Context>, h': Hot<K>,
                             t: Touch<Context>, t': Touch<K>)
    requires InjectiveOn(f, all) && MirrorHot(f, all, h, h') && SameTouch(f, all, t, t')
    ensures MirrorHot(f, all, ApplyTouch(p, h, t), ApplyTouch(p, h', t'))
  {
    hide Mirror, InjectiveOn, GetOrCreate, Observed;
    MirrorCreate(p, f, all, h, h', t.key, t.seg, t.dom, t.scope);
    var g, g' := GetOrCreate(p, h, t.key, t.seg, t.dom, t.scope), GetOrCreate(p, h', t'.key, t.seg, t.dom, t.scope);
    MirrorLookup(f, all, g.table, g'.table, t.key);
    MirrorPut(f, all, g.table, g'.table, t.key, Observed(p.entry, g.table.m[t.key], t.obs));
  }

  lemma {:induction false} MirrorTouches<K(!new)>(p: StoreParams, f: Naming<K>, all: iset<Context>, h: Hot<Context>,
                                                  h': Hot<K>, ts: seq<Touch<Context>>, ts': seq<Touch<K>>)
    requires InjectiveOn(f, all) && MirrorHot(f, all, h, h') && SameTouches(f, all, ts, ts')
    ensures MirrorHot(f, all, ApplyTouches(p, h, ts), ApplyTouches(p, h', ts'))
    decreases |ts|
  {
    hide InjectiveOn, MirrorHot, ApplyTouch;
    if ts != [] {
      MirrorTouch(p, f, all, h, h', ts[0], ts'[0]);
      MirrorTouches(p, f, all, ApplyTouch(p, h, ts[0]), ApplyTouch(p, h', ts'[0]), ts[1..], ts'[1..]);
    }
  }

  // ---------------------------------------------------------------- the contexts a run speaks about

  /** Every context a site is probed or written at is among `all`. */
  ghost predicate SiteIn(p: StoreParams, s: Site, all: iset<Context>) {
    forall order: nat, depth: nat :: order in p.orders && depth in p.scopeDepths ==>
      (2 <= order <= Signatures.MAX_ORDER && order <= |s.before| && depth < |s.scopes| ==>
       ContextAt(s, order, depth) in all)
  }

  ghost predicate EventIn(p: StoreParams, ev: Event, all: iset<Context>) {
    forall pos: nat :: pos < |ev.Realized()| ==> SiteIn(p, SiteAt(ev, pos), all)
  }

  ghost predicate OpsIn(p: StoreParams, ops: seq<Op>, all: iset<Context>) {
    forall i :: 0 <= i < |ops| && ops[i].Offer? ==> EventsIn(p, ops[i].events, all)
  }

  ghost predicate EventsIn(p: StoreParams, evs: seq<Event>, all: iset<Context>) {
    forall i :: 0 <= i < |evs| ==> EventIn(p, evs[i], all)
  }

  lemma {:induction false} DepthSame<K(!new)>(p: StoreParams, f: Naming<K>, all: iset<Context>, s: Site, o: Observation,
                                              order: nat, depth: nat)
    requires SiteIn(p, s, all) && 2 <= order <= Signatures.MAX_ORDER && order <= |s.before| && order in p.orders
    ensures SameTouches(f, all, DepthTouches(p, EXACT, s, o, order, depth), DepthTouches(p, f, s, o, order, depth))
    decreases |s.scopes| - depth
  {
    if depth < |s.scopes| { DepthSame(p, f, all, s, o, order, depth + 1); }
  }

  lemma {:induction false} OrderSame<K(!new)>(p: StoreParams, f: Naming<K>, all: iset<Context>, s: Site, o: Observation,
                                              order: nat)
    requires SiteIn(p, s, all) && 2 <= order
    ensures SameTouches(f, all, OrderTouches(p, EXACT, s, o, order), OrderTouches(p, f, s, o, order))
    decreases Signatures.MAX_ORDER + 1 - order
  {
    if order <= Signatures.MAX_ORDER && order <= |s.before| {
      OrderSame(p, f, all, s, o, order + 1);
      if order in p.orders { DepthSame(p, f, all, s, o, order, 0); }
    }
  }

  lemma {:induction false} EventSame<K(!new)>(p: StoreParams, f: Naming<K>, all: iset<Context>, ev: Event, pos: nat)
    requires ev.WellFormed() && EventIn(p, ev, all) && pos <= |ev.Realized()|
    ensures SameTouches(f, all, EventTouches(p, EXACT, ev, pos), EventTouches(p, f, ev, pos))
    decreases |ev.Realized()| - pos
  {
    hide SiteIn, OrderTouches, ObservationAt, SiteAt, SameTouch;
    if pos < |ev.Realized()| {
      EventSame(p, f, all, ev, pos + 1);
      OrderSame(p, f, all, SiteAt(ev, pos), ObservationAt(ev, pos), 2);
    }
  }

  lemma {:induction false} MirrorEvents<K(!new)>(p: StoreParams, f: Naming<K>, all: iset<Context>, h: Hot<Context>,
                                                 h': Hot<K>, evs: seq<Event>)
    requires InjectiveOn(f, all) && MirrorHot(f, all, h, h') && WellFormedQueue(evs) && EventsIn(p, evs, all)
    ensures MirrorHot(f, all, ApplyEvents(p, EXACT, h, evs), ApplyEvents(p, f, h', evs))
  {
    hide InjectiveOn, MirrorHot, EventIn;
    if evs != [] {
      var rest, ev := evs[..|evs| - 1], evs[|evs| - 1];
      MirrorEvents(p, f, all, h, h', rest);
      EventSame(p, f, all, ev, 0);
      MirrorTouches(p, f, all, ApplyEvents(p, EXACT, h, rest), ApplyEvents(p, f, h', rest),
                    EventTouches(p, EXACT, ev, 0), EventTouches(p, f, ev, 0));
    }
  }

  lemma {:induction false} MirrorCompact<K(!new)>(p: Params, f: Naming<K>, all: iset<Context>, h: Hot<Context>,
                                                  h': Hot<K>, keys: seq<Context>, keys': seq<K>)
    requires InjectiveOn(f, all) && MirrorHot(f, all, h, h')
    requires |keys| == |keys'| && forall i :: 0 <= i < |keys| ==> keys[i] in all && keys'[i] == f(keys[i])
    ensures Mirror(f, all, CompactFrom(p, h, keys), CompactFrom(p, h', keys'))
  {
    hide InjectiveOn, Mirror, Survives, Decayed;
    if keys != [] {
      var c := keys[|keys| - 1];
      MirrorCompact(p, f, all, h, h', keys[..|keys| - 1], keys'[..|keys| - 1]);
      MirrorLookup(f, all, h.table, h'.table, c);
      if c in h.table.m {
        MirrorPut(f, all, CompactFrom(p, h, keys[..|keys| - 1]), CompactFrom(p, h', keys'[..|keys| - 1]), c,
                  Decayed(p, h.table.m[c]));
      }
    } else {
      MirrorNothing<K, Entry>(f, all);
    }
  }

  lemma MirrorNothing<K(!new), V>(f: Naming<K>, all: iset<Context>)
    ensures Mirror<K, V>(f, all, EmptyDict(), EmptyDict())
  {
  }

  lemma MirrorCompacted<K(!new)>(p: Params, f: Naming<K>, all: iset<Context>, h: Hot<Context>, h': Hot<K>)
    requires InjectiveOn(f, all) && MirrorHot(f, all, h, h')
    ensures MirrorHot(f, all, Compacted(p, h), Compacted(p, h'))
  {
    MirrorCompact(p, f, all, h, h', h.table.keys, h'.table.keys);
  }

  // ---------------------------------------------------------------- the theorem

  /** In every run, a store that names contexts injectively holds exactly what the store keyed by the contexts holds. */
  lemma {:induction false} RunInLockStep<K(!new)>(p: StoreParams, f: Naming<K>, all: iset<Context>, ops: seq<Op>)
    requires InjectiveOn(f, all) && WellFormedOps(ops) && OpsIn(p, ops, all)
    ensures var st, st' := Run(p, EXACT, ops), Run(p, f, ops);
            && MirrorHot(f, all, st.hot, st'.hot)
            && st.queue == st'.queue && st.drops == st'.drops && st.applied == st'.applied &&
               st.sinceCompact == st'.sinceCompact
    ensures EventsIn(p, Run(p, EXACT, ops).queue, all)
  {
    hide InjectiveOn, Mirror, EventIn;
    if ops == [] {
      MirrorNothing<K, Entry>(f, all);
    } else {
      var op := ops[|ops| - 1];
      RunInLockStep(p, f, all, ops[..|ops| - 1]);
      var st, st' := Run(p, EXACT, ops[..|ops| - 1]), Run(p, f, ops[..|ops| - 1]);
      match op
      case Offer(events) =>
        HarvestIn(p, st.queue, st.drops, events, all);
      case Drain(limit) =>
        var n := DrainCount(st.queue, limit);
        MirrorEvents(p, f, all, st.hot, st'.hot, st.queue[..n]);
        MirrorCompacted(p.entry, f, all, ApplyEvents(p, EXACT, st.hot, st.queue[..n]),
                        ApplyEvents(p, f, st'.hot, st.queue[..n]));
      case Bump(scope, file) =>
      case Compact =>
        MirrorCompacted(p.entry, f, all, st.hot, st'.hot);
    }
  }

  lemma {:induction false} HarvestIn(p: StoreParams, queue: seq<Event>, drops: nat, events: seq<Event>,
                                     all: iset<Context>)
    requires EventsIn(p, queue, all) && EventsIn(p, events, all)
    ensures EventsIn(p, Harvest(p, queue, drops, events).0, all)
    decreases |events|
  {
    hide EventIn;
    if p.queueCap > 0 && events != [] {
      if |queue| >= p.queueCap {
        HarvestIn(p, queue[1..] + [events[0]], drops + 1, events[1..], all);
      } else {
        HarvestIn(p, queue + [events[0]], drops, events[1..], all);
      }
    }
  }

  lemma MirrorProbe<K(!new)>(f: Naming<K>, all: iset<Context>, h: Hot<Context>, h': Hot<K>, c: Context, seg: int)
    requires InjectiveOn(f, all) && MirrorHot(f, all, h, h') && c in all
    ensures Probe(h, EXACT(c), seg) == Probe(h', f(c), seg)
  {
    MirrorLookup(f, all, h.table, h'.table, c);
  }

  lemma {:induction false} MirrorDepthMatches<K(!new)>(p: StoreParams, f: Naming<K>, all: iset<Context>,
                                                       h: Hot<Context>, h': Hot<K>, s: Site, order: nat, depth: nat)
    requires InjectiveOn(f, all) && MirrorHot(f, all, h, h')
    requires SiteIn(p, s, all) && 2 <= order <= Signatures.MAX_ORDER && order <= |s.before| && order in p.orders
    ensures DepthMatches(p, EXACT, h, s, order, depth) == DepthMatches(p, f, h', s, order, depth)
    decreases |s.scopes| - depth
  {
    hide InjectiveOn, MirrorHot, Probe;
    if depth < |s.scopes| {
      MirrorDepthMatches(p, f, all, h, h', s, order, depth + 1);
      if depth in p.scopeDepths { MirrorProbe(f, all, h, h', ContextAt(s, order, depth), s.seg); }
    }
  }

  lemma {:induction false} MirrorOrderMatches<K(!new)>(p: StoreParams, f: Naming<K>, all: iset<Context>,
                                                       h: Hot<Context>, h': Hot<K>, s: Site, order: nat)
    requires InjectiveOn(f, all) && MirrorHot(f, all, h, h') && SiteIn(p, s, all) && 2 <= order
    ensures OrderMatches(p, EXACT, h, s, order) == OrderMatches(p, f, h', s, order)
    decreases Signatures.MAX_ORDER + 1 - order
  {
    hide InjectiveOn, MirrorHot, SiteIn;
    if order <= Signatures.MAX_ORDER && order <= |s.before| {
      MirrorOrderMatches(p, f, all, h, h', s, order + 1);
      if order in p.orders { MirrorDepthMatches(p, f, all, h, h', s, order, 0); }
    }
  }

  /** After any run, every lookup finds the same evidence through the hashed keys as through the exact contexts. */
  lemma LookupInLockStep(p: StoreParams, all: iset<Context>, ops: seq<Op>, s: Site)
    requires InjectiveOn(Hash, all) && WellFormedOps(ops) && OpsIn(p, ops, all) && SiteIn(p, s, all)
    ensures Matches(p, Hash, Run(p, Hash, ops).hot, s) == Matches(p, EXACT, Run(p, EXACT, ops).hot, s)
  {
    RunInLockStep(p, Hash, all, ops);
    MirrorOrderMatches(p, Hash, all, Run(p, EXACT, ops).hot, Run(p, Hash, ops).hot, s, 2);
  }
}
