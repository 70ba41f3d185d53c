/** Lazy invalidation: a 16-bit stamp per entry against a 16-bit counter per (scope, file), compared only when read. */
module Epochs {
  import opened Bits
  import opened HotEntries
  import opened Types
  import opened HotTables
  import opened Backoff
  import opened LockStep

  const EPOCHS: int := 0x1_0000

  // ---------------------------------------------------------------- runs, one observation at a time

  datatype HotOp = DoTouch(t: Touch<Context>) | DoBump(scope: Word, file: int) | DoCompact

  ghost function HotStep(p: StoreParams, h: Hot<Context>, op: HotOp): Hot<Context> {
    match op
    case DoTouch(t) => ApplyTouch(p, h, t)
    case DoBump(scope, file) => BumpEpoch(h, scope, file)
    case DoCompact => Compacted(p.entry, h)
  }

  ghost function HotRun(p: StoreParams, ops: seq<HotOp>): Hot<Context> {
    if ops == [] then EmptyHot() else HotStep(p, HotRun(p, ops[..|ops| - 1]), ops[|ops| - 1])
  }

  /** An observation is made in the scope that its context names. */
  ghost predicate Scoped(ops: seq<HotOp>) {
    forall i :: 0 <= i < |ops| && ops[i].DoTouch? ==> ops[i].t.key.scope == ops[i].t.scope
  }

  function Bumps(ops: seq<HotOp>, scope: Word, file: int): nat {
    if ops == [] then 0 else
      Bumps(ops[..|ops| - 1], scope, file) + if ops[|ops| - 1] == DoBump(scope, file) then 1 else 0
  }

  /** The write stamps the entry: it creates it, resets a stale one, or moves it to another file. */
  ghost predicate Stamps(h: Hot<Context>, t: Touch<Context>) {
    t.key !in h.table.m || !h.IsFresh(h.table.m[t.key]) || (t.dom != 0 && h.table.m[t.key].dom != t.dom)
  }

  /** How many operations had happened when `key` was last stamped. */
  ghost function LastStamp(p: StoreParams, ops: seq<HotOp>, key: Context): nat {
    if ops == [] then 0 else
      var before := ops[..|ops| - 1];
      var op := ops[|ops| - 1];
      if op.DoTouch? && op.t.key == key && Stamps(HotRun(p, before), op.t) then |ops| else LastStamp(p, before, key)
  }

  lemma {:induction false} LastStampInRange(p: StoreParams, ops: seq<HotOp>, key: Context)
    ensures LastStamp(p, ops, key) <= |ops|
  {
    if ops != [] { LastStampInRange(p, ops[..|ops| - 1], key); }
  }

  lemma {:induction false} EpochIsBumps(p: StoreParams, ops: seq<HotOp>, scope: Word, file: int)
    ensures HotRun(p, ops).EpochNow(scope, file) == if file == 0 then 0 else Bumps(ops, scope, file) % EPOCHS
  {
    hide ApplyTouch, CompactFrom;
    if ops != [] {
      var before, op := ops[..|ops| - 1], ops[|ops| - 1];
      EpochIsBumps(p, before, scope, file);
      if op.DoTouch? { TouchKeepsEpochs(p, HotRun(p, before), op.t); }
    }
  }

  lemma TouchKeepsEpochs<K(!new)>(p: StoreParams, h: Hot<K>, t: Touch<K>)
    ensures ApplyTouch(p, h, t).epochs == h.epochs
  {
    hide Observed;
  }

  /** The observation itself leaves the stamp alone. */
  lemma ObservedKeepsStamp(p: Params, e: Entry, o: Observation)
    ensures Observed(p, e, o).dom == e.dom && Observed(p, e, o).epoch == e.epoch
    ensures Observed(p, e, o).scope == e.scope && Observed(p, e, o).seg == e.seg
  {
    RealizedKeepsStamp(p, e, o.realized);
    var e1 := Realized(p, e, o.realized);
    if o.rejected.Some? { RealizedKeepsStamp(p, e1, o.rejected.value); }
    var e2 := if o.rejected.Some? then Rejected(p, e1, o.rejected.value) else e1;
    if o.topk.Some? { MergedKeepsStamp(p, e2, o.topk.value.0, o.topk.value.1); }
  }

  lemma RealizedKeepsStamp(p: Params, e: Entry, tok: int)
    ensures var f, g := Realized(p, e, tok), Rejected(p, e, tok);
            && f.dom == g.dom == e.dom && f.epoch == g.epoch == e.epoch && f.scope == g.scope == e.scope &&
               f.seg == g.seg == e.seg
  {
    hide WithoutWeakest;
  }

  lemma MergedKeepsStamp(p: Params, e: Entry, ids: seq<int>, q8s: seq<int>)
    ensures var f := Merged(p, e, ids, q8s);
            f.dom == e.dom && f.epoch == e.epoch && f.scope == e.scope && f.seg == e.seg
  {
    if ids != [] {
      var cov := 0.75 * e.cov + 0.25 * (Covered(e.cands, ids) as real / |ids| as real);
      ObserveKeepsStamp(p, e.(cov := cov, cands := FadeOthers(e.cands, ids)), ids, q8s);
    }
  }

  lemma {:induction false} ObserveKeepsStamp(p: Params, e: Entry, ids: seq<int>, q8s: seq<int>)
    ensures var f := ObserveAll(p, e, ids, q8s);
            f.dom == e.dom && f.epoch == e.epoch && f.scope == e.scope && f.seg == e.seg
    decreases |ids|
  {
    if ids != [] && q8s != [] { ObserveKeepsStamp(p, Observe(p, e, ids[0], q8s[0]), ids[1..], q8s[1..]); }
  }

  /** The stamp an entry carries is its own counter's value at its last stamping. */
  ghost predicate StampedAt(p: StoreParams, ops: seq<HotOp>, key: Context)
    requires key in HotRun(p, ops).table.m
  {
    var e := HotRun(p, ops).table.m[key];
    var k := LastStamp(p, ops, key);
    && k <= |ops|
    && e.scope == key.scope
    && e.epoch == if e.dom == 0 then 0 else Bumps(ops[..k], e.scope, e.dom) % EPOCHS
  }

  lemma TouchedEntry(p: StoreParams, h: Hot<Context>, t: Touch<Context>, key: Context)
    requires key in ApplyTouch(p, h, t).table.m
    ensures key != t.key ==> key in h.table.m && ApplyTouch(p, h, t).table.m[key] == h.table.m[key]
    ensures key == t.key ==>
              ApplyTouch(p, h, t).table.m[key] ==
              Observed(p.entry, GetOrCreate(p, h, key, t.seg, t.dom, t.scope).table.m[key], t.obs)
  {
    hide Observed;
  }

  lemma {:induction false} CompactedEntry<K(!new)>(p: Params, h: Hot<K>, keys: seq<K>, key: K)
    ensures key in CompactFrom(p, h, keys).m ==>
              && key in keys && key in h.table.m && h.IsFresh(h.table.m[key])
              && CompactFrom(p, h, keys).m[key] == Decayed(p, h.table.m[key])
              && Decayed(p, h.table.m[key]).cands != map[]
  {
    hide Decayed;
    if keys != [] {
      CompactedEntry(p, h, keys[..|keys| - 1], key);
      assert keys == keys[..|keys| - 1] + [keys[|keys| - 1]];
    }
  }

  lemma {:induction false} AllStamped(p: StoreParams, ops: seq<HotOp>, key: Context)
    requires Scoped(ops) && key in HotRun(p, ops).table.m
    ensures StampedAt(p, ops, key)
  {
    hide Observed, Decayed, Bumps;
    var before, op := ops[..|ops| - 1], ops[|ops| - 1];
    var h := HotRun(p, before);
    LastStampInRange(p, before, key);
    assert ops[..LastStamp(p, before, key)] == before[..LastStamp(p, before, key)];
    match op
    case DoBump(scope, file) =>
      AllStamped(p, before, key);
    case DoCompact =>
      CompactedEntry(p.entry, h, h.table.keys, key);
      AllStamped(p, before, key);
      DecayedKeepsStamp(p.entry, h.table.m[key]);
    case DoTouch(t) =>
      TouchedEntry(p, h, t, key);
      if key != t.key || !Stamps(h, t) {
        AllStamped(p, before, key);
        if key == t.key { ObservedKeepsStamp(p.entry, h.table.m[key], t.obs); }
      } else {
        if key in h.table.m { AllStamped(p, before, key); }
        NewStamp(p, ops, key);
      }
  }

  lemma DecayedKeepsStamp(p: Params, e: Entry)
    ensures Decayed(p, e).dom == e.dom && Decayed(p, e).epoch == e.epoch && Decayed(p, e).scope == e.scope
  {
  }

  lemma NewStamp(p: StoreParams, ops: seq<HotOp>, key: Context)
    requires Scoped(ops) && ops != [] && key in HotRun(p, ops).table.m
    requires ops[|ops| - 1].DoTouch? && ops[|ops| - 1].t.key == key
    requires Stamps(HotRun(p, ops[..|ops| - 1]), ops[|ops| - 1].t)
    requires key in HotRun(p, ops[..|ops| - 1]).table.m ==> HotRun(p, ops[..|ops| - 1]).table.m[key].scope == key.scope
    ensures StampedAt(p, ops, key)
  {
    hide Observed;
    var before, t := ops[..|ops| - 1], ops[|ops| - 1].t;
    var h := HotRun(p, before);
    TouchedEntry(p, h, t, key);
    var g := GetOrCreate(p, h, key, t.seg, t.dom, t.scope).table.m[key];
    ObservedKeepsStamp(p.entry, g, t.obs);
    EpochIsBumps(p, before, t.scope, t.dom);
    assert ops[..|ops|] == ops;
    assert Bumps(ops, key.scope, t.dom) == Bumps(before, key.scope, t.dom);
  }

  lemma {:induction false} BumpsSplit(ops: seq<HotOp>, k: nat, scope: Word, file: int)
    requires k <= |ops|
    ensures Bumps(ops, scope, file) == Bumps(ops[..k], scope, file) + Bumps(ops[k..], scope, file)
  {
    if k == |ops| {
      assert ops[..k] == ops && ops[k..] == [];
    } else {
      BumpsSplit(ops[..|ops| - 1], k, scope, file);
      assert ops[..|ops| - 1][..k] == ops[..k];
      assert ops[k..][..|ops| - k - 1] == ops[..|ops| - 1][k..];
    }
  }

  lemma StampSays(p: StoreParams, ops: seq<HotOp>, key: Context)
    requires key in HotRun(p, ops).table.m && StampedAt(p, ops, key)
    ensures LastStamp(p, ops, key) <= |ops|
    ensures var e := HotRun(p, ops).table.m[key];
            e.scope == key.scope &&
            e.epoch == if e.dom == 0 then 0 else Bumps(ops[..LastStamp(p, ops, key)], e.scope, e.dom) % EPOCHS
  {
  }

  lemma SameRemainder(a: nat, b: nat)
    ensures (a + b) % EPOCHS == a % EPOCHS <==> b % EPOCHS == 0
  {
  }

  /** An entry passes the epoch check exactly when it belongs to no file, or its own file was bumped in its own scope
      a multiple of 65536 times since its last stamp. Bumps of other files or scopes never matter. */
  lemma FreshIff(p: StoreParams, ops: seq<HotOp>, key: Context)
    requires Scoped(ops) && key in HotRun(p, ops).table.m
    ensures LastStamp(p, ops, key) <= |ops|
    ensures var e := HotRun(p, ops).table.m[key];
            HotRun(p, ops).IsFresh(e) <==>
              e.dom == 0 || Bumps(ops[LastStamp(p, ops, key)..], key.scope, e.dom) % EPOCHS == 0
  {
    hide Bumps, HotRun, LastStamp, StampedAt, Scoped;
    AllStamped(p, ops, key);
    StampSays(p, ops, key);
    var e, k := HotRun(p, ops).table.m[key], LastStamp(p, ops, key);
    EpochIsBumps(p, ops, e.scope, e.dom);
    BumpsSplit(ops, k, e.scope, e.dom);
    SameRemainder(Bumps(ops[..k], e.scope, e.dom), Bumps(ops[k..], e.scope, e.dom));
  }

  /** A written entry is fresh, and belongs to the file it was observed in last. */
  lemma WrittenIsFresh(p: StoreParams, ops: seq<HotOp>, t: Touch<Context>)
    requires Scoped(ops) && t.key.scope == t.scope
    ensures var h := HotRun(p, ops + [DoTouch(t)]);
            t.key in h.table.m && h.IsFresh(h.table.m[t.key]) && (t.dom != 0 ==> h.table.m[t.key].dom == t.dom)
  {
    hide Observed, HotRun;
    var h := HotRun(p, ops);
    OneMore(p, ops, DoTouch(t));
    TouchKeepsEpochs(p, h, t);
    TouchedEntry(p, h, t, t.key);
    ObservedKeepsStamp(p.entry, GetOrCreate(p, h, t.key, t.seg, t.dom, t.scope).table.m[t.key], t.obs);
    if t.key in h.table.m {
      AllStamped(p, ops, t.key);
      StampSays(p, ops, t.key);
    }
  }

  /** A token this observation speaks about. */
  predicate SpokenOf(o: Observation, tok: int) {
    tok == o.realized || o.rejected == Some(tok) || (o.topk.Some? && tok in o.topk.value.0)
  }

  /** A write to a stale entry first discards everything it held: only this observation's tokens remain, and nothing but
      the realized one has an accepted count. */
  lemma StaleWriteStartsOver<K(!new)>(p: StoreParams, h: Hot<K>, t: Touch<K>, tok: int)
    requires t.key in h.table.m && !h.IsFresh(h.table.m[t.key])
    requires tok in ApplyTouch(p, h, t).table.m[t.key].cands
    ensures SpokenOf(t.obs, tok)
    ensures ApplyTouch(p, h, t).table.m[t.key].cands[tok].acc <= if tok == t.obs.realized then 1 else 0
  {
    hide Realized, Rejected, Merged;
    var e := ResetEntry(h.table.m[t.key], h.EpochNow(t.scope, t.dom), t.dom);
    assert GetOrCreate(p, h, t.key, t.seg, t.dom, t.scope).table.m[t.key] == e;
    OnlyNewTokens(p.entry, e, t.obs.realized);
    var e1 := Realized(p.entry, e, t.obs.realized);
    if t.obs.rejected.Some? { OnlyNewTokens(p.entry, e1, t.obs.rejected.value); }
    var e2 := if t.obs.rejected.Some? then Rejected(p.entry, e1, t.obs.rejected.value) else e1;
    if t.obs.topk.Some? { MergedTokens(p.entry, e2, t.obs.topk.value.0, t.obs.topk.value.1, tok); }
  }

  lemma OnlyNewTokens(p: Params, e: Entry, tok: int)
    ensures forall u :: u in Realized(p, e, tok).cands || u in Rejected(p, e, tok).cands ==> u in e.cands || u == tok
    ensures forall u :: u in Realized(p, e, tok).cands ==>
              Realized(p, e, tok).cands[u].acc <=
              (if u in e.cands then e.cands[u].acc else 0) + if u == tok then 1 else 0
    ensures forall u :: u in Rejected(p, e, tok).cands ==>
              Rejected(p, e, tok).cands[u].acc <= (if u in e.cands then e.cands[u].acc else 0)
  {
    assert forall u :: u in WithoutWeakest(e.cands) ==> u in e.cands && WithoutWeakest(e.cands)[u] == e.cands[u];
  }

  lemma MergedTokens(p: Params, e: Entry, ids: seq<int>, q8s: seq<int>, tok: int)
    requires tok in Merged(p, e, ids, q8s).cands
    ensures tok in e.cands || tok in ids
    ensures Merged(p, e, ids, q8s).cands[tok].acc == if tok in e.cands then e.cands[tok].acc else 0
  {
    if tok in e.cands {
      MergeKeepsCounts(p, e, ids, q8s, tok);
    } else {
      var cov := 0.75 * e.cov + 0.25 * (Covered(e.cands, ids) as real / |ids| as real);
      var f := e.(cov := cov, cands := FadeOthers(e.cands, ids));
      ObservedTokens(p, f, ids, q8s, tok);
      ObservedNewcomers(p, f, ids, q8s, tok);
    }
  }

  lemma {:induction false} ObservedTokens(p: Params, e: Entry, ids: seq<int>, q8s: seq<int>, tok: int)
    requires tok in ObserveAll(p, e, ids, q8s).cands
    ensures tok in e.cands || tok in ids
    decreases |ids|
  {
    if ids != [] && q8s != [] && tok !in e.cands {
      if tok in Observe(p, e, ids[0], q8s[0]).cands {
        assert ids[0] in ids;
      } else {
        ObservedTokens(p, Observe(p, e, ids[0], q8s[0]), ids[1..], q8s[1..], tok);
      }
    }
  }

  // ---------------------------------------------------------------- the store's runs are such runs

  ghost function Touching(ts: seq<Touch<Context>>): seq<HotOp> {
    seq(|ts|, i requires 0 <= i < |ts| => DoTouch(ts[i]))
  }

  ghost function EventsTrace(p: StoreParams, evs: seq<Event>): seq<HotOp>
    requires WellFormedQueue(evs)
  {
    if evs == [] then [] else
      EventsTrace(p, evs[..|evs| - 1]) + Touching(EventTouches(p, EXACT, evs[|evs| - 1], 0))
  }

  ghost function StepTrace(p: StoreParams, st: Store<Context>, op: Op): seq<HotOp>
    requires WellFormedQueue(st.queue)
  {
    match op
    case Offer(_) => []
    case Drain(limit) =>
      var n := DrainCount(st.queue, limit);
      EventsTrace(p, st.queue[..n]) +
      if p.compactEvery > 0 && n > 0 && st.sinceCompact + n >= p.compactEvery then [DoCompact] else []
    case Bump(scope, file) => [DoBump(scope, file)]
    case Compact => [DoCompact]
  }

  ghost function Trace(p: StoreParams, ops: seq<Op>): seq<HotOp>
    requires WellFormedOps(ops)
  {
    if ops == [] then [] else
      Trace(p, ops[..|ops| - 1]) + StepTrace(p, Run(p, EXACT, ops[..|ops| - 1]), ops[|ops| - 1])
  }

  lemma {:induction false} TouchesTrace(p: StoreParams, before: seq<HotOp>, ts: seq<Touch<Context>>)
    ensures HotRun(p, before + Touching(ts)) == ApplyTouches(p, HotRun(p, before), ts)
    decreases |ts|
  {
    hide ApplyTouch;
    if ts == [] {
      assert before + Touching(ts) == before;
    } else {
      var next := before + [DoTouch(ts[0])];
      assert next[..|next| - 1] == before;
      assert before + Touching(ts) == next + Touching(ts[1..]);
      TouchesTrace(p, next, ts[1..]);
    }
  }

  lemma {:induction false} EventsTraceIsRun(p: StoreParams, before: seq<HotOp>, evs: seq<Event>)
    requires WellFormedQueue(evs)
    ensures HotRun(p, before + EventsTrace(p, evs)) == ApplyEvents(p, EXACT, HotRun(p, before), evs)
  {
    hide HotRun, EventTouches;
    if evs == [] {
      assert before + EventsTrace(p, evs) == before;
    } else {
      var rest, ts := evs[..|evs| - 1], EventTouches(p, EXACT, evs[|evs| - 1], 0);
      EventsTraceIsRun(p, before, rest);
      TouchesTrace(p, before + EventsTrace(p, rest), ts);
      assert before + EventsTrace(p, evs) == before + EventsTrace(p, rest) + Touching(ts);
    }
  }

  lemma OneMore(p: StoreParams, before: seq<HotOp>, op: HotOp)
    ensures HotRun(p, before + [op]) == HotStep(p, HotRun(p, before), op)
  {
    assert (before + [op])[..|before|] == before;
  }

  /** What the store does to its table is the trace of single observations, bumps and compactions. */
  lemma {:induction false} TraceIsRun(p: StoreParams, ops: seq<Op>)
    requires WellFormedOps(ops)
    ensures HotRun(p, Trace(p, ops)) == Run(p, EXACT, ops).hot
  {
    hide HotRun, EventsTrace;
    if ops != [] {
      var st, op, t := Run(p, EXACT, ops[..|ops| - 1]), ops[|ops| - 1], Trace(p, ops[..|ops| - 1]);
      TraceIsRun(p, ops[..|ops| - 1]);
      match op
      case Offer(_) =>
        assert t + [] == t;
      case Drain(limit) =>
        var n := DrainCount(st.queue, limit);
        EventsTraceIsRun(p, t, st.queue[..n]);
        var u := t + EventsTrace(p, st.queue[..n]);
        OneMore(p, u, DoCompact);
        assert Trace(p, ops) == if p.compactEvery > 0 && n > 0 && st.sinceCompact + n >= p.compactEvery
                                then u + [DoCompact] else u;
      case Bump(scope, file) =>
        OneMore(p, t, DoBump(scope, file));
      case Compact =>
        OneMore(p, t, DoCompact);
    } else {
      NoTrace(p);
    }
  }

  lemma NoTrace(p: StoreParams)
    ensures HotRun(p, []) == EmptyHot()
  {
  }

  ghost predicate ScopedTouches(ts: seq<Touch<Context>>) {
    forall i :: 0 <= i < |ts| ==> ts[i].key.scope == ts[i].scope
  }

  lemma {:induction false} DepthScoped(p: StoreParams, s: Site, o: Observation, order: nat, depth: nat)
    ensures ScopedTouches(DepthTouches(p, EXACT, s, o, order, depth))
    decreases |s.scopes| - depth
  {
    if depth < |s.scopes| { DepthScoped(p, s, o, order, depth + 1); }
  }

  lemma {:induction false} OrderScoped(p: StoreParams, s: Site, o: Observation, order: nat)
    ensures ScopedTouches(OrderTouches(p, EXACT, s, o, order))
    decreases Signatures.MAX_ORDER + 1 - order
  {
    if order <= Signatures.MAX_ORDER && order <= |s.before| {
      OrderScoped(p, s, o, order + 1);
      DepthScoped(p, s, o, order, 0);
    }
  }

  lemma {:induction false} EventScoped(p: StoreParams, ev: Event, pos: nat)
    requires ev.WellFormed() && pos <= |ev.Realized()|
    ensures ScopedTouches(EventTouches(p, EXACT, ev, pos))
    decreases |ev.Realized()| - pos
  {
    hide OrderTouches, SiteAt, ObservationAt;
    if pos < |ev.Realized()| {
      EventScoped(p, ev, pos + 1);
      OrderScoped(p, SiteAt(ev, pos), ObservationAt(ev, pos), 2);
    }
  }

  lemma {:induction false} EventsScoped(p: StoreParams, evs: seq<Event>)
    requires WellFormedQueue(evs)
    ensures Scoped(EventsTrace(p, evs))
  {
    hide EventTouches;
    if evs != [] {
      EventsScoped(p, evs[..|evs| - 1]);
      EventScoped(p, evs[|evs| - 1], 0);
    }
  }

  lemma {:induction false} TraceScoped(p: StoreParams, ops: seq<Op>)
    requires WellFormedOps(ops)
    ensures Scoped(Trace(p, ops))
  {
    hide EventsTrace;
    if ops != [] {
      TraceScoped(p, ops[..|ops| - 1]);
      var st := Run(p, EXACT, ops[..|ops| - 1]);
      if ops[|ops| - 1].Drain? { EventsScoped(p, st.queue[..DrainCount(st.queue, ops[|ops| - 1].limit)]); }
    }
  }

  /** The same on the table keyed by contexts, over any run of harvest, drain, bumps and compactions. */
  lemma ExactFreshIff(p: StoreParams, ops: seq<Op>, key: Context)
    requires WellFormedOps(ops) && key in Run(p, EXACT, ops).hot.table.m
    ensures LastStamp(p, Trace(p, ops), key) <= |Trace(p, ops)|
    ensures var h := Run(p, EXACT, ops).hot;
            var e := h.table.m[key];
            h.IsFresh(e) <==>
            e.dom == 0 || Bumps(Trace(p, ops)[LastStamp(p, Trace(p, ops), key)..], key.scope, e.dom) % EPOCHS == 0
  {
    hide Run, Trace, Bumps, LastStamp;
    TraceIsRun(p, ops);
    TraceScoped(p, ops);
    FreshIff(p, Trace(p, ops), key);
  }

  /** And on the hashed table, for every entry it holds: what a key stands for is a context, if keys do not collide. */
  lemma StoreFreshIff(p: StoreParams, all: iset<Context>, ops: seq<Op>, key: Word) returns (c: Context)
    requires WellFormedOps(ops) && InjectiveOn(Hash, all) && OpsIn(p, ops, all) && key in Run(p, Hash, ops).hot.table.m
    ensures c in all && key == Hash(c) && LastStamp(p, Trace(p, ops), c) <= |Trace(p, ops)|
    ensures var h := Run(p, Hash, ops).hot;
            var e := h.table.m[key];
            h.IsFresh(e) <==>
            e.dom == 0 || Bumps(Trace(p, ops)[LastStamp(p, Trace(p, ops), c)..], c.scope, e.dom) % EPOCHS == 0
  {
    hide Run, Trace, Bumps, LastStamp, InjectiveOn, Mirror, OpsIn;
    RunInLockStep(p, Hash, all, ops);
    var h, h' := Run(p, EXACT, ops).hot, Run(p, Hash, ops).hot;
    c := MirrorContext(Hash, all, h.table, h'.table, key);
    MirrorLookup(Hash, all, h.table, h'.table, c);
    ExactFreshIff(p, ops, c);
  }
}
