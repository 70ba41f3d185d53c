/** The ledger store: hashed entries, spans over a shared arena, epochs, runs and a bounded queue, all updated in place.

    `HotView`, `SpanView` and `View` give the values that the objects stand for, and every method says which function of
    the old view the new view is. `HotOk` and `SpansOk` say that different keys name different objects, that each object
    is among those this store may write to, and that each span names one whole block of the arena. Caches, candidate
    order and arena offsets are not part of any view, which is how the proofs show that they cannot matter.

    The larger operations are cut into methods that each change one thing, because a method's effect on one table has to
    be told apart from the others: an entry, its place in the table, one order of one position, one position, one event.
    The lemmas named after one more step (`OneOrder`, `OnePosition`, `OneTracked`) unfold the value-level functions by
    that step. */
module LedgerStores {
  import opened Bits
  import opened Dicts
  import opened HotEntries
  import opened Signatures
  import opened Types
  import opened HotTables
  import opened Spans
  import opened Arenas
  import opened Backoff
  import opened LockStep
  import opened SpanHistory
  import opened Ledgers
  import opened Answers
  import opened Documents

  lemma OneOrder(p: StoreParams, h: Hot<Word>, s: Site, o: Observation, order: nat)
    requires order <= MAX_ORDER && order <= |s.before|
    ensures ApplyTouches(p, h, OrderTouches(p, Hash, s, o, order)) ==
            ApplyTouches(p, if order in p.orders then ApplyTouches(p, h, DepthTouches(p, Hash, s, o, order, 0)) else h,
                         OrderTouches(p, Hash, s, o, order + 1))
  {
    hide ApplyTouches, DepthTouches;
    var rest := OrderTouches(p, Hash, s, o, order + 1);
    ApplyTouchesConcat(p, h, DepthTouches(p, Hash, s, o, order, 0), rest);
    assert [] + rest == rest;
  }

  lemma NoMoreOrders(p: StoreParams, h: Hot<Word>, s: Site, o: Observation, order: nat)
    requires order > MAX_ORDER || order > |s.before|
    ensures ApplyTouches(p, h, OrderTouches(p, Hash, s, o, order)) == h
  {
  }

  class LedgerStore {
    const params: StoreParams
    var hot: Dict<Word, HotEntry>
    var spans: Dict<Word, SpanEntry>
    var arena: SpanArena
    var epochs: EpochTable
    var queue: seq<Event>
    var runs: Dict<Word, OpenRun>
    var sinceCompact: nat
    var drops: nat
    var harvested: nat
    /** All hot-entry objects this store may write to. */
    ghost var entries: set<HotEntry>
    /** All span objects this store may write to. */
    ghost var spanEntries: set<SpanEntry>

    constructor (params: StoreParams)
      ensures this.params == params && fresh(arena) && Valid() && View() == EMPTY_LEDGER
      ensures entries == {} && spanEntries == {}
    {
      this.params := params;
      hot, spans, runs := EmptyDict(), EmptyDict(), EmptyDict();
      arena := new SpanArena();
      epochs, queue, sinceCompact := map[], [], 0;
      drops, harvested := 0, 0;
      entries, spanEntries := {}, {};
    }

    ghost predicate Valid()
      reads this, entries, arena, spanEntries
    {
      HotOk() && SpansOk() && RunsOk(runs) && WellFormedQueue(queue)
    }

    /** What the store stands for. */
    ghost function View(): (l: Ledger)
      requires Valid()
      reads this, entries, arena, spanEntries
      ensures l.Valid()
    {
      Ledger(Store(HotView(), queue, drops, harvested, sinceCompact), SpanStateView())
    }

    lemma Opened()
      requires Valid()
      ensures HotOk() && SpansOk() && RunsOk(runs) && WellFormedQueue(queue)
      ensures View().Valid() && HotView().epochs == epochs
      ensures View() == Ledger(Store(HotView(), queue, drops, harvested, sinceCompact), SpanState(SpanView(), runs))
      ensures SpanStateView() == SpanState(SpanView(), runs)
    {
    }

    lemma Closed()
      requires HotOk() && SpansOk() && RunsOk(runs) && WellFormedQueue(queue)
      ensures Valid() && HotView().epochs == epochs
      ensures View() == Ledger(Store(HotView(), queue, drops, harvested, sinceCompact), SpanState(SpanView(), runs))
      ensures SpanStateView() == SpanState(SpanView(), runs)
    {
    }

    // -------------------------------------------------------------- the hot table

    ghost predicate HotOk()
      reads this`hot, this`entries, entries
    {
      && hot.Valid()
      && (forall k :: k in hot.m ==> hot.m[k] in entries && hot.m[k].Valid() && hot.m[k].key == k)
      && (forall k, k' :: k in hot.m && k' in hot.m && k != k' ==> hot.m[k] != hot.m[k'])
    }

    ghost function HotView(): Hot<Word>
      requires HotOk()
      reads this`hot, this`entries, this`epochs, entries
    {
      Hot(Dict(hot.keys, map k | k in hot.m :: hot.m[k].View()), epochs)
    }

    function EpochNow(scope: Word, dom: int): nat
      reads this`epochs
    {
      if dom == 0 then 0 else if (scope, dom) in epochs then epochs[(scope, dom)] else 0
    }

    method BumpEpoch(scope: Word, file: int)
      requires HotOk()
      modifies this`epochs
      ensures HotOk() && HotView() == HotTables.BumpEpoch(old(HotView()), scope, file)
    {
      hide HotEntry.Valid, HotEntry.View, Dict.Valid;
      ghost var before := HotView();
      var now := if (scope, file) in epochs then epochs[(scope, file)] else 0;
      epochs := epochs[(scope, file) := (now + 1) % (U16_MAX + 1)];
      assert HotView().table == before.table;
    }

    method EvictOldest()
      requires HotOk()
      modifies this`hot
      ensures HotOk() && hot.m.Keys <= old(hot.m.Keys)
      ensures HotView() == old(HotView()).(table := HotTables.EvictOldest(params, old(HotView()).table))
    {
      hide HotEntry.Valid, HotEntry.View, Dict.Valid, Without;
      if params.maxEntries > 0 && |hot.keys| >= params.maxEntries {
        var oldest := hot.keys[0];
        ghost var before := HotView();
        RemoveValid(hot, oldest);
        hot := hot.Remove(oldest);
        assert HotView().table.m == before.table.m - {oldest};
      }
    }

    method Create(key: Word, seg: int, dom: int, scope: Word, now: nat) returns (e: HotEntry)
      requires HotOk() && key !in hot.m
      modifies this`hot, this`entries
      ensures HotOk() && key in hot.m && hot.m[key] == e
      ensures fresh(entries - old(entries))
      ensures HotView() == old(HotView()).(table :=
                HotTables.EvictOldest(params, old(HotView()).table)
                .Put(key, Fresh(seg, dom, scope, now, params.entry.kInit)))
    {
      hide HotTables.EvictOldest, HotOk, HotView;
      EvictOldest();
      e := new HotEntry(key, seg, dom, scope, now, params.entry.kInit);
      Insert(key, e);
    }

    /** A new object enters the table: at the end, or in place of what was under its key. */
    method Insert(key: Word, e: HotEntry)
      requires HotOk() && e !in entries && e.Valid() && e.key == key
      modifies this`hot, this`entries
      ensures HotOk() && key in hot.m && hot.m[key] == e && entries == old(entries) + {e}
      ensures HotView() == old(HotView()).(table := old(HotView()).table.Put(key, e.View()))
    {
      hide HotEntry.Valid, HotEntry.View, Dict.Valid;
      ghost var before := HotView();
      hot := hot.Put(key, e);
      entries := entries + {e};
      assert HotView().table.m == before.table.m[key := e.View()];
    }

    /** A stale entry restarts where it is written; a fresh one follows the file last observed. */
    method Revalidate(e: HotEntry, dom: int, now: nat)
      requires HotOk() && e.key in hot.m && hot.m[e.key] == e
      modifies e
      ensures HotOk() && e.Valid()
      ensures e.View() ==
                if old(e.epoch) != EpochNow(e.scopeId, old(e.dom)) then ResetEntry(old(e.View()), now, dom)
                else if dom != 0 && old(e.dom) != dom then old(e.View()).(dom := dom, epoch := now)
                else old(e.View())
    {
      if e.epoch != EpochNow(e.scopeId, e.dom) {
        e.Reset(now, dom);
      } else if dom != 0 && e.dom != dom {
        e.dom := dom;
        e.epoch := now;
      }
    }

    method GetOrCreate(key: Word, seg: int, dom: int, scope: Word) returns (e: HotEntry)
      requires HotOk()
      modifies this`hot, this`entries, entries
      ensures HotOk() && key in hot.m && hot.m[key] == e
      ensures fresh(entries - old(entries))
      ensures HotView() == HotTables.GetOrCreate(params, old(HotView()), key, seg, dom, scope)
    {
      hide Fresh, ResetEntry, HotEntry.Valid, Dict.Valid;
      var now := EpochNow(scope, dom);
      ghost var before := HotView();
      if key !in hot.m {
        e := Create(key, seg, dom, scope, now);
      } else {
        e := hot.m[key];
        Revalidate(e, dom, now);
        assert HotView().table.m == before.table.m[key := e.View()];
      }
    }

    method ObserveEntry(e: HotEntry, o: Observation)
      requires e.Valid()
      modifies e
      ensures e.Valid() && e.View() == Observed(params.entry, old(e.View()), o)
    {
      e.UpdateRealized(params.entry, o.realized);
      if o.rejected.Some? {
        e.UpdateRejected(params.entry, o.rejected.value);
      }
      if o.topk.Some? {
        e.MergeTopk(params.entry, o.topk.value.0, o.topk.value.1);
      }
    }

    method ObserveAt(key: Word, seg: int, dom: int, scope: Word, o: Observation)
      requires HotOk()
      modifies this`hot, this`entries, entries
      ensures HotOk() && fresh(entries - old(entries))
      ensures HotView() == ApplyTouch(params, old(HotView()), Touch(key, seg, dom, scope, o))
    {
      hide Observed, HotTables.GetOrCreate, HotEntry.Valid, HotEntry.View, Dict.Valid;
      var e := GetOrCreate(key, seg, dom, scope);
      ghost var g := HotView();
      ObserveEntry(e, o);
      assert HotView().table.m == g.table.m[key := e.View()];
    }

    /** All active tiers of one order; the best correction entry so far is the first tier of the longest order. */
    method ApplyOrder(sig: Word, order: nat, s: Site, o: Observation, patch: Patch) returns (patch': Patch)
      requires HotOk() && 2 <= order <= MAX_ORDER && order <= |s.before| && order in params.orders
      requires sig == StackOf(s.before)[order - 2]
      requires o.rejected.Some? ==> patch.order < order
      modifies this`hot, this`entries, entries
      ensures HotOk() && fresh(entries - old(entries))
      ensures HotView() == ApplyTouches(params, old(HotView()), DepthTouches(params, Hash, s, o, order, 0))
      ensures o.rejected.None? ==> patch' == patch
      ensures o.rejected.Some? ==> patch'.order <= order
      ensures o.rejected.Some? ==>
                patch'.key ==
                (if PatchDepth(params, s, order, 0).Some? then PatchDepth(params, s, order, 0).value else patch.key)
    {
      hide Mix, OrderSalt, SegSalt, XorWord, Hash, ApplyTouch, StackOf, HotOk, HotView;
      var sigO := XorWord(sig, OrderSalt(order));
      patch' := patch;
      var depth: nat := 0;
      while depth < |s.scopes|
        invariant 0 <= depth <= |s.scopes|
        invariant HotOk() && fresh(entries - old(entries))
        invariant ApplyTouches(params, HotView(), DepthTouches(params, Hash, s, o, order, depth))
               == ApplyTouches(params, old(HotView()), DepthTouches(params, Hash, s, o, order, 0))
        invariant o.rejected.None? ==> patch' == patch
        invariant o.rejected.Some? ==>
                    || (patch' == patch && PatchDepth(params, s, order, 0) == PatchDepth(params, s, order, depth))
                    || (patch'.order == order && patch'.depth < depth &&
                        PatchDepth(params, s, order, 0) == Some(patch'.key))
        decreases |s.scopes| - depth
      {
        ghost var rest := DepthTouches(params, Hash, s, o, order, depth + 1);
        assert [] + rest == rest;
        if depth in params.scopeDepths {
          ghost var t := Touch(Hash(ContextAt(s, order, depth)), s.seg, s.dom, s.scopes[depth], o);
          assert ([t] + rest)[1..] == rest;
          SiteKey(s, order, depth);
          var key := Mix(XorWord(XorWord(sigO, s.scopes[depth]), SegSalt(s.seg)));
          assert key == Hash(ContextAt(s, order, depth));
          ObserveAt(key, s.seg, s.dom, s.scopes[depth], o);
          if o.rejected.Some? && patch'.Beaten(order, depth) {
            patch' := Patch(order, depth, key);
          }
        }
        depth := depth + 1;
      }
    }

    /** One realized position: every active order and tier of the context before it. */
    method ApplySite(sigs: seq<Word>, s: Site, o: Observation, patch: Patch) returns (patch': Patch)
      requires HotOk() && sigs == StackOf(s.before)
      requires o.rejected.Some? ==> patch == NO_PATCH
      modifies this`hot, this`entries, entries
      ensures HotOk() && fresh(entries - old(entries))
      ensures HotView() == ApplyTouches(params, old(HotView()), SiteTouches(params, Hash, s, o))
      ensures o.rejected.None? ==> patch' == patch
      ensures o.rejected.Some? ==>
                patch'.key == PatchOrder(params, s, if |s.before| < MAX_ORDER then |s.before| else MAX_ORDER)
    {
      hide Hash, ApplyTouches, OrderTouches, PatchDepth, HotOk, HotView, SigOf;
      patch' := patch;
      var order := MIN_ORDER;
      while order - MIN_ORDER < |sigs|
        invariant MIN_ORDER <= order <= MAX_ORDER + 1 && (order <= |s.before| + 1 || order == MIN_ORDER)
        invariant HotOk() && fresh(entries - old(entries))
        invariant ApplyTouches(params, HotView(), OrderTouches(params, Hash, s, o, order))
               == ApplyTouches(params, old(HotView()), SiteTouches(params, Hash, s, o))
        invariant o.rejected.None? ==> patch' == patch
        invariant o.rejected.Some? ==> patch'.order < order
        invariant o.rejected.Some? ==>
                    patch'.key == PatchOrder(params, s, if order - 1 <= |s.before| then order - 1 else |s.before|)
        decreases MAX_ORDER + 1 - order
      {
        OneOrder(params, HotView(), s, o, order);
        if order in params.orders {
          patch' := ApplyOrder(sigs[order - MIN_ORDER], order, s, o, patch');
        }
        order := order + 1;
      }
      NoMoreOrders(params, HotView(), s, o, order);
    }

    // -------------------------------------------------------------- spans

    /** The entry names one whole, non-empty block, and its breaks lie inside it. */
    ghost predicate SpanEntryOk(s: SpanEntry)
      reads s, arena, this`arena
    {
      && s.length >= 1 && s.arenaOff + s.length <= |arena.tokens|
      && IsBlock(arena.blocks, s.arenaOff, arena.Get(s.arenaOff, s.length))
      && forall b :: b in s.breaks ==> b < s.length
    }

    ghost predicate SpansOk()
      reads this`spans, this`arena, this`spanEntries, arena, spanEntries
    {
      && arena.Valid() && spans.Valid()
      && (forall k :: k in spans.m ==> spans.m[k] in spanEntries && spans.m[k].key == k && SpanEntryOk(spans.m[k]))
      && (forall k, k' :: k in spans.m && k' in spans.m && k != k' ==> spans.m[k] != spans.m[k'])
    }

    ghost function SpanOf(s: SpanEntry): Span
      reads s, arena, this`arena
    {
      Span(arena.Get(s.arenaOff, s.length), s.scopeId, s.seg, s.dom, s.epoch, s.count, s.breaks)
    }

    ghost function SpanView(): map<Word, Span>
      requires SpansOk()
      reads this`spans, this`arena, this`spanEntries, arena, spanEntries
    {
      map k | k in spans.m :: SpanOf(spans.m[k])
    }

    ghost function SpanStateView(): SpanState
      requires SpansOk()
      reads this`spans, this`arena, this`spanEntries, this`runs, arena, spanEntries
    {
      SpanState(SpanView(), runs)
    }

    /** Nothing but compaction and loading ever takes a span object out of the table. */
    ghost predicate Keeps(before: map<Word, SpanEntry>)
      reads this`spans
    {
      forall k :: k in before ==> k in spans.m && spans.m[k] == before[k]
    }

    method FirstDifference(a: seq<int>, b: seq<int>) returns (d: nat)
      ensures d == Divergence(a, b)
    {
      d := 0;
      while d < |a| && d < |b| && a[d] == b[d]
        invariant d <= |a| && d <= |b|
        invariant Divergence(a, b) == d + Divergence(a[d..], b[d..])
      {
        assert a[d..][1..] == a[d + 1..] && b[d..][1..] == b[d + 1..];
        d := d + 1;
      }
    }

    method RestartIfStale(s: SpanEntry, run: OpenRun, scope: Word)
      requires SpanEntryOk(s)
      modifies s`breaks, s`epoch, s`dom, s`count
      ensures SpanEntryOk(s) && SpanOf(s) == Restarted(epochs, old(SpanOf(s)), run, scope)
    {
      hide IsBlock, Flatten, Slice;
      if s.epoch != EpochNow(s.scopeId, s.dom) {
        s.breaks := map[];
        s.epoch := EpochNow(scope, run.dom);
        s.dom := run.dom;
        s.count := 0;
      }
    }

    /** Replaces the body by the block at `off` unless it is shorter; the same block keeps every break. */
    method Rebody(s: SpanEntry, toks: seq<int>, off: nat)
      requires arena.Valid() && SpanEntryOk(s) && toks != [] && IsBlock(arena.blocks, off, toks)
      modifies s`breaks, s`arenaOff, s`length
      ensures SpanEntryOk(s) && SpanOf(s) == Rebodied(old(SpanOf(s)), toks)
    {
      hide IsBlock, Flatten, Slice, KeepBelow, Divergence;
      BlockSlice(arena.blocks, off, toks);
      ghost var before := SpanOf(s);
      var body := arena.Get(s.arenaOff, s.length);
      SliceLength(arena.tokens, s.arenaOff, s.length);
      DivergenceIsPrefix(body, toks);
      if |toks| >= s.length {
        if s.arenaOff != off {
          var d := FirstDifference(body, toks);
          KeptBelow(s.breaks, d);
          s.breaks := KeepBelow(s.breaks, d);
        } else {
          SameStart(arena.blocks, off, body, toks);
          SameBodyKeepsBreaks(before, toks);
        }
        s.arenaOff, s.length := off, |toks|;
      }
    }

    /** Updates an existing span from a run whose body is the block at `off`. */
    method ReviseEntry(s: SpanEntry, run: OpenRun, off: nat, scope: Word)
      requires arena.Valid() && SpanEntryOk(s)
      requires run.toks != [] && IsBlock(arena.blocks, off, run.toks)
      modifies s
      ensures SpanEntryOk(s) && SpanOf(s) == Revised(epochs, old(SpanOf(s)), run, scope)
    {
      hide IsBlock, Flatten, Restarted, Rebodied, Slice;
      RestartIfStale(s, run, scope);
      Rebody(s, run.toks, off);
      s.count := s.count + 1;
    }

    method InsertSpan(key: Word, s: SpanEntry)
      requires SpansOk() && s !in spanEntries && SpanEntryOk(s) && s.key == key
      modifies this`spans, this`spanEntries
      ensures SpansOk() && spanEntries == old(spanEntries) + {s}
      ensures key !in old(spans.m) ==> Keeps(old(spans.m))
      ensures SpanView() == old(SpanView())[key := SpanOf(s)]
    {
      hide SpanEntryOk, SpanOf, Dict.Valid;
      spans := spans.Put(key, s);
      spanEntries := spanEntries + {s};
    }

    /** A first observation: the block at `off`, counted once, stamped with the epoch of now. */
    method NewSpan(run: OpenRun, off: nat, key: Word, scope: Word) returns (s: SpanEntry)
      requires arena.Valid() && run.toks != [] && IsBlock(arena.blocks, off, run.toks)
      ensures fresh(s) && s.key == key && SpanEntryOk(s)
      ensures SpanOf(s) == Span(run.toks, scope, run.seg, run.dom, EpochOf(epochs, scope, run.dom), 1, map[])
    {
      hide IsBlock, Flatten, Slice;
      BlockSlice(arena.blocks, off, run.toks);
      s := new SpanEntry(key, off, |run.toks|, scope, run.seg, run.dom, EpochNow(scope, run.dom), 1, map[]);
    }

    method FlushKey(run: OpenRun, off: nat, key: Word, scope: Word)
      requires SpansOk() && run.toks != [] && IsBlock(arena.blocks, off, run.toks)
      modifies this`spans, this`spanEntries, spanEntries
      ensures SpansOk() && fresh(spanEntries - old(spanEntries)) && Keeps(old(spans.m))
      ensures SpanView() == Registered(epochs, old(SpanView()), run, key, scope)
    {
      hide IsBlock, Flatten, Revised, SpanEntryOk, SpanOf, Dict.Valid, EpochOf, Slice;
      if key !in spans.m {
        var s := NewSpan(run, off, key, scope);
        InsertSpan(key, s);
      } else {
        ReviseAt(run, off, key, scope);
      }
    }

    method ReviseAt(run: OpenRun, off: nat, key: Word, scope: Word)
      requires SpansOk() && run.toks != [] && IsBlock(arena.blocks, off, run.toks) && key in spans.m
      modifies spanEntries
      ensures SpansOk()
      ensures SpanView() == old(SpanView())[key := Revised(epochs, old(SpanView())[key], run, scope)]
    {
      hide IsBlock, Flatten, Revised, SpanEntryOk, SpanOf;
      ReviseEntry(spans.m[key], run, off, scope);
    }

    /** Puts a body into the arena; every span keeps its content. */
    method StoreBody(toks: seq<int>) returns (off: nat)
      requires SpansOk()
      modifies arena
      ensures SpansOk() && IsBlock(arena.blocks, off, toks) && SpanView() == old(SpanView())
    {
      hide IsBlock, Flatten;
      ghost var blocks := arena.blocks;
      off := arena.Add(toks);
      forall k | k in spans.m
        ensures SpanEntryOk(spans.m[k]) && SpanOf(spans.m[k]) == old(SpanOf(spans.m[k]))
      {
        var s := spans.m[k];
        BlockSlice(arena.blocks, s.arenaOff, old(arena.Get(s.arenaOff, s.length)));
      }
    }

    method RegisterTiers(run: OpenRun, off: nat, sig: Word, order: nat)
      requires SpansOk() && run.toks != [] && IsBlock(arena.blocks, off, run.toks)
      requires MIN_ORDER <= order < MIN_ORDER + |run.startSigs| && order <= MAX_ORDER
      requires sig == run.startSigs[order - MIN_ORDER]
      modifies this`spans, this`spanEntries, spanEntries
      ensures SpansOk() && fresh(spanEntries - old(spanEntries)) && Keeps(old(spans.m))
      ensures SpanView() == RegisterDepths(params, epochs, old(SpanView()), run, order, 0)
    {
      hide IsBlock, SpansOk, SpanView, Registered, SpanKey;
      for depth: nat := 0 to |run.scopes|
        invariant SpansOk() && fresh(spanEntries - old(spanEntries)) && Keeps(old(spans.m))
        invariant RegisterDepths(params, epochs, SpanView(), run, order, depth)
               == RegisterDepths(params, epochs, old(SpanView()), run, order, 0)
      {
        if depth in params.spanScopeDepths {
          var scope := run.scopes[depth];
          FlushKey(run, off, SpanKey(sig, order, scope, run.seg), scope);
        }
      }
    }

    method RegisterRun(run: OpenRun, off: nat)
      requires SpansOk() && run.toks != [] && IsBlock(arena.blocks, off, run.toks) && |run.startSigs| <= 7
      modifies this`spans, this`spanEntries, spanEntries
      ensures SpansOk() && fresh(spanEntries - old(spanEntries)) && Keeps(old(spans.m))
      ensures SpanView() == RegisterOrders(params, epochs, old(SpanView()), run, MIN_ORDER)
    {
      hide IsBlock, SpansOk, SpanView, RegisterDepths;
      for i: nat := 0 to |run.startSigs|
        invariant SpansOk() && fresh(spanEntries - old(spanEntries)) && Keeps(old(spans.m))
        invariant RegisterOrders(params, epochs, SpanView(), run, MIN_ORDER + i)
               == RegisterOrders(params, epochs, old(SpanView()), run, MIN_ORDER)
      {
        if MIN_ORDER + i in params.spanOrders {
          RegisterTiers(run, off, run.startSigs[i], MIN_ORDER + i);
        }
      }
    }

    /** Closes a session's run; a run long enough becomes a span. */
    method FlushRun(sid: Word)
      requires SpansOk() && RunsOk(runs)
      modifies this`runs, this`spans, this`spanEntries, spanEntries, arena
      ensures SpansOk() && RunsOk(runs) && fresh(spanEntries - old(spanEntries)) && Keeps(old(spans.m))
      ensures SpanStateView() == if sid in old(runs).m then FlushOne(params, epochs, old(SpanStateView()), sid)
                                 else old(SpanStateView())
    {
      hide SpansOk, SpanView, RegisterOrders, IsBlock, Dict.Valid;
      if sid !in runs.m { return; }
      var run := runs.m[sid];
      RemoveValid(runs, sid);
      runs := runs.Remove(sid);
      if |run.toks| < params.spanMinLen { return; }
      var off := StoreBody(run.toks);
      RegisterRun(run, off);
    }

    method FlushAllRuns()
      requires SpansOk() && RunsOk(runs)
      modifies this`runs, this`spans, this`spanEntries, spanEntries, arena
      ensures SpansOk() && RunsOk(runs) && fresh(spanEntries - old(spanEntries))
      ensures SpanStateView() == FlushAll(params, epochs, old(SpanStateView()))
    {
      hide SpansOk, SpanView, Flushed, RunsOk, Without;
      var sids := runs.keys;
      for i := 0 to |sids|
        invariant SpansOk() && RunsOk(runs) && fresh(spanEntries - old(spanEntries))
        invariant runs.keys == sids[i..]
        invariant FlushAll(params, epochs, SpanStateView()) == FlushAll(params, epochs, old(SpanStateView()))
      {
        FirstRun(runs);
        FlushRun(sids[i]);
      }
    }

    /** Appends a realized token to its session's run, closing the run first where the segment changes or it is full. */
    method TrackRun(sid: Word, sigs: seq<Word>, s: Site, tok: int)
      requires SpansOk() && RunsOk(runs) && sigs == StackOf(s.before)
      modifies this`runs, this`spans, this`spanEntries, spanEntries, arena
      ensures SpansOk() && RunsOk(runs) && fresh(spanEntries - old(spanEntries)) && Keeps(old(spans.m))
      ensures SpanStateView() == Tracked(params, epochs, old(SpanStateView()), sid, s, tok)
    {
      hide SpansOk, SpanView, Flushed, StackOf, RunsOk, Dict.Valid;
      TrackedRunsOk(params, runs, sid, s, tok);
      if sid in runs.m && (runs.m[sid].seg != s.seg || |runs.m[sid].toks| >= params.spanMaxLen) {
        FlushRun(sid);
      }
      var run := if sid in runs.m then runs.m[sid] else OpenRun(s.seg, s.dom, [], sigs, s.scopes);
      runs := runs.Put(sid, run.(toks := run.toks + [tok], dom := if s.dom != 0 then s.dom else run.dom));
    }

    // -------------------------------------------------------------- finding spans

    ghost function KeyOf(s: SpanEntry?): Option<Word> {
      if s == null then None else Some(s.key)
    }

    ghost predicate HeldIn(s: SpanEntry?, m: map<Word, SpanEntry>) {
      s != null ==> s.key in m && m[s.key] == s
    }

    ghost predicate Holds(s: SpanEntry?)
      reads this`spans
    {
      HeldIn(s, spans.m)
    }

    method BestOfTiers(sig: Word, order: nat, scopes: seq<Word>, seg: int, best: SpanEntry?) returns (best': SpanEntry?)
      requires SpansOk() && Holds(best) && order <= MAX_ORDER
      ensures Holds(best')
      ensures KeyOf(best') == FindDepths(params, epochs, SpanView(), sig, order, scopes, seg, 0, KeyOf(best))
    {
      hide SpanKey, SpansOk, SpanView, BetterSpan, Holds;
      best' := best;
      HeldInView(best);
      for depth: nat := 0 to |scopes|
        invariant Holds(best') && (KeyOf(best').Some? ==> KeyOf(best').value in SpanView())
        invariant FindDepths(params, epochs, SpanView(), sig, order, scopes, seg, depth, KeyOf(best'))
               == FindDepths(params, epochs, SpanView(), sig, order, scopes, seg, 0, KeyOf(best))
      {
        if depth in params.scopeDepths {
          best' := BetterOf(SpanKey(sig, order, scopes[depth], seg), seg, best');
        }
      }
    }

    /** The span under `key`, if it is fresh, of this segment and ranked above the best so far. */
    method BetterOf(key: Word, seg: int, best: SpanEntry?) returns (best': SpanEntry?)
      requires SpansOk() && Holds(best)
      ensures Holds(best') && KeyOf(best') == BetterSpan(epochs, SpanView(), key, seg, KeyOf(best))
    {
      hide IsBlock, Flatten, Slice, Dict.Valid;
      best' := best;
      if key in spans.m {
        var s := spans.m[key];
        SliceLength(arena.tokens, s.arenaOff, s.length);
        if best != null { SliceLength(arena.tokens, best.arenaOff, best.length); }
        if s.epoch == EpochNow(s.scopeId, s.dom) && s.seg == seg {
          if best == null || s.count > best.count
             || (s.count == best.count && (s.length > best.length || (s.length == best.length && s.key < best.key))) {
            best' := s;
          }
        }
      }
    }

    method FindSpanEntry(sigs: seq<Word>, scopes: seq<Word>, seg: int) returns (best: SpanEntry?)
      requires SpansOk()
      ensures Holds(best) && KeyOf(best) == FindSpan(params, epochs, SpanView(), sigs, scopes, seg, 0, None)
    {
      hide SpansOk, SpanView, FindDepths, Holds;
      best := null;
      NullHolds();
      var i: nat := 0;
      while i < |sigs|
        invariant 0 <= i <= |sigs| && Holds(best)
        invariant KeyOf(best).Some? ==> KeyOf(best).value in SpanView()
        invariant FindSpan(params, epochs, SpanView(), sigs, scopes, seg, i, KeyOf(best))
               == FindSpan(params, epochs, SpanView(), sigs, scopes, seg, 0, None)
      {
        if MIN_ORDER + i > MAX_ORDER { break; }
        best := BestOfTiers(sigs[i], MIN_ORDER + i, scopes, seg, best);
        i := i + 1;
      }
    }

    lemma HeldInView(s: SpanEntry?)
      requires SpansOk() && Holds(s)
      ensures KeyOf(s).Some? ==> KeyOf(s).value in SpanView()
    {
    }

    lemma NullHolds()
      ensures Holds(null)
    {
    }

    method LookupSpan(sigs: seq<Word>, scopes: seq<Word>, seg: int) returns (r: Option<SpanProposal>)
      requires SpansOk()
      ensures r == SpanAnswer(params, epochs, SpanView(), sigs, scopes, seg)
    {
      hide FindSpan, IsBlock, Flatten, Slice, Dict.Valid;
      if params.version < 2 { return None; }
      var best := FindSpanEntry(sigs, scopes, seg);
      if best == null { return None; }
      var toks := arena.Get(best.arenaOff, best.length);
      SliceLength(arena.tokens, best.arenaOff, best.length);
      var breaks := SortedBreaks(best.breaks, best.length);
      r := Some(SpanProposal(toks, breaks, best.count, best.key));
    }

    method SortedBreaks(breaks: map<nat, Break>, hi: nat) returns (l: seq<(nat, nat)>)
      ensures l == BreaksFrom(breaks, 0, hi)
    {
      l := [];
      for off: nat := 0 to hi
        invariant l + BreaksFrom(breaks, off, hi) == BreaksFrom(breaks, 0, hi)
      {
        if off in breaks {
          l := l + [(off, breaks[off].count)];
        }
      }
    }

    // -------------------------------------------------------------- applying events

    /** Counts the outcome of a draft that started where span `s` was: a break where it was rejected, or a success. */
    method CountOutcome(s: SpanEntry, ev: Event, patchKey: Word)
      requires arena.Valid() && SpanEntryOk(s) && patchKey == PatchKey(params, ev)
      modifies s
      ensures SpanEntryOk(s) && SpanOf(s) == Outcome(params, old(SpanOf(s)), ev)
    {
      hide IsBlock, Flatten, Slice, PatchKey;
      SliceLength(arena.tokens, s.arenaOff, s.length);
      var a := ev.acceptedLen;
      if a < |ev.draft| && a < s.length { Followed(s, ev); }
      if a < |ev.draft| && a < s.length && FollowedTo(s, ev) {
        var b := if a in s.breaks then s.breaks[a] else Break(0, 0);
        s.breaks := s.breaks[a := Break(b.count + 1, if patchKey != 0 then patchKey else b.patchKey)];
      } else if a == |ev.draft| {
        s.count := s.count + 1;
      }
    }

    method RecordOutcome(s: SpanEntry, ev: Event, patchKey: Word)
      requires SpansOk() && Holds(s) && patchKey == PatchKey(params, ev)
      modifies spanEntries
      ensures SpansOk() && SpanView() == old(SpanView())[s.key := Outcome(params, old(SpanView())[s.key], ev)]
    {
      hide SpanEntryOk, SpanOf, PatchKey, Outcome;
      CountOutcome(s, ev, patchKey);
    }

    method Conclude(s: SpanEntry?, ev: Event, patchKey: Word)
      requires HotOk() && SpansOk() && Holds(s) && patchKey == PatchKey(params, ev)
      modifies spanEntries, this`harvested
      ensures HotOk() && HotView() == old(HotView()) && SpansOk() && harvested == old(harvested) + 1
      ensures KeyOf(s).Some? ==> KeyOf(s).value in old(SpanStateView()).spans
      ensures SpanStateView() == if KeyOf(s).None? then old(SpanStateView()) else
                old(SpanStateView()).(spans := old(SpanStateView()).spans[KeyOf(s).value :=
                  Outcome(params, old(SpanStateView()).spans[KeyOf(s).value], ev)])
    {
      hide HotOk, HotView, SpansOk, SpanView, Outcome, PatchKey;
      HeldInView(s);
      if s != null {
        RecordOutcome(s, ev, patchKey);
      }
      harvested := harvested + 1;
    }

    lemma SameParts()
      requires SpansOk()
      ensures SpanStateView() == SpanState(SpanView(), runs)
    {
    }

    lemma StillHolds(s: SpanEntry?, before: map<Word, SpanEntry>)
      requires Keeps(before) && HeldIn(s, before)
      ensures Holds(s)
    {
    }

    /** The draft agrees with the span up to and including its rejected token. */
    predicate FollowedTo(s: SpanEntry, ev: Event): (r: bool)
      requires s.arenaOff + s.length <= |arena.tokens| && ev.acceptedLen < |ev.draft| && ev.acceptedLen < s.length
      reads this`arena, arena, s
    {
      var n := if |ev.draft| < s.length then |ev.draft| else s.length;
      SliceLength(arena.tokens, s.arenaOff, n);
      arena.Get(s.arenaOff, n)[..ev.acceptedLen + 1] == ev.draft[..ev.acceptedLen + 1]
    }

    lemma Followed(s: SpanEntry, ev: Event)
      requires s.arenaOff + s.length <= |arena.tokens| && ev.acceptedLen < |ev.draft| && ev.acceptedLen < s.length
      ensures |arena.Get(s.arenaOff, s.length)| == s.length
      ensures FollowedTo(s, ev) <==>
              arena.Get(s.arenaOff, s.length)[..ev.acceptedLen + 1] == ev.draft[..ev.acceptedLen + 1]
    {
      var n := if |ev.draft| < s.length then |ev.draft| else s.length;
      assert arena.Get(s.arenaOff, n)[..ev.acceptedLen + 1] == arena.Get(s.arenaOff, s.length)[..ev.acceptedLen + 1];
    }

    /** The signatures of the context, and the span a non-empty draft may have come from, before anything changes. */
    method Prepare(ev: Event) returns (sigs: RollingSigStack, s: SpanEntry?)
      requires SpansOk()
      ensures fresh(sigs) && fresh(sigs.sigs) && sigs.Valid() && sigs.stream == ev.ctxTail
      ensures HeldIn(s, spans.m) && KeyOf(s) == SpanAtStart(params, epochs, SpanView(), ev)
    {
      hide SpansOk, SpanView, FindSpan, StackOf, RollingSigStack.Valid;
      sigs := new RollingSigStack();
      sigs.PushMany(ev.ctxTail);
      assert sigs.stream == ev.ctxTail;
      NullHolds();
      s := null;
      if params.version >= 2 && ev.draft != [] {
        var stack := sigs.StackList();
        s := FindSpanEntry(stack, ev.scopes, if ev.seg != [] then ev.seg[0] else TEXT);
      }
    }

    /** One realized position: the hot entries of its context, then the session's run. */
    method ApplyAt(ev: Event, pos: nat, sigs: seq<Word>, patch: Patch) returns (patch': Patch)
      requires HotOk() && SpansOk() && RunsOk(runs) && ev.WellFormed() && pos < |ev.Realized()|
      requires sigs == StackOf(SiteAt(ev, pos).before)
      requires pos <= ev.acceptedLen ==> patch == NO_PATCH
      modifies this`hot, this`entries, entries, this`spans, this`spanEntries, spanEntries, this`runs, arena
      ensures HotOk() && SpansOk() && RunsOk(runs)
      ensures fresh(entries - old(entries)) && fresh(spanEntries - old(spanEntries)) && Keeps(old(spans.m))
      ensures HotView() ==
              ApplyTouches(params, old(HotView()), SiteTouches(params, Hash, SiteAt(ev, pos), ObservationAt(ev, pos)))
      ensures SpanStateView() == if params.version < 2 then old(SpanStateView()) else
                Tracked(params, epochs, old(SpanStateView()), ev.scopes[0], SiteAt(ev, pos), ev.Realized()[pos])
      ensures pos == ev.acceptedLen && pos < |ev.draft| ==> patch'.key == PatchKey(params, ev)
      ensures !(pos == ev.acceptedLen && pos < |ev.draft|) ==> patch' == patch
    {
      hide HotOk, HotView, SpansOk, SpanView, RunsOk, StackOf, SiteTouches, ApplyTouches, PatchOrder, Tracked;
      var s := Site(ev.ctxTail + ev.Realized()[..pos], ev.scopes, ev.SegAt(pos), ev.DomAt(pos));
      patch' := ApplySite(sigs, s, ObservationAt(ev, pos), patch);
      if params.version >= 2 {
        TrackRun(ev.scopes[0], sigs, s, ev.Realized()[pos]);
      }
    }

    /** The position's updates, and its token joins the context. */
    method StepAt(ev: Event, pos: nat, sigs: RollingSigStack, patch: Patch) returns (patch': Patch)
      requires HotOk() && SpansOk() && RunsOk(runs) && ev.WellFormed() && pos < |ev.Realized()|
      requires sigs.Valid() && sigs.stream == SiteAt(ev, pos).before
      requires pos <= ev.acceptedLen ==> patch == NO_PATCH
      requires pos > ev.acceptedLen ==> patch.key == PatchKey(params, ev)
      modifies this`hot, this`entries, entries, this`spans, this`spanEntries, spanEntries, this`runs, arena, sigs,
               sigs.sigs
      ensures HotOk() && SpansOk() && RunsOk(runs) && sigs.Valid() && sigs.stream == SiteAt(ev, pos + 1).before
      ensures fresh(entries - old(entries)) && fresh(spanEntries - old(spanEntries)) && Keeps(old(spans.m))
      ensures ApplyTouches(params, HotView(), EventTouches(params, Hash, ev, pos + 1))
           == ApplyTouches(params, old(HotView()), EventTouches(params, Hash, ev, pos))
      ensures params.version < 2 ==> SpanStateView() == old(SpanStateView())
      ensures params.version >= 2 ==>
                TrackedEvent(params, epochs, SpanStateView(), ev, pos + 1) ==
                TrackedEvent(params, epochs, old(SpanStateView()), ev, pos)
      ensures pos + 1 <= ev.acceptedLen ==> patch' == NO_PATCH
      ensures pos + 1 > ev.acceptedLen ==> patch'.key == PatchKey(params, ev)
    {
      hide HotOk, HotView, SpansOk, SpanView, RunsOk, StackOf, SiteTouches, ApplyTouches, PatchKey, Tracked,
           ObservationAt, EventTouches, SiteAt, RollingSigStack.Valid, TrackedEvent, Keeps;
      var stack := sigs.StackList();
      OnePosition(params, HotView(), ev, pos);
      if params.version >= 2 { OneTracked(params, epochs, SpanStateView(), ev, pos); }
      NoPatch(params, ev);
      patch' := ApplyAt(ev, pos, stack, patch);
      sigs.Push(ev.Realized()[pos]);
      SiteBefore(ev, pos + 1);
    }

    method ApplyRealized(ev: Event, sigs: RollingSigStack) returns (patchKey: Word)
      requires HotOk() && SpansOk() && RunsOk(runs) && ev.WellFormed()
      requires sigs.Valid() && sigs.stream == ev.ctxTail
      modifies this`hot, this`entries, entries, this`spans, this`spanEntries, spanEntries, this`runs, arena, sigs,
               sigs.sigs
      ensures HotOk() && SpansOk() && RunsOk(runs)
      ensures fresh(entries - old(entries)) && fresh(spanEntries - old(spanEntries)) && Keeps(old(spans.m))
      ensures HotView() == ApplyEvent(params, Hash, old(HotView()), ev)
      ensures SpanStateView() == if params.version < 2 then old(SpanStateView()) else
                TrackedEvent(params, epochs, old(SpanStateView()), ev, 0)
      ensures patchKey == PatchKey(params, ev)
    {
      hide HotOk, HotView, SpansOk, SpanView, RunsOk, StackOf, SiteTouches, ApplyTouches, PatchKey, Tracked,
           ObservationAt, EventTouches, SiteAt, RollingSigStack.Valid, TrackedEvent;
      SiteBefore(ev, 0);
      NoPatch(params, ev);
      var patch := NO_PATCH;
      var realized := ev.Realized();
      for pos := 0 to |realized|
        invariant HotOk() && SpansOk() && RunsOk(runs)
        invariant fresh(entries - old(entries)) && fresh(spanEntries - old(spanEntries)) && Keeps(old(spans.m))
        invariant sigs.Valid() && sigs.stream == SiteAt(ev, pos).before
        invariant ApplyTouches(params, HotView(), EventTouches(params, Hash, ev, pos)) ==
                  ApplyEvent(params, Hash, old(HotView()), ev)
        invariant params.version < 2 ==> SpanStateView() == old(SpanStateView())
        invariant params.version >= 2 ==>
                    TrackedEvent(params, epochs, SpanStateView(), ev, pos) ==
                    TrackedEvent(params, epochs, old(SpanStateView()), ev, 0)
        invariant pos <= ev.acceptedLen ==> patch == NO_PATCH
        invariant pos > ev.acceptedLen ==> patch.key == PatchKey(params, ev)
      {
        patch := StepAt(ev, pos, sigs, patch);
      }
      NoMorePositions(params, HotView(), ev);
      NoMoreTracked(params, epochs, SpanStateView(), ev);
      patchKey := patch.key;
    }

    method Apply(ev: Event)
      requires HotOk() && SpansOk() && RunsOk(runs) && ev.WellFormed()
      modifies this`hot, this`entries, entries, this`spans, this`spanEntries, spanEntries, this`runs, this`harvested,
               arena
      ensures HotOk() && SpansOk() && RunsOk(runs) && harvested == old(harvested) + 1
      ensures fresh(entries - old(entries)) && fresh(spanEntries - old(spanEntries))
      ensures HotView() == ApplyEvent(params, Hash, old(HotView()), ev)
      ensures SpanStateView() == AppliedSpans(params, epochs, old(SpanStateView()), ev)
    {
      hide *;
      ghost var st := SpanStateView();
      SameParts();
      var sigs, start := Prepare(ev);
      ghost var before := spans.m;
      var patchKey := ApplyRealized(ev, sigs);
      StillHolds(start, before);
      SameParts();
      AppliedSpansAre(params, epochs, st, ev, SpanStateView());
      Conclude(start, ev, patchKey);
    }

    // -------------------------------------------------------------- the queue

    /** Enqueues only: a full queue loses its oldest event, a disabled one loses everything. */
    method Harvest(events: seq<Event>)
      requires WellFormedQueue(queue) && WellFormedQueue(events)
      modifies this`queue, this`drops
      ensures WellFormedQueue(queue)
      ensures (queue, drops) == LockStep.Harvest(params, old(queue), old(drops), events)
    {
      HarvestKeeps(params, queue, drops, events);
      if params.queueCap <= 0 {
        drops := drops + |events|;
        return;
      }
      for i := 0 to |events|
        invariant LockStep.Harvest(params, queue, drops, events[i..]) ==
                  LockStep.Harvest(params, old(queue), old(drops), events)
      {
        assert events[i..][1..] == events[i + 1..];
        if |queue| >= params.queueCap {
          queue := queue[1..];
          drops := drops + 1;
        }
        queue := queue + [events[i]];
      }
    }

    // -------------------------------------------------------------- compaction

    ghost function EntriesOf(d: Dict<Word, HotEntry>): Dict<Word, Entry>
      reads set k | k in d.m :: d.m[k]
    {
      Dict(d.keys, map k | k in d.m :: d.m[k].View())
    }

    /** Halves a fresh entry's counts; a stale one is left as it is, since it goes. */
    method DecayEntry(e: HotEntry) returns (alive: bool)
      requires HotOk() && e.key in hot.m && hot.m[e.key] == e
      modifies e
      ensures HotOk()
      ensures alive <==> Survives(params.entry, old(e.epoch) == EpochNow(e.scopeId, old(e.dom)), old(e.View()))
      ensures alive ==> e.View() == Decayed(params.entry, old(e.View()))
    {
      hide HotEntry.Valid, LiveCands, Dict.Valid;
      if e.epoch != EpochNow(e.scopeId, e.dom) { return false; }
      e.Decay(params.entry);
      return e.cands.m != map[];
    }

    /** Drops stale entries, halves the others and drops those with nothing left; the order is kept. */
    method CompactHot()
      requires HotOk()
      modifies this`hot, entries
      ensures HotOk() && HotView() == Compacted(params.entry, old(HotView()))
    {
      hide HotEntry.Valid, HotEntry.View, Survives, Decayed, Dict.Valid, CompactFrom, EntriesOf, HotOk, LiveBefore;
      var keys := hot.keys;
      var live: Dict<Word, HotEntry> := EmptyDict();
      ghost var before := HotView();
      StartCompact(before, live);
      for i := 0 to |keys|
        invariant hot == old(hot) && live.Valid() && LiveBefore(live, keys, i)
        invariant HotOk()
        invariant forall j :: i <= j < |keys| ==>
                  keys[j] in before.table.m && SameEntry(hot.m[keys[j]], before.table.m[keys[j]])
        invariant EntriesOf(live) == CompactFrom(params.entry, before, keys[..i])
      {
        CompactOne(params.entry, before, keys, i);
        NotYet(live, keys, i);
        var e := hot.m[keys[i]];
        var alive := DecayEntry(e);
        if alive {
          PutEntry(live, keys[i], e);
          live := live.Put(keys[i], e);
        }
      }
      assert keys[..|keys|] == keys;
      Retain(live, keys);
    }

    /** The live entries become the table. */
    method Retain(live: Dict<Word, HotEntry>, ghost keys: seq<Word>)
      requires HotOk() && live.Valid() && LiveBefore(live, keys, |keys|)
      modifies this`hot
      ensures HotOk() && hot == live && HotView() == Hot(old(EntriesOf(live)), epochs)
    {
      hide HotEntry.Valid, HotEntry.View, Dict.Valid;
      hot := live;
    }

    ghost predicate LiveBefore(live: Dict<Word, HotEntry>, keys: seq<Word>, i: nat)
      requires i <= |keys|
      reads this`hot
    {
      && (forall j :: 0 <= j < |keys| ==> keys[j] in hot.m)
      && forall k :: k in live.m ==> k in keys[..i] && k in hot.m && live.m[k] == hot.m[k]
    }

    lemma StartCompact(before: Hot<Word>, live: Dict<Word, HotEntry>)
      requires HotOk() && before == HotView() && live == EmptyDict()
      ensures live.Valid() && LiveBefore(live, hot.keys, 0)
      ensures EntriesOf(live) == CompactFrom(params.entry, before, hot.keys[..0])
      ensures forall j :: 0 <= j < |hot.keys| ==>
              hot.keys[j] in before.table.m && SameEntry(hot.m[hot.keys[j]], before.table.m[hot.keys[j]])
    {
    }

    /** The entry at `i` is neither among the live ones nor among those still to come. */
    lemma NotYet(live: Dict<Word, HotEntry>, keys: seq<Word>, i: nat)
      requires HotOk() && i < |keys| && keys == hot.keys && LiveBefore(live, keys, i)
      ensures keys[i] in hot.m && hot.m[keys[i]].key == keys[i] && hot.m[keys[i]] in entries
      ensures LiveBefore(live, keys, i + 1) && keys[i] !in live.m
      ensures forall k :: k in live.m ==> live.m[k] != hot.m[keys[i]]
      ensures forall j :: i < j < |keys| ==> hot.m[keys[j]] != hot.m[keys[i]]
      ensures LiveBefore(live.Put(keys[i], hot.m[keys[i]]), keys, i + 1)
    {
      hide HotEntry.Valid;
      assert keys[..i + 1] == keys[..i] + [keys[i]];
    }

    lemma PutEntry(live: Dict<Word, HotEntry>, k: Word, e: HotEntry)
      requires k !in live.m
      ensures EntriesOf(live.Put(k, e)) == EntriesOf(live).Put(k, e.View())
    {
      hide HotEntry.View;
    }

    ghost predicate SameEntry(e: HotEntry, v: Entry)
      reads e
    {
      e.View() == v && e.epoch == v.epoch && e.scopeId == v.scope && e.dom == v.dom
    }

    /** Halves a fresh span's count and breaks, and forgets the breaks that reach zero. */
    method DecaySpan(s: SpanEntry) returns (alive: bool)
      requires SpansOk() && s.key in spans.m && spans.m[s.key] == s
      modifies s
      ensures SpansOk()
      ensures alive <==> FreshSpan(epochs, old(SpanOf(s))) && Shr(old(SpanOf(s)).count, params.entry.decayShift) > 0
      ensures alive ==> SpanOf(s) == old(SpanOf(s)).(count := Shr(old(SpanOf(s)).count, params.entry.decayShift),
                                                     breaks := DecayedBreaks(params.entry, old(SpanOf(s)).breaks))
    {
      hide IsBlock, Flatten, Slice, Shr, Dict.Valid;
      if s.epoch != EpochNow(s.scopeId, s.dom) { return false; }
      s.count := Shr(s.count, params.entry.decayShift);
      if s.count <= 0 { return false; }
      s.breaks := DecayedBreaks(params.entry, s.breaks);
      return true;
    }

    /** The spans of `after` under the first keys. */
    ghost function Among(after: map<Word, Span>, keys: seq<Word>): map<Word, Span> {
      map k | k in after && k in keys :: after[k]
    }

    method DecaySpans()
      requires SpansOk()
      modifies this`spans, spanEntries
      ensures SpansOk() && SpanView() == CompactedSpans(params.entry, epochs, old(SpanView()))
    {
      hide SpansOk, SpanView, SpanOf, Dict.Valid, Among, SpansIn, SpansBefore, CompactedSpans, SpanEntryOk;
      var keys := spans.keys;
      var live: Dict<Word, SpanEntry> := EmptyDict();
      ghost var before := SpanView();
      ghost var after := CompactedSpans(params.entry, epochs, before);
      StartDecay(before, live, after);
      for i := 0 to |keys|
        invariant spans == old(spans) && live.Valid() && SpansBefore(live, keys, i)
        invariant SpansOk()
        invariant forall j :: i <= j < |keys| ==>
                  keys[j] in before && keys[j] in spans.m && SpanOf(spans.m[keys[j]]) == before[keys[j]]
        invariant SpansIn(live) == Among(after, keys[..i])
      {
        AmongOne(params.entry, epochs, before, keys, i);
        SpanNotYet(live, keys, i);
        var s := spans.m[keys[i]];
        var alive := DecaySpan(s);
        if alive {
          PutSpan(live, keys[i], s);
          live := live.Put(keys[i], s);
        }
      }
      RetainSpans(live, keys);
      AllAmong(params.entry, epochs, before, keys);
    }

    ghost function SpansIn(d: Dict<Word, SpanEntry>): map<Word, Span>
      reads this`arena, arena, set k | k in d.m :: d.m[k]
    {
      map k | k in d.m :: SpanOf(d.m[k])
    }

    ghost predicate SpansBefore(live: Dict<Word, SpanEntry>, keys: seq<Word>, i: nat)
      requires i <= |keys|
      reads this`spans
    {
      && (forall j :: 0 <= j < |keys| ==> keys[j] in spans.m)
      && forall k :: k in live.m ==> k in keys[..i] && k in spans.m && live.m[k] == spans.m[k]
    }

    lemma StartDecay(before: map<Word, Span>, live: Dict<Word, SpanEntry>, after: map<Word, Span>)
      requires SpansOk() && before == SpanView() && live == EmptyDict()
      ensures live.Valid() && SpansBefore(live, spans.keys, 0) && SpansIn(live) == Among(after, spans.keys[..0])
      ensures forall j :: 0 <= j < |spans.keys| ==>
              spans.keys[j] in before && spans.keys[j] in spans.m &&
              SpanOf(spans.m[spans.keys[j]]) == before[spans.keys[j]]
      ensures forall k :: k in before ==> k in spans.keys
    {
      hide SpanOf, SpanEntryOk;
    }

    lemma SpanNotYet(live: Dict<Word, SpanEntry>, keys: seq<Word>, i: nat)
      requires SpansOk() && i < |keys| && keys == spans.keys && SpansBefore(live, keys, i)
      ensures keys[i] in spans.m && spans.m[keys[i]].key == keys[i] && spans.m[keys[i]] in spanEntries
      ensures SpansBefore(live, keys, i + 1) && keys[i] !in live.m
      ensures forall k :: k in live.m ==> live.m[k] != spans.m[keys[i]]
      ensures forall j :: i < j < |keys| ==> spans.m[keys[j]] != spans.m[keys[i]]
      ensures SpansBefore(live.Put(keys[i], spans.m[keys[i]]), keys, i + 1)
    {
      hide SpanEntryOk;
      assert keys[..i + 1] == keys[..i] + [keys[i]];
    }

    lemma PutSpan(live: Dict<Word, SpanEntry>, k: Word, s: SpanEntry)
      requires k !in live.m
      ensures SpansIn(live.Put(k, s)) == SpansIn(live)[k := SpanOf(s)]
    {
      hide SpanOf;
    }

    method RetainSpans(live: Dict<Word, SpanEntry>, ghost keys: seq<Word>)
      requires SpansOk() && live.Valid() && SpansBefore(live, keys, |keys|)
      modifies this`spans
      ensures SpansOk() && spans == live && SpanView() == old(SpansIn(live))
    {
      hide SpanEntryOk, SpanOf, Dict.Valid;
      spans := live;
    }

    lemma AmongOne(p: Params, epochs: EpochTable, before: map<Word, Span>, keys: seq<Word>, i: nat)
      requires i < |keys| && keys[i] in before
      ensures var s := before[keys[i]];
              Among(CompactedSpans(p, epochs, before), keys[..i + 1]) ==
              if FreshSpan(epochs, s) && Shr(s.count, p.decayShift) > 0
              then Among(CompactedSpans(p, epochs, before), keys[..i])[keys[i] :=
                s.(count := Shr(s.count, p.decayShift), breaks := DecayedBreaks(p, s.breaks))]
              else Among(CompactedSpans(p, epochs, before), keys[..i])
    {
      hide FreshSpan, Shr, DecayedBreaks;
      assert keys[..i + 1] == keys[..i] + [keys[i]];
    }

    lemma AllAmong(p: Params, epochs: EpochTable, before: map<Word, Span>, keys: seq<Word>)
      requires forall k :: k in before ==> k in keys
      ensures keys[..|keys|] == keys
      ensures Among(CompactedSpans(p, epochs, before), keys) == CompactedSpans(p, epochs, before)
    {
      hide FreshSpan, Shr, DecayedBreaks;
    }

    /** Rebuilds the arena from the spans that are left; none of them changes. */
    method Repack()
      requires SpansOk()
      modifies spanEntries, arena
      ensures SpansOk() && SpanView() == old(SpanView())
      ensures arena.Deduplicated() && |arena.tokens| <= old(|arena.tokens|)
      ensures forall b :: b in arena.blocks ==> IsBody(SpanView(), b)
    {
      hide SpanEntryOk, SpanOf, Dict.Valid, IsBody, SpanArena.Valid, SpanArena.Deduplicated;
      KeysAreMembers(spans);
      DistinctSpans();
      var live := seq(|spans.keys|,
                      i requires 0 <= i < |spans.keys| && spans.keys[i] in spans.m reads this`spans =>
                        spans.m[spans.keys[i]]);
      ghost var before := SpanView();
      ghost var bodies := MoveBodies(live);
      forall k | k in spans.m ensures SpanEntryOk(spans.m[k]) && SpanOf(spans.m[k]) == before[k] {
        var i :| 0 <= i < |spans.keys| && spans.keys[i] == k;
        assert live[i] == spans.m[k];
      }
      assert SpanView() == before;
      AllBodied(before, spans.keys, bodies, arena.blocks);
    }

    method MoveBodies(live: seq<SpanEntry>) returns (ghost bodies: seq<seq<int>>)
      requires arena.Valid() && forall i :: 0 <= i < |live| ==> SpanEntryOk(live[i])
      requires forall i, j :: 0 <= i < j < |live| ==> live[i] != live[j]
      modifies live, arena
      ensures arena.Valid() && arena.Deduplicated() && |arena.tokens| <= old(|arena.tokens|)
      ensures forall i :: 0 <= i < |live| ==> SpanEntryOk(live[i]) && SpanOf(live[i]) == old(SpanOf(live[i]))
      ensures |bodies| == |live| && forall i :: 0 <= i < |live| ==> bodies[i] == old(SpanOf(live[i])).toks
      ensures forall b :: b in arena.blocks ==> b in bodies
    {
      hide IsBlock, Flatten, Slice;
      forall i | 0 <= i < |live| ensures |arena.Get(live[i].arenaOff, live[i].length)| == live[i].length {
        SliceLength(arena.tokens, live[i].arenaOff, live[i].length);
      }
      bodies := seq(|live|,
                    i requires 0 <= i < |live| reads this`arena, arena, live =>
                      arena.Get(live[i].arenaOff, live[i].length));
      arena.Compact(live);
      forall i | 0 <= i < |live| ensures SpanEntryOk(live[i]) && SpanOf(live[i]) == old(SpanOf(live[i])) {
        BlockSlice(arena.blocks, live[i].arenaOff, old(arena.Get(live[i].arenaOff, live[i].length)));
      }
      forall b | b in arena.blocks ensures b in bodies {
        var i :| 0 <= i < |live| && b == old(arena.Get(live[i].arenaOff, live[i].length));
        assert b == bodies[i];
      }
    }

    /** Different keys name different objects. */
    lemma DistinctSpans()
      requires SpansOk()
      ensures forall i, j :: 0 <= i < j < |spans.keys| ==>
                spans.keys[i] in spans.m && spans.keys[j] in spans.m && spans.m[spans.keys[i]] != spans.m[spans.keys[j]]
    {
      hide SpanEntryOk;
    }

    /** Compaction: what is left is live, and each distinct body of a live span is stored exactly once. */
    method CompactStore()
      requires Valid()
      modifies this`hot, entries, this`spans, spanEntries, arena
      ensures arena.Deduplicated() && |arena.tokens| <= old(|arena.tokens|)
      ensures SpansOk() && forall b :: b in arena.blocks ==> IsBody(SpanView(), b)
      ensures Valid() && View() == LedgerStep(params, old(View()), Table(LockStep.Compact))
      ensures HotView() == Compacted(params.entry, old(HotView()))
      ensures SpanView() == CompactedSpans(params.entry, epochs, old(SpanView()))
    {
      hide *;
      Opened();
      CompactStep(params, View());
      CompactHot();
      DecaySpans();
      Repack();
      Closed();
    }

    method DrainLoop(limit: Option<nat>) returns (n: nat)
      requires Valid()
      modifies this`hot, this`entries, entries, this`spans, this`spanEntries, spanEntries, this`runs, this`harvested,
               this`queue, arena
      ensures Valid() && fresh(entries - old(entries)) && fresh(spanEntries - old(spanEntries))
      ensures n == DrainCount(old(queue), limit) && queue == old(queue)[n..] && harvested == old(harvested) + n
      ensures HotView() == ApplyEvents(params, Hash, old(HotView()), old(queue)[..n])
      ensures SpanStateView() == AppliedAll(params, epochs, old(SpanStateView()), old(queue)[..n])
    {
      hide HotOk, HotView, SpansOk, SpanStateView, RunsOk, ApplyEvent, AppliedSpans, Event.WellFormed;
      SameParts();
      n := 0;
      while queue != [] && (limit.None? || n < limit.value)
        invariant Valid() && fresh(entries - old(entries)) && fresh(spanEntries - old(spanEntries))
        invariant n <= DrainCount(old(queue), limit) && queue == old(queue)[n..] && harvested == old(harvested) + n
        invariant HotView() == ApplyEvents(params, Hash, old(HotView()), old(queue)[..n])
        invariant SpanStateView() == AppliedAll(params, epochs, old(SpanStateView()), old(queue)[..n])
        decreases |queue|
      {
        var ev := queue[0];
        queue := queue[1..];
        assert old(queue)[..n + 1][..n] == old(queue)[..n];
        Apply(ev);
        n := n + 1;
      }
    }

    /** Applies queued events in order, and compacts when enough of them went by. */
    method Drain(limit: Option<nat>) returns (n: nat)
      requires Valid()
      modifies this, entries, spanEntries, arena
      ensures Valid() && arena == old(arena) && fresh(entries - old(entries)) && fresh(spanEntries - old(spanEntries))
      ensures n == DrainCount(old(queue), limit)
      ensures View() == LedgerStep(params, old(View()), Table(LockStep.Drain(limit)))
    {
      hide *;
      Opened();
      DrainStep(params, View(), limit);
      DueIs(params, sinceCompact, DrainCount(queue, limit));
      n := DrainLoop(limit);
      Opened();
      if n > 0 {
        sinceCompact := sinceCompact + n;
        Closed();
        if params.compactEvery > 0 && sinceCompact >= params.compactEvery {
          CompactStore();
          Opened();
          sinceCompact := 0;
        }
      }
      Closed();
    }

    // -------------------------------------------------------------- lookup

    method TierBases(scopes: seq<Word>, salt: Word) returns (bases: seq<(nat, Word)>)
      ensures bases == Bases(params, scopes, salt, 0)
    {
      hide XorWord;
      bases := [];
      for depth: nat := 0 to |scopes|
        invariant bases + Bases(params, scopes, salt, depth) == Bases(params, scopes, salt, 0)
      {
        if depth in params.scopeDepths {
          bases := bases + [(depth, XorWord(scopes[depth], salt))];
        }
      }
    }

    method Consult(e: HotEntry, order: nat, depth: nat) returns (s: Source)
      requires HotOk() && e.key in hot.m && hot.m[e.key] == e && order <= MAX_ORDER && depth < 8
      modifies e`src
      ensures HotOk() && HotView() == old(HotView())
      ensures ValidSource(s) && Presents(s, Match(order, depth, old(e.View())))
    {
      hide ValidSource, Presents, Dict.Valid, HotEntry.Valid, HotEntry.View;
      ghost var before := HotView();
      s := SourceFrom(e, order, depth);
      assert HotView().table == before.table;
    }

    method ProbeBases(sigO: Word, order: nat, bases: seq<(nat, Word)>, seg: int, sources: seq<Source>,
                      ghost found: seq<Match>)
      returns (sources': seq<Source>)
      requires HotOk() && order <= MAX_ORDER && forall j :: 0 <= j < |bases| ==> bases[j].0 < 8
      requires PresentAll(sources, found) && ValidSources(sources)
      modifies entries`src
      ensures HotOk() && HotView() == old(HotView())
      ensures ValidSources(sources') && PresentAll(sources', found + BaseMatches(HotView(), sigO, order, bases, seg))
    {
      hide HotOk, HotView, ValidSource, Presents, XorWord, Mix, Probe;
      sources' := sources;
      ghost var so := found;
      ghost var all := found + BaseMatches(HotView(), sigO, order, bases, seg);
      for j := 0 to |bases|
        invariant HotOk() && HotView() == old(HotView())
        invariant ValidSources(sources') && PresentAll(sources', so)
        invariant all == so + BaseMatches(HotView(), sigO, order, bases[j..], seg)
      {
        assert bases[j..][1..] == bases[j + 1..];
        ghost var m := Probe(HotView(), Mix(XorWord(sigO, bases[j].1)), seg);
        var e := FreshEntry(Mix(XorWord(sigO, bases[j].1)), seg);
        if e != null {
          var s := Consult(e, order, bases[j].0);
          sources' := sources' + [s];
          so := so + [Match(order, bases[j].0, m.value)];
        }
      }
    }

    /** The entry under `key`, unless it is stale or of another segment. */
    method FreshEntry(key: Word, seg: int) returns (e: HotEntry?)
      requires HotOk()
      ensures e == null <==> Probe(HotView(), key, seg).None?
      ensures e != null ==>
              e.key in hot.m && hot.m[e.key] == e && e in entries && Probe(HotView(), key, seg) == Some(e.View())
    {
      hide Dict.Valid, HotEntry.Valid;
      e := null;
      if key in hot.m {
        var h := hot.m[key];
        if h.epoch == EpochNow(h.scopeId, h.dom) && h.seg == seg {
          e := h;
        }
      }
    }

    /** Blends every fresh entry of the right segment that the signatures reach; reading changes caches only. */
    method Lookup(sigs: seq<Word>, scopes: seq<Word>, seg: int) returns (r: Option<Posterior>)
      requires HotOk() && params.Sane() && params.TiersFit(|scopes|)
      modifies entries`src
      ensures HotOk() && HotView() == old(HotView())
      ensures IsAnswer(params.backoff, SigMatches(params, HotView(), sigs, scopes, seg, 0), r)
    {
      hide *;
      OrderRange();
      NothingPresented();
      var bases := TierBases(scopes, SegSalt(seg));
      BasesInRange(params, scopes, SegSalt(seg), 0);
      var sources: seq<Source> := [];
      ghost var found: seq<Match> := [];
      ghost var all := SigMatches(params, HotView(), sigs, scopes, seg, 0);
      var i: nat := 0;
      while i < |sigs|
        invariant i <= |sigs|
        invariant HotOk() && HotView() == old(HotView())
        invariant ValidSources(sources) && PresentAll(sources, found)
        invariant all == found + SigMatches(params, HotView(), sigs, scopes, seg, i)
      {
        SigStep(params, HotView(), sigs, scopes, seg, i);
        if MIN_ORDER + i > MAX_ORDER { break; }
        if MIN_ORDER + i in params.orders {
          BaseMatchesAre(params, HotView(), sigs[i], MIN_ORDER + i, scopes, seg, 0);
          sources := ProbeBases(XorWord(sigs[i], OrderSalt(MIN_ORDER + i)), MIN_ORDER + i, bases, seg, sources, found);
          found := found + TierMatches(params, HotView(), sigs[i], MIN_ORDER + i, scopes, seg, 0);
        }
        i := i + 1;
      }
      SigStep(params, HotView(), sigs, scopes, seg, i);
      assert found == all;
      SaneBackoff(params);
      r := Blend(params.backoff, sources);
      BlendAnswers(params.backoff, sources, all, r);
    }

    // -------------------------------------------------------------- snapshots

    method WriteHot() returns (docs: seq<HotDoc>)
      requires HotOk()
      ensures ReadHot(docs) == HotView().table
    {
      hide HotEntry.Valid;
      docs := [];
      for i := 0 to |hot.keys|
        invariant |docs| == i
        invariant forall j :: 0 <= j < i ==> docs[j].key == hot.keys[j] && EntryOf(docs[j]) == hot.m[hot.keys[j]].View()
      {
        var e := hot.m[hot.keys[i]];
        docs := docs + [HotDoc(e.key, e.seg, e.dom, e.scopeId, e.epoch, e.kCap, e.covEma, e.cands.m)];
      }
      ReadBack(HotView().table, docs);
    }

    method WriteSpans() returns (docs: seq<SpanDoc>)
      requires SpansOk()
      ensures ReadSpans(arena.tokens, docs) == SpanView()
      ensures forall i :: 0 <= i < |docs| ==> SpanDocOk(arena.blocks, docs[i])
    {
      hide IsBlock, Flatten, Slice;
      docs := [];
      for i := 0 to |spans.keys|
        invariant |docs| == i
        invariant forall j :: 0 <= j < i ==>
                  docs[j].key == spans.keys[j] && SpanOfDoc(arena.tokens, docs[j]) == SpanOf(spans.m[spans.keys[j]])
        invariant forall j :: 0 <= j < i ==> SpanDocOk(arena.blocks, docs[j])
      {
        var s := spans.m[spans.keys[i]];
        docs := docs + [SpanDoc(s.key, s.arenaOff, s.length, s.scopeId, s.seg, s.dom, s.epoch, s.count, s.breaks)];
      }
      ReadSpansBack(SpanView(), spans.keys, arena.tokens, docs);
    }

    /** The durable state: tables, arena and epochs, but neither the queue nor the open runs. */
    method Snapshot() returns (doc: Document)
      requires HotOk() && SpansOk()
      ensures DocumentOk(doc, arena.blocks)
      ensures Hot(ReadHot(doc.hot), doc.epochs) == HotView() && ReadSpans(doc.arena, doc.spans) == SpanView()
    {
      hide SpanDocOk, SpanEntryOk, SpanOf, HotEntry.Valid;
      var hotDocs := WriteHot();
      var spanDocs := WriteSpans();
      doc := Document(params.version, hotDocs, spanDocs, arena.tokens, epochs);
    }

    method ReadEntry(d: HotDoc) returns (e: HotEntry)
      ensures fresh(e) && e.Valid() && e.key == d.key && e.View() == EntryOf(d)
    {
      e := new HotEntry(d.key, d.seg, d.dom, d.scopeId, d.epoch, params.entry.kInit);
      e.kCap := d.kCap;
      e.covEma := d.cov;
      var cands := InSomeOrder(d.cands);
      e.cands := cands;
    }

    method ReadHotDocs(docs: seq<HotDoc>)
      modifies this`hot, this`entries
      ensures HotOk() && fresh(entries) && HotView() == Hot(ReadHot(docs), epochs)
    {
      hide HotOk, HotView, EntryOf, HotEntry.Valid, HotEntry.View;
      hot, entries := EmptyDict(), {};
      NothingHot();
      for i := 0 to |docs|
        invariant HotOk() && fresh(entries) && HotView() == Hot(ReadHot(docs[..i]), epochs)
      {
        assert docs[..i + 1][..i] == docs[..i];
        var e := ReadEntry(docs[i]);
        Insert(docs[i].key, e);
      }
      assert docs[..|docs|] == docs;
    }

    lemma NothingHot()
      requires hot == EmptyDict() && entries == {}
      ensures HotOk() && HotView() == Hot(EmptyDict(), epochs)
    {
    }

    lemma NothingSpanned()
      requires spans == EmptyDict() && arena.Valid()
      ensures SpansOk() && SpanView() == map[]
    {
    }

    method ReadSpan(d: SpanDoc) returns (s: SpanEntry)
      requires arena.Valid() && SpanDocOk(arena.blocks, d)
      ensures fresh(s) && SpanEntryOk(s) && s.key == d.key && SpanOf(s) == SpanOfDoc(arena.tokens, d)
    {
      hide IsBlock, Flatten, Slice;
      s := new SpanEntry(d.key, d.off, d.len, d.scopeId, d.seg, d.dom, d.epoch, d.count, d.breaks);
    }

    method ReadSpanDocs(docs: seq<SpanDoc>)
      requires arena.Valid() && forall i :: 0 <= i < |docs| ==> SpanDocOk(arena.blocks, docs[i])
      modifies this`spans, this`spanEntries
      ensures SpansOk() && fresh(spanEntries) && SpanView() == ReadSpans(arena.tokens, docs)
    {
      hide SpansOk, SpanView, SpanOf, SpanEntryOk, SpanDocOk, SpanOfDoc, SpanArena.Valid;
      spans, spanEntries := EmptyDict(), {};
      NothingSpanned();
      for i := 0 to |docs|
        invariant SpansOk() && fresh(spanEntries) && SpanView() == ReadSpans(arena.tokens, docs[..i])
      {
        assert docs[..i + 1][..i] == docs[..i];
        var s := ReadSpan(docs[i]);
        InsertSpan(docs[i].key, s);
      }
      assert docs[..|docs|] == docs;
    }

    /** Reads a document back. The arena's dedup table is lost and candidates come in any order. */
    method Load(doc: Document, ghost blocks: seq<seq<int>>)
      requires DocumentOk(doc, blocks) && RunsOk(runs) && WellFormedQueue(queue)
      modifies this`hot, this`entries, this`spans, this`spanEntries, this`arena, this`epochs
      ensures Valid() && fresh(entries) && fresh(spanEntries) && fresh(arena)
      ensures HotView() == Hot(ReadHot(doc.hot), doc.epochs) && SpanView() == ReadSpans(doc.arena, doc.spans)
    {
      hide HotOk, HotView, SpansOk, SpanView, SpanDocOk, RunsOk, Flatten, WellFormedQueue, ReadHot, ReadSpans;
      arena := new SpanArena();
      arena.Load(doc.arena, blocks);
      ReadSpanDocs(doc.spans);
      epochs := doc.epochs;
      ReadHotDocs(doc.hot);
    }

    // -------------------------------------------------------------- any operation

    /** Every operation of the store does to its view what the value-level ledger does. */
    method Perform(op: LedgerOp)
      requires Valid() && OpOk(op)
      modifies this, entries, spanEntries, arena
      ensures Valid() && arena == old(arena) && fresh(entries - old(entries)) && fresh(spanEntries - old(spanEntries))
      ensures View() == LedgerStep(params, old(View()), op)
    {
      hide *;
      Opened();
      OpIs(params, View(), op);
      match op
      case FlushRuns =>
        FlushAllRuns();
        Closed();
      case Table(Offer(events)) =>
        Harvest(events);
        Closed();
      case Table(Drain(limit)) =>
        var _ := Drain(limit);
      case Table(Bump(scope, file)) =>
        BumpEpoch(scope, file);
        Closed();
      case Table(Compact) =>
        CompactStore();
    }
  }

  /** The candidates of a document in whatever order they come. */
  method InSomeOrder(m: map<int, HotEntries.Cand>) returns (d: Dict<int, HotEntries.Cand>)
    ensures d.Valid() && d.m == m
  {
    d := EmptyDict();
    EmptyValid<int, HotEntries.Cand>();
    var rest := m.Keys;
    while rest != {}
      invariant d.Valid() && rest <= m.Keys && d.m == map t | t in m && t !in rest :: m[t]
    {
      ghost var some := SomeMember(rest);
      var t :| t in rest;
      d := d.Put(t, m[t]);
      rest := rest - {t};
    }
  }

  method SourceFrom(e: HotEntry, order: nat, depth: nat) returns (s: Source)
    requires e.Valid() && order <= MAX_ORDER && depth < 8
    modifies e`src
    ensures e.Valid() && e.View() == old(e.View())
    ensures ValidSource(s) && Presents(s, Match(order, depth, e.View()))
  {
    hide ListsCands, Dict.Valid;
    ViewPresents(e.cands);
    Listed(ViewOf(e.cands).cands, e.cands.m);
    var v := e.Sources();
    s := Source(order, depth, v.cands, v.total, v.totalAcc);
  }

  lemma KeysAreMembers<V>(d: Dict<Word, V>)
    requires d.Valid()
    ensures forall j :: 0 <= j < |d.keys| ==> d.keys[j] in d.m
    ensures forall k :: k in d.m <==> k in d.keys
  {
  }

  lemma CompactOne(p: Params, h: Hot<Word>, keys: seq<Word>, i: nat)
    requires i < |keys|
    ensures CompactFrom(p, h, keys[..i + 1]) ==
            if keys[i] in h.table.m && Survives(p, h.IsFresh(h.table.m[keys[i]]), h.table.m[keys[i]])
            then CompactFrom(p, h, keys[..i]).Put(keys[i], Decayed(p, h.table.m[keys[i]]))
            else CompactFrom(p, h, keys[..i])
  {
    hide Survives, Decayed;
    assert keys[..i + 1][..i] == keys[..i];
  }

  ghost predicate IsBody(spans: map<Word, Span>, toks: seq<int>) {
    exists k :: k in spans && spans[k].toks == toks
  }

  lemma Listed(cands: seq<Backoff.Cand>, m: map<int, HotEntries.Cand>)
    requires ListsCands(cands, m)
    ensures DistinctToks(cands)
  {
  }

  lemma AllBodied(spans: map<Word, Span>, keys: seq<Word>, bodies: seq<seq<int>>, blocks: seq<seq<int>>)
    requires |keys| == |bodies| && forall i :: 0 <= i < |keys| ==> keys[i] in spans && spans[keys[i]].toks == bodies[i]
    requires forall b :: b in blocks ==> b in bodies
    ensures forall b :: b in blocks ==> IsBody(spans, b)
  {
    forall b | b in blocks ensures IsBody(spans, b) {
      var i :| 0 <= i < |bodies| && bodies[i] == b;
      assert spans[keys[i]].toks == b;
    }
  }

  lemma AppliedSpansAre(p: StoreParams, epochs: EpochTable, st: SpanState, ev: Event, st1: SpanState)
    requires RunsOk(st.runs) && ev.WellFormed()
    requires st1 == if p.version < 2 then st else TrackedEvent(p, epochs, st, ev, 0)
    ensures var start := SpanAtStart(p, epochs, st.spans, ev);
            && (start.Some? ==> start.value in st1.spans)
            && AppliedSpans(p, epochs, st, ev) ==
               if start.None? then st1
               else st1.(spans := st1.spans[start.value := Outcome(p, st1.spans[start.value], ev)])
  {
    hide TrackedEvent, Outcome, RunsOk, FindSpan;
    if p.version >= 2 { TrackingKeepsKeys(p, epochs, st, ev, 0); }
  }

  lemma OnePosition(p: StoreParams, h: Hot<Word>, ev: Event, pos: nat)
    requires ev.WellFormed() && pos < |ev.Realized()|
    ensures ApplyTouches(p, h, EventTouches(p, Hash, ev, pos)) ==
            ApplyTouches(p, ApplyTouches(p, h, SiteTouches(p, Hash, SiteAt(ev, pos), ObservationAt(ev, pos))),
                         EventTouches(p, Hash, ev, pos + 1))
  {
    hide ApplyTouches, SiteTouches, SiteAt, ObservationAt;
    ApplyTouchesConcat(p, h, SiteTouches(p, Hash, SiteAt(ev, pos), ObservationAt(ev, pos)),
                       EventTouches(p, Hash, ev, pos + 1));
  }

  lemma SiteBefore(ev: Event, pos: nat)
    requires pos <= |ev.Realized()|
    ensures pos == 0 ==> SiteAt(ev, pos).before == ev.ctxTail
    ensures pos > 0 ==> SiteAt(ev, pos).before == SiteAt(ev, pos - 1).before + [ev.Realized()[pos - 1]]
  {
  }

  lemma OneTracked(p: StoreParams, epochs: EpochTable, st: SpanState, ev: Event, pos: nat)
    requires RunsOk(st.runs) && pos < |ev.Realized()| && ev.scopes != []
    ensures RunsOk(Tracked(p, epochs, st, ev.scopes[0], SiteAt(ev, pos), ev.Realized()[pos]).runs)
    ensures TrackedEvent(p, epochs, st, ev, pos) ==
            TrackedEvent(p, epochs, Tracked(p, epochs, st, ev.scopes[0], SiteAt(ev, pos), ev.Realized()[pos]),
                         ev, pos + 1)
  {
    hide RunsOk, SiteAt, TrackedRuns, Flushed;
    TrackedRunsOk(p, st.runs, ev.scopes[0], SiteAt(ev, pos), ev.Realized()[pos]);
  }

  lemma NoMoreTracked(p: StoreParams, epochs: EpochTable, st: SpanState, ev: Event)
    requires RunsOk(st.runs) && ev.scopes != []
    ensures TrackedEvent(p, epochs, st, ev, |ev.Realized()|) == st
  {
  }

  lemma NoPatch(p: StoreParams, ev: Event)
    ensures ev.acceptedLen >= |ev.draft| ==> PatchKey(p, ev) == NO_PATCH.key
  {
  }

  lemma NoMorePositions(p: StoreParams, h: Hot<Word>, ev: Event)
    requires ev.WellFormed()
    ensures ApplyTouches(p, h, EventTouches(p, Hash, ev, |ev.Realized()|)) == h
  {
  }

  lemma FirstRun(runs: Dict<Word, OpenRun>)
    requires RunsOk(runs) && runs.keys != []
    ensures runs.keys[0] in runs.m && runs.Remove(runs.keys[0]).keys == runs.keys[1..]
  {
    RemoveFirst(runs);
  }

  lemma KeptBelow(breaks: map<nat, Break>, d: nat)
    ensures forall b :: b in KeepBelow(breaks, d) <==> b in breaks && b < d
  {
  }

  /** When a run has the body a span already has, no break lies at or past the divergence. */
  lemma SameBodyKeepsBreaks(s: Span, toks: seq<int>)
    requires s.toks == toks && forall b :: b in s.breaks ==> b < |toks|
    ensures KeepBelow(s.breaks, Divergence(s.toks, toks)) == s.breaks
  {
    DivergenceIsPrefix(toks, toks);
  }

  /** The rank and key of the correction entry: longer order first, then the more specific tier. */
  datatype Patch = Patch(order: int, depth: int, key: Word) {
    predicate Beaten(o: int, d: int) {
      o > order || (o == order && d < depth)
    }
  }

  const NO_PATCH: Patch := Patch(-1, 1, 0)
}
