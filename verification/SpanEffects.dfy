/** What flushing a run, applying an outcome and compacting do to the spans, in counts and contents. */
module SpanEffects {
  import opened Bits
  import opened Dicts
  import opened HotEntries
  import opened Signatures
  import opened Types
  import opened HotTables
  import opened Spans
  import opened Backoff
  import opened SpanChoice
  import Evidence
  import Bounds

  /** A run belongs to the file of its last token that has one. */
  lemma TrackedFile(p: StoreParams, runs: Dict<Word, OpenRun>, sid: Word, s: Site, tok: int)
    requires RunsOk(runs)
    ensures var after := TrackedRuns(p, runs, sid, s, tok);
            && sid in after.m && after.m[sid].toks[|after.m[sid].toks| - 1..] == [tok]
            && after.m[sid].dom == if s.dom != 0 then s.dom
                                   else if sid in runs.m && runs.m[sid].seg == s.seg &&
                                           |runs.m[sid].toks| < p.spanMaxLen then runs.m[sid].dom
                                   else 0
  {
    TrackedRunsOk(p, runs, sid, s, tok);
  }

  // ---------------------------------------------------------------- where a run is registered

  /** A key the run is registered under, and the scope it is made of. */
  datatype Place = Place(key: Word, scope: Word)

  function TierPlaces(p: StoreParams, run: OpenRun, order: nat, depth: nat): seq<Place>
    requires 2 <= order < 2 + |run.startSigs| && order <= MAX_ORDER
    decreases |run.scopes| - depth
  {
    if depth >= |run.scopes| then [] else
      var scope := run.scopes[depth];
      var place := Place(SpanKey(run.startSigs[order - 2], order, scope, run.seg), scope);
      (if depth in p.spanScopeDepths then [place] else []) + TierPlaces(p, run, order, depth + 1)
  }

  function PlacesFrom(p: StoreParams, run: OpenRun, order: nat): seq<Place>
    requires 2 <= order && |run.startSigs| <= 7
    decreases 2 + |run.startSigs| - order
  {
    if order >= 2 + |run.startSigs| then [] else
      (if order in p.spanOrders then TierPlaces(p, run, order, 0) else []) + PlacesFrom(p, run, order + 1)
  }

  /** Every active order of the run's starting signatures, under every active tier of its scopes. */
  ghost predicate IsPlace(p: StoreParams, run: OpenRun, x: Place) {
    exists i: nat, depth: nat ::
      && i < |run.startSigs| && i + 2 <= 8 && i + 2 in p.spanOrders
      && depth < |run.scopes| && depth in p.spanScopeDepths
      && x == Place(SpanKey(run.startSigs[i], i + 2, run.scopes[depth], run.seg), run.scopes[depth])
  }

  lemma {:induction false} TierPlacesAre(p: StoreParams, run: OpenRun, order: nat, depth: nat, x: Place)
    requires 2 <= order < 2 + |run.startSigs| && order <= MAX_ORDER
    ensures x in TierPlaces(p, run, order, depth) <==>
            exists d: nat :: depth <= d < |run.scopes| && d in p.spanScopeDepths &&
                             x == Place(SpanKey(run.startSigs[order - 2], order, run.scopes[d], run.seg), run.scopes[d])
    decreases |run.scopes| - depth
  {
    hide SpanKey;
    if depth < |run.scopes| { TierPlacesAre(p, run, order, depth + 1, x); }
  }

  lemma {:induction false} PlacesFromAre(p: StoreParams, run: OpenRun, order: nat, x: Place)
    requires 2 <= order && |run.startSigs| <= 7
    ensures x in PlacesFrom(p, run, order) <==>
            exists i: nat, d: nat ::
              && order <= i + 2 && i < |run.startSigs| && i + 2 in p.spanOrders
              && d < |run.scopes| && d in p.spanScopeDepths
              && x == Place(SpanKey(run.startSigs[i], i + 2, run.scopes[d], run.seg), run.scopes[d])
    decreases 2 + |run.startSigs| - order
  {
    hide SpanKey;
    if order < 2 + |run.startSigs| {
      PlacesFromAre(p, run, order + 1, x);
      TierPlacesAre(p, run, order, 0, x);
    }
  }

  // ---------------------------------------------------------------- registering is a fold over the places

  function RegisterAll(epochs: EpochTable, spans: map<Word, Span>, run: OpenRun, places: seq<Place>): map<Word, Span>
    decreases |places|
  {
    if places == [] then spans
    else RegisterAll(epochs, Registered(epochs, spans, run, places[0].key, places[0].scope), run, places[1..])
  }

  lemma {:induction false} RegisterAllConcat(epochs: EpochTable, spans: map<Word, Span>, run: OpenRun, a: seq<Place>,
                                             b: seq<Place>)
    ensures RegisterAll(epochs, spans, run, a + b) ==
            RegisterAll(epochs, RegisterAll(epochs, spans, run, a), run, b)
    decreases |a|
  {
    hide Registered;
    if a == [] {
      assert a + b == b;
    } else {
      assert (a + b)[1..] == a[1..] + b;
      RegisterAllConcat(epochs, Registered(epochs, spans, run, a[0].key, a[0].scope), run, a[1..], b);
    }
  }

  lemma {:induction false} DepthsRegister(p: StoreParams, epochs: EpochTable, spans: map<Word, Span>, run: OpenRun,
                                          order: nat, depth: nat)
    requires 2 <= order < 2 + |run.startSigs| && order <= MAX_ORDER
    ensures RegisterDepths(p, epochs, spans, run, order, depth) ==
            RegisterAll(epochs, spans, run, TierPlaces(p, run, order, depth))
    decreases |run.scopes| - depth
  {
    hide Registered, SpanKey;
    if depth < |run.scopes| {
      var scope := run.scopes[depth];
      var key := SpanKey(run.startSigs[order - 2], order, scope, run.seg);
      var next := if depth in p.spanScopeDepths then Registered(epochs, spans, run, key, scope) else spans;
      DepthsRegister(p, epochs, next, run, order, depth + 1);
      var rest := TierPlaces(p, run, order, depth + 1);
      assert ([Place(key, scope)] + rest)[1..] == rest && [] + rest == rest;
    }
  }

  lemma {:induction false} OrdersRegister(p: StoreParams, epochs: EpochTable, spans: map<Word, Span>, run: OpenRun,
                                          order: nat)
    requires 2 <= order && |run.startSigs| <= 7
    ensures RegisterOrders(p, epochs, spans, run, order) ==
            RegisterAll(epochs, spans, run, PlacesFrom(p, run, order))
    decreases 2 + |run.startSigs| - order
  {
    hide Registered, TierPlaces, RegisterDepths;
    if order < 2 + |run.startSigs| {
      DepthsRegister(p, epochs, spans, run, order, 0);
      var here := if order in p.spanOrders then TierPlaces(p, run, order, 0) else [];
      var next := if order in p.spanOrders then RegisterDepths(p, epochs, spans, run, order, 0) else spans;
      OrdersRegister(p, epochs, next, run, order + 1);
      RegisterAllConcat(epochs, spans, run, here, PlacesFrom(p, run, order + 1));
    }
  }

  // ---------------------------------------------------------------- what registering leaves behind

  function Times(places: seq<Place>, key: Word): nat {
    if places == [] then 0 else (if places[0].key == key then 1 else 0) + Times(places[1..], key)
  }

  /** The count that a new registration adds to: a stale span starts over. */
  function CountedBefore(epochs: EpochTable, spans: map<Word, Span>, key: Word): nat {
    if key in spans && FreshSpan(epochs, spans[key]) then spans[key].count else 0
  }

  /** A fresh span keeps its file, a stale or new one takes the run's. */
  function FileAfter(epochs: EpochTable, spans: map<Word, Span>, run: OpenRun, key: Word): int {
    if key in spans && FreshSpan(epochs, spans[key]) then spans[key].dom else run.dom
  }

  /** The key names spans of this scope only. */
  ghost predicate OfScope(spans: map<Word, Span>, places: seq<Place>, key: Word, scope: Word) {
    && (key in spans ==> spans[key].scope == scope)
    && forall i :: 0 <= i < |places| && places[i].key == key ==> places[i].scope == scope
  }

  lemma OneRegistered(epochs: EpochTable, spans: map<Word, Span>, run: OpenRun, key: Word, scope: Word)
    ensures var after := Registered(epochs, spans, run, key, scope);
            && (forall k :: k != key ==> (k in after <==> k in spans) && (k in spans ==> after[k] == spans[k]))
            && key in after
            && after[key].toks == (if key in spans && |spans[key].toks| > |run.toks| then spans[key].toks else run.toks)
            && after[key].count == CountedBefore(epochs, spans, key) + 1
            && (key in spans ==> after[key].scope == spans[key].scope) && (key !in spans ==> after[key].scope == scope)
            && (key !in spans || spans[key].scope == scope ==> FreshSpan(epochs, after[key]))
            && after[key].dom == FileAfter(epochs, spans, run, key)
            && after[key].seg == if key in spans then spans[key].seg else run.seg
  {
  }

  lemma {:induction false} AllRegistered(epochs: EpochTable, spans: map<Word, Span>, run: OpenRun, places: seq<Place>,
                                         key: Word, scope: Word)
    ensures var after := RegisterAll(epochs, spans, run, places);
            && (Times(places, key) == 0 ==>
                  (key in after <==> key in spans) && (key in spans ==> after[key] == spans[key]))
            && (Times(places, key) > 0 ==>
                  && key in after
                  && after[key].toks ==
                     (if key in spans && |spans[key].toks| > |run.toks| then spans[key].toks else run.toks)
                  && after[key].count >= 1)
            && (Times(places, key) > 0 && OfScope(spans, places, key, scope) ==>
                  after[key].count == CountedBefore(epochs, spans, key) + Times(places, key) &&
                  after[key].scope == scope && FreshSpan(epochs, after[key]) &&
                  after[key].dom == FileAfter(epochs, spans, run, key))
    decreases |places|
  {
    hide Registered, FreshSpan;
    if places != [] {
      var x := places[0];
      var next := Registered(epochs, spans, run, x.key, x.scope);
      OneRegistered(epochs, spans, run, x.key, x.scope);
      AllRegistered(epochs, next, run, places[1..], key, scope);
    }
  }

  lemma {:induction false} TimesIfListed(places: seq<Place>, key: Word)
    ensures Times(places, key) > 0 <==> exists i :: 0 <= i < |places| && places[i].key == key
  {
    if places != [] {
      TimesIfListed(places[1..], key);
      if i :| 0 <= i < |places| && places[i].key == key { if i > 0 { assert places[1..][i - 1] == places[i]; } }
      if Times(places[1..], key) > 0 {
        var i :| 0 <= i < |places[1..]| && places[1..][i].key == key;
        assert places[i + 1].key == key;
      }
    }
  }

  /** A run too short leaves no trace. A long enough one leaves, under every active order and tier, a span whose body is
      the longer of the old body and the run, counted once more; nothing else changes. */
  lemma FlushRegisters(p: StoreParams, epochs: EpochTable, spans: map<Word, Span>, run: OpenRun, key: Word)
    requires |run.startSigs| <= 7
    ensures var after := Flushed(p, epochs, spans, run);
            && (|run.toks| < p.spanMinLen ==> after == spans)
            && ((forall scope :: !IsPlace(p, run, Place(key, scope))) ==>
                  (key in after <==> key in spans) && (key in spans ==> after[key] == spans[key]))
            && (|run.toks| >= p.spanMinLen && (exists scope :: IsPlace(p, run, Place(key, scope))) ==>
                  && key in after && after[key].count >= 1
                  && after[key].toks ==
                     (if key in spans && |spans[key].toks| > |run.toks| then spans[key].toks else run.toks))
  {
    hide SpanKey, RegisterAll, PlacesFrom;
    if |run.toks| >= p.spanMinLen {
      var places := PlacesFrom(p, run, 2);
      OrdersRegister(p, epochs, spans, run, 2);
      AllRegistered(epochs, spans, run, places, key, 0);
      TimesIfListed(places, key);
      forall x: Place ensures x in places <==> IsPlace(p, run, x) { PlacesFromAre(p, run, 2, x); }
      if i :| 0 <= i < |places| && places[i].key == key {
        assert places[i] in places && places[i] == Place(key, places[i].scope);
      }
    }
  }

  /** Where a key names spans of one scope only, the span is fresh afterwards, and its count has grown by the number of
      orders and tiers that make this key: from what it was, or from zero if it was stale or new. */
  lemma FlushCounts(p: StoreParams, epochs: EpochTable, spans: map<Word, Span>, run: OpenRun, key: Word, scope: Word)
    requires |run.startSigs| <= 7 && |run.toks| >= p.spanMinLen && IsPlace(p, run, Place(key, scope))
    requires key in spans ==> spans[key].scope == scope
    requires forall other :: IsPlace(p, run, Place(key, other)) ==> other == scope
    ensures var after := Flushed(p, epochs, spans, run);
            && key in after && after[key].scope == scope && FreshSpan(epochs, after[key])
            && after[key].dom == FileAfter(epochs, spans, run, key)
            && after[key].count == CountedBefore(epochs, spans, key) + Times(PlacesFrom(p, run, 2), key)
            && Times(PlacesFrom(p, run, 2), key) >= 1
  {
    hide SpanKey, RegisterAll, PlacesFrom, FreshSpan;
    var places := PlacesFrom(p, run, 2);
    OrdersRegister(p, epochs, spans, run, 2);
    forall x: Place ensures x in places <==> IsPlace(p, run, x) { PlacesFromAre(p, run, 2, x); }
    forall i | 0 <= i < |places| && places[i].key == key ensures places[i].scope == scope {
      assert places[i] in places && places[i] == Place(key, places[i].scope);
    }
    AllRegistered(epochs, spans, run, places, key, scope);
    TimesIfListed(places, key);
    assert Place(key, scope) in places;
  }

  // ---------------------------------------------------------------- which breaks survive a new body

  /** The run agrees with the old body through this offset, or is too short to replace it. */
  predicate StillTrue(old_: seq<int>, toks: seq<int>, off: nat) {
    |toks| < |old_| || (off < |old_| && off < |toks| && old_[..off + 1] == toks[..off + 1])
  }

  function BreaksAfter(epochs: EpochTable, spans: map<Word, Span>, run: OpenRun, key: Word): map<nat, Break> {
    if key in spans && FreshSpan(epochs, spans[key])
    then map off | off in spans[key].breaks && StillTrue(spans[key].toks, run.toks, off) :: spans[key].breaks[off]
    else map[]
  }

  lemma BelowDivergence(a: seq<int>, b: seq<int>, off: nat)
    ensures off < Divergence(a, b) <==> off < |a| && off < |b| && a[..off + 1] == b[..off + 1]
  {
    DivergenceIsPrefix(a, b);
    var d := Divergence(a, b);
    if off < d {
      assert a[..off + 1] == a[..d][..off + 1] && b[..off + 1] == b[..d][..off + 1];
    } else if off < |a| && off < |b| {
      assert a[..off + 1][d] != b[..off + 1][d];
    }
  }

  lemma RegisteredBreaks(epochs: EpochTable, spans: map<Word, Span>, run: OpenRun, key: Word, scope: Word)
    requires key in spans ==> spans[key].scope == scope
    ensures var after := Registered(epochs, spans, run, key, scope);
            key in after && after[key].breaks == BreaksAfter(epochs, spans, run, key)
  {
    if key in spans {
      forall off: nat | |run.toks| >= |spans[key].toks|
        ensures StillTrue(spans[key].toks, run.toks, off) <==> off < Divergence(spans[key].toks, run.toks)
      {
        BelowDivergence(spans[key].toks, run.toks, off);
      }
    }
  }

  /** Registering a run twice in a row loses no further break. */
  lemma SameBreaks(epochs: EpochTable, spans: map<Word, Span>, run: OpenRun, key: Word, scope: Word)
    requires key in spans ==> spans[key].scope == scope
    ensures var after := Registered(epochs, spans, run, key, scope);
            BreaksAfter(epochs, after, run, key) == BreaksAfter(epochs, spans, run, key)
  {
    hide Registered, FreshSpan;
    OneRegistered(epochs, spans, run, key, scope);
    RegisteredBreaks(epochs, spans, run, key, scope);
  }

  lemma {:induction false} AllBreaks(epochs: EpochTable, spans: map<Word, Span>, run: OpenRun, places: seq<Place>,
                                     key: Word, scope: Word)
    requires OfScope(spans, places, key, scope) && Times(places, key) > 0
    ensures var after := RegisterAll(epochs, spans, run, places);
            key in after && after[key].breaks == BreaksAfter(epochs, spans, run, key)
    decreases |places|
  {
    hide Registered, BreaksAfter;
    var x, rest := places[0], places[1..];
    var next := Registered(epochs, spans, run, x.key, x.scope);
    OneRegistered(epochs, spans, run, x.key, x.scope);
    if x.key == key {
      RegisteredBreaks(epochs, spans, run, key, scope);
      SameBreaks(epochs, spans, run, key, scope);
    } else {
      Untouched(epochs, spans, next, run, key);
    }
    if Times(rest, key) > 0 {
      AllBreaks(epochs, next, run, rest, key, scope);
    } else {
      AllRegistered(epochs, next, run, rest, key, scope);
    }
  }

  lemma Untouched(epochs: EpochTable, spans: map<Word, Span>, next: map<Word, Span>, run: OpenRun, key: Word)
    requires (key in next <==> key in spans) && (key in spans ==> next[key] == spans[key])
    ensures BreaksAfter(epochs, next, run, key) == BreaksAfter(epochs, spans, run, key)
  {
  }

  /** A fresh span keeps exactly the breaks that the new run does not contradict; a stale one keeps none. */
  lemma FlushKeepsTrueBreaks(p: StoreParams, epochs: EpochTable, spans: map<Word, Span>, run: OpenRun, key: Word,
                             scope: Word)
    requires |run.startSigs| <= 7 && |run.toks| >= p.spanMinLen && IsPlace(p, run, Place(key, scope))
    requires key in spans ==> spans[key].scope == scope
    requires forall other :: IsPlace(p, run, Place(key, other)) ==> other == scope
    ensures var after := Flushed(p, epochs, spans, run);
            key in after && after[key].breaks == BreaksAfter(epochs, spans, run, key)
  {
    hide SpanKey, RegisterAll, PlacesFrom, FreshSpan;
    var places := PlacesFrom(p, run, 2);
    OrdersRegister(p, epochs, spans, run, 2);
    forall x: Place ensures x in places <==> IsPlace(p, run, x) { PlacesFromAre(p, run, 2, x); }
    forall i | 0 <= i < |places| && places[i].key == key ensures places[i].scope == scope {
      assert places[i] in places && places[i] == Place(key, places[i].scope);
    }
    TimesIfListed(places, key);
    assert Place(key, scope) in places;
    AllBreaks(epochs, spans, run, places, key, scope);
  }

  // ---------------------------------------------------------------- compaction

  /** Compaction keeps exactly the fresh spans counted at least 2^shift times, with the count and every break divided by
      2^shift, breaks that reach zero dropped, and the body as it was. */
  lemma CompactionDividesSpans(p: Params, epochs: EpochTable, spans: map<Word, Span>, key: Word)
    ensures var after := CompactedSpans(p, epochs, spans);
            && (key in after <==>
                key in spans && FreshSpan(epochs, spans[key]) && spans[key].count >= Pow2(p.decayShift))
            && (key in after ==>
                  var s, t := spans[key], after[key];
                  && t.toks == s.toks && t.scope == s.scope && t.seg == s.seg && t.dom == s.dom && t.epoch == s.epoch
                  && Bounds.Worn(t.count, s.count, p.decayShift)
                  && forall off ::
                       (off in t.breaks <==> off in s.breaks && s.breaks[off].count >= Pow2(p.decayShift)) &&
                       (off in t.breaks ==> Bounds.Worn(t.breaks[off].count, s.breaks[off].count, p.decayShift) &&
                                            t.breaks[off].patchKey == s.breaks[off].patchKey))
  {
    hide Shr, Pow2, Bounds.Worn, FreshSpan;
    if key in spans {
      Bounds.ShrVanishes(spans[key].count, p.decayShift);
      forall off | off in spans[key].breaks
        ensures var n := spans[key].breaks[off].count;
                Bounds.Worn(Shr(n, p.decayShift), n, p.decayShift) &&
                (Shr(n, p.decayShift) == 0 <==> n < Pow2(p.decayShift))
      {
        Bounds.ShrVanishes(spans[key].breaks[off].count, p.decayShift);
      }
    }
  }

  // ---------------------------------------------------------------- outcomes

  /** The span that the draft of an event came from: the best one for the context it started in. */
  ghost predicate DraftedFrom(p: StoreParams, epochs: EpochTable, spans: map<Word, Span>, ev: Event, key: Word) {
    var sigs, seg := StackOf(ev.ctxTail), if ev.seg != [] then ev.seg[0] else TEXT;
    && p.version >= 2 && ev.draft != []
    && Eligible(p, epochs, spans, sigs, ev.scopes, seg, key)
    && forall k :: Eligible(p, epochs, spans, sigs, ev.scopes, seg, k) && k != key ==>
         Better(spans[key], key, spans[k], k)
  }

  function BreakCount(s: Span, off: nat): nat {
    if off in s.breaks then s.breaks[off].count else 0
  }

  /** Besides what its tokens add to the runs, an event changes only the span its draft came from: one more break where
      a draft along the body was rejected, one more use where the whole draft was accepted, and nothing otherwise. */
  lemma OutcomeCounts(p: StoreParams, epochs: EpochTable, st: SpanState, ev: Event, key: Word)
    requires RunsOk(st.runs) && ev.scopes != []
    ensures var mid, after := if p.version < 2 then st else TrackedEvent(p, epochs, st, ev, 0),
                              AppliedSpans(p, epochs, st, ev);
            && after.runs == mid.runs && after.spans.Keys == mid.spans.Keys
            && (!DraftedFrom(p, epochs, st.spans, ev, key) && key in mid.spans ==> after.spans[key] == mid.spans[key])
            && (DraftedFrom(p, epochs, st.spans, ev, key) ==>
                  && key in mid.spans
                  && var s, t, a := mid.spans[key], after.spans[key], ev.acceptedLen;
                  && t.toks == s.toks && t.scope == s.scope && t.seg == s.seg && t.dom == s.dom && t.epoch == s.epoch
                  && t.count == s.count + (if a == |ev.draft| then 1 else 0)
                  && forall off: nat :: BreakCount(t, off) ==
                       BreakCount(s, off) +
                       if off == a < |ev.draft| && a < |s.toks| && s.toks[..a + 1] == ev.draft[..a + 1] then 1 else 0)
  {
    hide TrackedEvent, FindSpan, Probed, Evidence.CounterNow, Better, PatchKey, StackOf, RunsOk;
    if p.version >= 2 && ev.draft != [] {
      TrackingKeepsKeys(p, epochs, st, ev, 0);
      var sigs, seg := StackOf(ev.ctxTail), if ev.seg != [] then ev.seg[0] else TEXT;
      FindSpanIsBest(p, epochs, st.spans, sigs, ev.scopes, seg);
      var best := FindSpan(p, epochs, st.spans, sigs, ev.scopes, seg, 0, None);
      if best.Some? && best.value != key && DraftedFrom(p, epochs, st.spans, ev, key) {
        BothBetter(st.spans[key], key, st.spans[best.value], best.value);
      }
    }
  }

  lemma BothBetter(s: Span, a: Word, t: Span, b: Word)
    ensures !(Better(s, a, t, b) && Better(t, b, s, a))
  {
  }

  // ---------------------------------------------------------------- the correction entry

  ghost predicate Written(p: StoreParams, s: Site, order: nat, depth: nat) {
    order in p.orders && 2 <= order <= 8 && order <= |s.before| && depth in p.scopeDepths && depth < |s.scopes|
  }

  lemma {:induction false} PatchDepthIs(p: StoreParams, s: Site, order: nat, depth: nat)
    requires order <= MAX_ORDER
    ensures var r := PatchDepth(p, s, order, depth);
            && (r.None? ==> forall d: nat :: depth <= d < |s.scopes| ==> d !in p.scopeDepths)
            && (r.Some? ==> exists d: nat :: depth <= d < |s.scopes| && d in p.scopeDepths &&
                                             r.value == Hash(ContextAt(s, order, d)) &&
                                             forall e: nat :: depth <= e < d ==> e !in p.scopeDepths)
    decreases |s.scopes| - depth
  {
    hide Hash, ContextAt;
    if depth < |s.scopes| && depth !in p.scopeDepths { PatchDepthIs(p, s, order, depth + 1); }
  }

  lemma {:induction false} PatchOrderIs(p: StoreParams, s: Site, order: nat)
    requires order <= MAX_ORDER && order <= |s.before|
    ensures var r := PatchOrder(p, s, order);
            (r == 0 && forall o: nat, d: nat :: o <= order ==> !Written(p, s, o, d)) ||
            exists o: nat, d: nat ::
              && o <= order && Written(p, s, o, d) && r == Hash(ContextAt(s, o, d))
              && forall o': nat, d': nat :: o' <= order && Written(p, s, o', d') ==> o' < o || (o' == o && d' >= d)
  {
    hide Hash, ContextAt;
    if order >= 2 {
      PatchOrderIs(p, s, order - 1);
      if order in p.orders {
        PatchDepthIs(p, s, order, 0);
        var r := PatchDepth(p, s, order, 0);
        if r.Some? {
          var d: nat :| d < |s.scopes| && d in p.scopeDepths && r.value == Hash(ContextAt(s, order, d)) &&
                        forall e: nat :: 0 <= e < d ==> e !in p.scopeDepths;
          assert Written(p, s, order, d);
        }
      }
    }
  }

  /** A break points to the entry that the rejected position wrote at its longest order and most specific tier. */
  lemma PatchIsMostSpecific(p: StoreParams, ev: Event)
    requires ev.acceptedLen < |ev.draft|
    ensures var s := Site(ev.ctxTail + ev.draft[..ev.acceptedLen], ev.scopes, ev.SegAt(ev.acceptedLen),
                          ev.DomAt(ev.acceptedLen));
            (PatchKey(p, ev) == 0 && forall o: nat, d: nat :: !Written(p, s, o, d)) ||
            exists o: nat, d: nat ::
              && Written(p, s, o, d) && PatchKey(p, ev) == Hash(ContextAt(s, o, d))
              && forall o': nat, d': nat :: Written(p, s, o', d') ==> o' < o || (o' == o && d' >= d)
  {
    hide Hash, ContextAt, PatchOrder;
    var s := SiteAt(ev, ev.acceptedLen);
    assert ev.Realized()[..ev.acceptedLen] == ev.draft[..ev.acceptedLen];
    PatchOrderIs(p, s, if |s.before| < MAX_ORDER then |s.before| else MAX_ORDER);
  }
}
