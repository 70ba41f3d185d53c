/** What the counts of the table mean. */
module Counting {
  import opened Bits
  import opened Dicts
  import opened HotEntries
  import opened EntryRuns
  import opened Types
  import opened HotTables
  import opened LockStep
  import opened Backoff
  import Epochs
  import Bounds

  // ---------------------------------------------------------------- sightings, told by the events alone

  /** Position `pos` of the event stands in this context: these were the last tokens, this is its segment. */
  ghost predicate SeenIn(p: StoreParams, ev: Event, pos: nat, c: Context)
    requires pos < |ev.Realized()|
  {
    var before := ev.ctxTail + ev.Realized()[..pos];
    && c.order in p.orders && 2 <= c.order <= 8 && c.order <= |before|
    && c.toks == before[|before| - c.order..]
    && c.seg == ev.SegAt(pos) % 4
  }

  /** How many active tiers, from `depth` on, carry this scope. */
  function Tiers(p: StoreParams, scopes: seq<Word>, scope: Word, depth: nat): nat
    decreases |scopes| - depth
  {
    if depth >= |scopes| then 0 else
      (if depth in p.scopeDepths && scopes[depth] == scope then 1 else 0) + Tiers(p, scopes, scope, depth + 1)
  }

  /** What is looked for at a position: anything, or the token that one of the two counters counts. */
  datatype Sign = Anything | Token(k: Counter, tok: int)

  /** A token is accepted where it was realized, and refused where the draft proposed it and was rejected. */
  predicate Shows(ev: Event, pos: nat, w: Sign)
    requires pos < |ev.Realized()|
  {
    match w
    case Anything => true
    case Token(Accepted, tok) => ev.Realized()[pos] == tok
    case Token(Refused, tok) => pos == ev.acceptedLen < |ev.draft| && ev.draft[pos] == tok
  }

  ghost function EventCount(p: StoreParams, ev: Event, c: Context, w: Sign, pos: nat): nat
    requires pos <= |ev.Realized()|
    decreases |ev.Realized()| - pos
  {
    if pos == |ev.Realized()| then 0 else
      (if SeenIn(p, ev, pos, c) && Shows(ev, pos, w) then Tiers(p, ev.scopes, c.scope, 0) else 0)
      + EventCount(p, ev, c, w, pos + 1)
  }

  /** The positions of these events that stand in the context and show the sign, once for each tier of its scope. */
  ghost function LogCount(p: StoreParams, evs: seq<Event>, c: Context, w: Sign): nat {
    if evs == [] then 0 else LogCount(p, evs[..|evs| - 1], c, w) + EventCount(p, evs[|evs| - 1], c, w, 0)
  }

  lemma {:induction false} LogCountConcat(p: StoreParams, a: seq<Event>, b: seq<Event>, c: Context, w: Sign)
    ensures LogCount(p, a + b, c, w) == LogCount(p, a, c, w) + LogCount(p, b, c, w)
  {
    hide EventCount;
    if b == [] {
      assert a + b == a;
    } else {
      assert (a + b)[..|a + b| - 1] == a + b[..|b| - 1];
      LogCountConcat(p, a, b[..|b| - 1], c, w);
    }
  }

  // ---------------------------------------------------------------- touches are sightings

  predicate Tells(o: Observation, w: Sign) {
    match w
    case Anything => true
    case Token(Accepted, tok) => o.realized == tok
    case Token(Refused, tok) => o.rejected == Some(tok)
  }

  function TouchCount(ts: seq<Touch<Context>>, c: Context, w: Sign): nat {
    if ts == [] then 0 else (if ts[0].key == c && Tells(ts[0].obs, w) then 1 else 0) + TouchCount(ts[1..], c, w)
  }

  lemma {:induction false} TouchCountConcat(ts: seq<Touch<Context>>, us: seq<Touch<Context>>, c: Context, w: Sign)
    ensures TouchCount(ts + us, c, w) == TouchCount(ts, c, w) + TouchCount(us, c, w)
  {
    if ts == [] {
      assert ts + us == us;
    } else {
      assert (ts + us)[1..] == ts[1..] + us;
      TouchCountConcat(ts[1..], us, c, w);
    }
  }

  lemma {:induction false} DepthCount(p: StoreParams, s: Site, o: Observation, order: nat, depth: nat, c: Context,
                                      w: Sign)
    ensures TouchCount(DepthTouches(p, EXACT, s, o, order, depth), c, w) ==
            if c.order == order && c.toks == Signatures.LastTokens(s.before, order) && c.seg == s.seg % 4 && Tells(o, w)
            then Tiers(p, s.scopes, c.scope, depth) else 0
    decreases |s.scopes| - depth
  {
    if depth < |s.scopes| {
      DepthCount(p, s, o, order, depth + 1, c, w);
      var here := if depth in p.scopeDepths
                  then [Touch(ContextAt(s, order, depth), s.seg, s.dom, s.scopes[depth], o)] else [];
      TouchCountConcat(here, DepthTouches(p, EXACT, s, o, order, depth + 1), c, w);
      if depth in p.scopeDepths { assert here[1..] == []; }
    }
  }

  lemma {:induction false} OrderCount(p: StoreParams, s: Site, o: Observation, order: nat, c: Context, w: Sign)
    ensures TouchCount(OrderTouches(p, EXACT, s, o, order), c, w) ==
            if order <= c.order <= 8 && c.order <= |s.before| && c.order in p.orders &&
               c.toks == Signatures.LastTokens(s.before, c.order) && c.seg == s.seg % 4 && Tells(o, w)
            then Tiers(p, s.scopes, c.scope, 0) else 0
    decreases Signatures.MAX_ORDER + 1 - order
  {
    hide Tells;
    if order <= Signatures.MAX_ORDER && order <= |s.before| {
      OrderCount(p, s, o, order + 1, c, w);
      DepthCount(p, s, o, order, 0, c, w);
      TouchCountConcat(if order in p.orders then DepthTouches(p, EXACT, s, o, order, 0) else [],
                       OrderTouches(p, EXACT, s, o, order + 1), c, w);
    }
  }

  lemma {:induction false} EventTouchCount(p: StoreParams, ev: Event, c: Context, w: Sign, pos: nat)
    requires ev.WellFormed() && pos <= |ev.Realized()|
    ensures TouchCount(EventTouches(p, EXACT, ev, pos), c, w) == EventCount(p, ev, c, w, pos)
    decreases |ev.Realized()| - pos
  {
    hide OrderTouches, Tiers;
    if pos < |ev.Realized()| {
      EventTouchCount(p, ev, c, w, pos + 1);
      var s, o := SiteAt(ev, pos), ObservationAt(ev, pos);
      OrderCount(p, s, o, 2, c, w);
      TouchCountConcat(SiteTouches(p, EXACT, s, o), EventTouches(p, EXACT, ev, pos + 1), c, w);
    }
  }

  // ---------------------------------------------------------------- what one touch does to the counts of a context

  function CountAt(h: Hot<Context>, c: Context, k: Counter, tok: int): nat {
    if c in h.table.m then CountOf(k, h.table.m[c], tok) else 0
  }

  /** The next write to the context starts over. */
  predicate Gone(h: Hot<Context>, c: Context) {
    c !in h.table.m || !h.IsFresh(h.table.m[c])
  }

  lemma ObservedBounded(p: Params, e: Entry, o: Observation, k: Counter, tok: int)
    ensures CountOf(k, Observed(p, e, o), tok) <= CountOf(k, e, tok) + if Tells(o, Token(k, tok)) then 1 else 0
  {
    hide Realized, Rejected, Merged, CountOf;
    CountStep(p, k, e, DoRealized(o.realized), tok);
    var e1 := Realized(p, e, o.realized);
    if o.rejected.Some? { CountStep(p, k, e1, DoRejected(o.rejected.value), tok); }
    var e2 := if o.rejected.Some? then Rejected(p, e1, o.rejected.value) else e1;
    if o.topk.Some? { CountStep(p, k, e2, DoMerge(o.topk.value.0, o.topk.value.1), tok); }
  }

  lemma TouchBounded(p: StoreParams, h: Hot<Context>, t: Touch<Context>, c: Context, k: Counter, tok: int)
    ensures CountAt(ApplyTouch(p, h, t), c, k, tok) <=
            (if t.key == c && Gone(h, c) then 0 else CountAt(h, c, k, tok))
            + if t.key == c && Tells(t.obs, Token(k, tok)) then 1 else 0
    ensures t.key != c && Gone(h, c) ==> Gone(ApplyTouch(p, h, t), c)
    ensures t.key != c && c !in h.table.m ==> c !in ApplyTouch(p, h, t).table.m
  {
    hide Observed, Tells;
    if c in ApplyTouch(p, h, t).table.m { Epochs.TouchedEntry(p, h, t, c); }
    if t.key == c { ObservedBounded(p.entry, GetOrCreate(p, h, c, t.seg, t.dom, t.scope).table.m[c], t.obs, k, tok); }
    Epochs.TouchKeepsEpochs(p, h, t);
  }

  lemma {:induction false} TouchesBounded(p: StoreParams, h: Hot<Context>, ts: seq<Touch<Context>>, c: Context,
                                          k: Counter, tok: int)
    ensures CountAt(ApplyTouches(p, h, ts), c, k, tok) <= CountAt(h, c, k, tok) + TouchCount(ts, c, Token(k, tok))
    ensures c !in h.table.m || (Gone(h, c) && TouchCount(ts, c, Anything) > 0) ==>
              CountAt(ApplyTouches(p, h, ts), c, k, tok) <= TouchCount(ts, c, Token(k, tok))
    decreases |ts|
  {
    hide ApplyTouch, CountAt, Gone;
    if ts == [] {
      if c !in h.table.m { NothingCounted(h, c, k, tok); }
    } else {
      TouchBounded(p, h, ts[0], c, k, tok);
      TouchesBounded(p, ApplyTouch(p, h, ts[0]), ts[1..], c, k, tok);
      if c !in h.table.m { NothingCounted(h, c, k, tok); }
    }
  }

  lemma NothingCounted(h: Hot<Context>, c: Context, k: Counter, tok: int)
    requires c !in h.table.m
    ensures CountAt(h, c, k, tok) == 0 && Gone(h, c)
  {
  }

  // ---------------------------------------------------------------- exactness: room for every token, and no eviction

  /** The context's entry, present or to be created, has room for all the tokens in `all`, and holds no other. */
  ghost predicate Roomy(p: StoreParams, h: Hot<Context>, c: Context, all: set<int>) {
    if c in h.table.m then
      var e := h.table.m[c];
      e.scope == c.scope && |all| <= e.kCap && (h.IsFresh(e) ==> e.cands.Keys <= all)
    else |all| <= p.entry.kInit
  }

  /** What the context has counted and the next write keeps. */
  function Base(h: Hot<Context>, c: Context, k: Counter, tok: int): nat {
    if Gone(h, c) then 0 else CountAt(h, c, k, tok)
  }

  ghost predicate SpeaksWithin(o: Observation, all: set<int>) {
    forall u :: Epochs.SpokenOf(o, u) ==> u in all
  }

  /** An update within the room evicts nothing, so that each counter counts. */
  lemma StepExact(p: Params, e: Entry, op: EntryOp, k: Counter, tok: int, all: set<int>)
    requires op.DoRealized? || op.DoRejected?
    requires e.cands.Keys <= all && |all| <= e.kCap && op.tok in all
    requires op == Counted(k, tok) ==> CountOf(k, e, tok) < U16_MAX
    ensures EntryStep(p, e, op).cands.Keys <= all && |all| <= EntryStep(p, e, op).kCap
    ensures CountOf(k, EntryStep(p, e, op), tok) == CountOf(k, e, tok) + if op == Counted(k, tok) then 1 else 0
  {
    if op.tok !in e.cands {
      SubsetSize(e.cands.Keys + {op.tok}, all);
      assert |e.cands.Keys + {op.tok}| == |e.cands| + 1;
    }
  }

  lemma MergeExact(p: Params, e: Entry, ids: seq<int>, q8s: seq<int>, k: Counter, tok: int, all: set<int>)
    requires e.cands.Keys <= all && |all| <= e.kCap && forall u :: u in ids ==> u in all
    ensures Merged(p, e, ids, q8s).cands.Keys <= all && |all| <= Merged(p, e, ids, q8s).kCap
    ensures CountOf(k, Merged(p, e, ids, q8s), tok) == CountOf(k, e, tok)
  {
    MergeCounts(p, k, e, ids, q8s, tok);
    if ids != [] {
      var cov := 0.75 * e.cov + 0.25 * (Covered(e.cands, ids) as real / |ids| as real);
      ObserveKeepsRoom(p, e.(cov := cov, cands := FadeOthers(e.cands, ids)), ids, q8s);
      forall u | u in Merged(p, e, ids, q8s).cands ensures u in all { Epochs.MergedTokens(p, e, ids, q8s, u); }
    }
  }

  lemma {:induction false} ObserveKeepsRoom(p: Params, e: Entry, ids: seq<int>, q8s: seq<int>)
    ensures ObserveAll(p, e, ids, q8s).kCap >= e.kCap
    decreases |ids|
  {
    if ids != [] && q8s != [] { ObserveKeepsRoom(p, Observe(p, e, ids[0], q8s[0]), ids[1..], q8s[1..]); }
  }

  lemma ObservedExact(p: Params, e: Entry, o: Observation, k: Counter, tok: int, all: set<int>)
    requires e.cands.Keys <= all && |all| <= e.kCap && SpeaksWithin(o, all)
    requires Tells(o, Token(k, tok)) ==> CountOf(k, e, tok) < U16_MAX
    ensures Observed(p, e, o).cands.Keys <= all && |all| <= Observed(p, e, o).kCap
    ensures CountOf(k, Observed(p, e, o), tok) == CountOf(k, e, tok) + if Tells(o, Token(k, tok)) then 1 else 0
  {
    hide Realized, Rejected, Merged, CountOf;
    assert Epochs.SpokenOf(o, o.realized);
    StepExact(p, e, DoRealized(o.realized), k, tok, all);
    var e1 := Realized(p, e, o.realized);
    if o.rejected.Some? {
      assert Epochs.SpokenOf(o, o.rejected.value);
      StepExact(p, e1, DoRejected(o.rejected.value), k, tok, all);
    }
    var e2 := if o.rejected.Some? then Rejected(p, e1, o.rejected.value) else e1;
    if o.topk.Some? {
      forall u | u in o.topk.value.0 ensures u in all { assert Epochs.SpokenOf(o, u); }
      MergeExact(p, e2, o.topk.value.0, o.topk.value.1, k, tok, all);
    }
  }

  ghost predicate NoEviction(p: StoreParams, h: Hot<Context>) {
    p.maxEntries == 0 || |h.table.keys| < p.maxEntries
  }

  lemma TouchExact(p: StoreParams, h: Hot<Context>, t: Touch<Context>, c: Context, k: Counter, tok: int, all: set<int>)
    requires Roomy(p, h, c, all) && NoEviction(p, h) && t.key.scope == t.scope
    requires t.key == c ==> SpeaksWithin(t.obs, all)
    requires t.key == c && Tells(t.obs, Token(k, tok)) ==> Base(h, c, k, tok) < U16_MAX
    ensures Roomy(p, ApplyTouch(p, h, t), c, all)
    ensures t.key == c ==> !Gone(ApplyTouch(p, h, t), c)
    ensures t.key != c ==> Gone(ApplyTouch(p, h, t), c) == Gone(h, c)
    ensures Base(ApplyTouch(p, h, t), c, k, tok) ==
            Base(h, c, k, tok) + if t.key == c && Tells(t.obs, Token(k, tok)) then 1 else 0
  {
    hide Observed, Tells, SpeaksWithin, CountOf;
    Epochs.TouchKeepsEpochs(p, h, t);
    if t.key == c {
      var e := GetOrCreate(p, h, c, t.seg, t.dom, t.scope).table.m[c];
      Epochs.TouchedEntry(p, h, t, c);
      NoCandidates(p, h, t, c, k, tok);
      ObservedExact(p.entry, e, t.obs, k, tok, all);
      Epochs.ObservedKeepsStamp(p.entry, e, t.obs);
    }
  }

  /** A write that starts over finds nothing counted. */
  lemma NoCandidates(p: StoreParams, h: Hot<Context>, t: Touch<Context>, c: Context, k: Counter, tok: int)
    requires t.key == c
    ensures CountOf(k, GetOrCreate(p, h, c, t.seg, t.dom, t.scope).table.m[c], tok) == Base(h, c, k, tok)
  {
  }

  lemma TouchGrows(p: StoreParams, h: Hot<Context>, t: Touch<Context>)
    requires h.table.Valid()
    ensures ApplyTouch(p, h, t).table.Valid() && |ApplyTouch(p, h, t).table.keys| >= |h.table.keys|
  {
    hide Observed, ResetEntry, Fresh;
    if p.maxEntries > 0 && |h.table.keys| >= p.maxEntries { RemoveFirst(h.table); }
  }

  lemma {:induction false} TouchesGrow(p: StoreParams, h: Hot<Context>, ts: seq<Touch<Context>>)
    requires h.table.Valid()
    ensures ApplyTouches(p, h, ts).table.Valid() && |ApplyTouches(p, h, ts).table.keys| >= |h.table.keys|
    decreases |ts|
  {
    hide ApplyTouch, Dict.Valid;
    if ts != [] {
      TouchGrows(p, h, ts[0]);
      TouchesGrow(p, ApplyTouch(p, h, ts[0]), ts[1..]);
    }
  }

  ghost predicate TouchesWithin(ts: seq<Touch<Context>>, c: Context, all: set<int>) {
    forall i :: 0 <= i < |ts| && ts[i].key == c ==> SpeaksWithin(ts[i].obs, all)
  }

  lemma {:induction false} TouchesExact(p: StoreParams, h: Hot<Context>, ts: seq<Touch<Context>>, c: Context,
                                        k: Counter, tok: int, all: set<int>)
    requires h.table.Valid() && Roomy(p, h, c, all) && NoEviction(p, ApplyTouches(p, h, ts))
    requires Epochs.ScopedTouches(ts) && TouchesWithin(ts, c, all)
    requires Base(h, c, k, tok) + TouchCount(ts, c, Token(k, tok)) <= U16_MAX
    ensures Roomy(p, ApplyTouches(p, h, ts), c, all)
    ensures Gone(ApplyTouches(p, h, ts), c) <==> Gone(h, c) && TouchCount(ts, c, Anything) == 0
    ensures Base(ApplyTouches(p, h, ts), c, k, tok) == Base(h, c, k, tok) + TouchCount(ts, c, Token(k, tok))
    decreases |ts|
  {
    hide ApplyTouch, Base, Gone, Roomy, Dict.Valid, SpeaksWithin;
    if ts != [] {
      TouchesGrow(p, h, ts);
      TouchGrows(p, h, ts[0]);
      TouchesGrow(p, ApplyTouch(p, h, ts[0]), ts[1..]);
      TouchExact(p, h, ts[0], c, k, tok, all);
      TouchesExact(p, ApplyTouch(p, h, ts[0]), ts[1..], c, k, tok, all);
    }
  }

  // ---------------------------------------------------------------- events

  /** A token that a position realizes, refuses, or lists among its most likely ones. */
  predicate Mentions(ev: Event, pos: nat, u: int)
    requires pos < |ev.Realized()|
  {
    Shows(ev, pos, Token(Accepted, u)) || Shows(ev, pos, Token(Refused, u)) ||
    (pos < |ev.topkIds| && u in ev.topkIds[pos])
  }

  /** In this context the events mention no other tokens than these. */
  ghost predicate MentionOnly(p: StoreParams, evs: seq<Event>, c: Context, all: set<int>) {
    forall i, pos: nat, u ::
      0 <= i < |evs| && pos < |evs[i].Realized()| && SeenIn(p, evs[i], pos, c) && Mentions(evs[i], pos, u) ==> u in all
  }

  lemma {:induction false} DepthWithin(p: StoreParams, s: Site, o: Observation, order: nat, depth: nat, c: Context,
                                       all: set<int>)
    requires order == c.order && c.toks == Signatures.LastTokens(s.before, order) && c.seg == s.seg % 4 ==>
               SpeaksWithin(o, all)
    ensures TouchesWithin(DepthTouches(p, EXACT, s, o, order, depth), c, all)
    decreases |s.scopes| - depth
  {
    hide SpeaksWithin;
    if depth < |s.scopes| { DepthWithin(p, s, o, order, depth + 1, c, all); }
  }

  lemma {:induction false} OrderWithin(p: StoreParams, s: Site, o: Observation, order: nat, c: Context, all: set<int>)
    requires (order <= c.order <= 8 && c.order <= |s.before| && c.order in p.orders &&
              c.toks == Signatures.LastTokens(s.before, c.order) && c.seg == s.seg % 4) ==> SpeaksWithin(o, all)
    ensures TouchesWithin(OrderTouches(p, EXACT, s, o, order), c, all)
    decreases Signatures.MAX_ORDER + 1 - order
  {
    hide SpeaksWithin;
    if order <= Signatures.MAX_ORDER && order <= |s.before| {
      OrderWithin(p, s, o, order + 1, c, all);
      if order in p.orders { DepthWithin(p, s, o, order, 0, c, all); }
    }
  }

  lemma {:induction false} EventWithin(p: StoreParams, ev: Event, pos: nat, c: Context, all: set<int>)
    requires ev.WellFormed() && pos <= |ev.Realized()|
    requires forall i: nat, u :: i < |ev.Realized()| && SeenIn(p, ev, i, c) && Mentions(ev, i, u) ==> u in all
    ensures TouchesWithin(EventTouches(p, EXACT, ev, pos), c, all)
    decreases |ev.Realized()| - pos
  {
    hide OrderTouches, Mentions, SpeaksWithin;
    if pos < |ev.Realized()| {
      EventWithin(p, ev, pos + 1, c, all);
      var s, o := SiteAt(ev, pos), ObservationAt(ev, pos);
      if SeenIn(p, ev, pos, c) { SpeaksAsMentioned(p, ev, pos, c, all); }
      OrderWithin(p, s, o, 2, c, all);
    }
  }

  lemma SpeaksAsMentioned(p: StoreParams, ev: Event, pos: nat, c: Context, all: set<int>)
    requires ev.WellFormed() && pos < |ev.Realized()| && SeenIn(p, ev, pos, c)
    requires forall u :: SeenIn(p, ev, pos, c) && Mentions(ev, pos, u) ==> u in all
    ensures SpeaksWithin(ObservationAt(ev, pos), all)
  {
    hide SeenIn;
    forall u | Epochs.SpokenOf(ObservationAt(ev, pos), u) ensures u in all { assert Mentions(ev, pos, u); }
  }

  lemma {:induction false} EventsBounded(p: StoreParams, h: Hot<Context>, evs: seq<Event>, c: Context, k: Counter,
                                         tok: int)
    requires WellFormedQueue(evs)
    ensures CountAt(ApplyEvents(p, EXACT, h, evs), c, k, tok) <=
            CountAt(h, c, k, tok) + LogCount(p, evs, c, Token(k, tok))
    ensures c !in h.table.m || (Gone(h, c) && LogCount(p, evs, c, Anything) > 0) ==>
              CountAt(ApplyEvents(p, EXACT, h, evs), c, k, tok) <= LogCount(p, evs, c, Token(k, tok))
  {
    hide ApplyTouches, EventTouches, EventCount, CountAt, Gone;
    if evs == [] {
      if c !in h.table.m { NothingCounted(h, c, k, tok); }
    } else {
      var before, ev := evs[..|evs| - 1], evs[|evs| - 1];
      EventsBounded(p, h, before, c, k, tok);
      StaysGone(p, h, before, c);
      EventTouchCount(p, ev, c, Anything, 0);
      EventTouchCount(p, ev, c, Token(k, tok), 0);
      TouchesBounded(p, ApplyEvents(p, EXACT, h, before), EventTouches(p, EXACT, ev, 0), c, k, tok);
    }
  }

  /** Unseen, a context that is gone stays gone. */
  lemma {:induction false} StaysGone(p: StoreParams, h: Hot<Context>, evs: seq<Event>, c: Context)
    requires WellFormedQueue(evs)
    ensures Gone(h, c) && LogCount(p, evs, c, Anything) == 0 ==> Gone(ApplyEvents(p, EXACT, h, evs), c)
  {
    hide ApplyTouches, EventTouches, EventCount, Gone;
    if evs != [] {
      var before, ev := evs[..|evs| - 1], evs[|evs| - 1];
      StaysGone(p, h, before, c);
      EventTouchCount(p, ev, c, Anything, 0);
      UntouchedStaysGone(p, ApplyEvents(p, EXACT, h, before), EventTouches(p, EXACT, ev, 0), c);
    }
  }

  lemma {:induction false} UntouchedStaysGone(p: StoreParams, h: Hot<Context>, ts: seq<Touch<Context>>, c: Context)
    ensures Gone(h, c) && TouchCount(ts, c, Anything) == 0 ==> Gone(ApplyTouches(p, h, ts), c)
    decreases |ts|
  {
    hide ApplyTouch, Gone;
    if ts != [] {
      TouchBounded(p, h, ts[0], c, Accepted, 0);
      UntouchedStaysGone(p, ApplyTouch(p, h, ts[0]), ts[1..], c);
    }
  }

  lemma {:induction false} EventsGrow(p: StoreParams, h: Hot<Context>, evs: seq<Event>)
    requires h.table.Valid() && WellFormedQueue(evs)
    ensures ApplyEvents(p, EXACT, h, evs).table.Valid()
    ensures |ApplyEvents(p, EXACT, h, evs).table.keys| >= |h.table.keys|
  {
    hide ApplyTouches, EventTouches, Dict.Valid;
    if evs != [] {
      EventsGrow(p, h, evs[..|evs| - 1]);
      TouchesGrow(p, ApplyEvents(p, EXACT, h, evs[..|evs| - 1]), EventTouches(p, EXACT, evs[|evs| - 1], 0));
    }
  }

  lemma {:induction false} EventsExact(p: StoreParams, h: Hot<Context>, evs: seq<Event>, c: Context, k: Counter,
                                       tok: int, all: set<int>)
    requires WellFormedQueue(evs) && h.table.Valid()
    requires Roomy(p, h, c, all) && NoEviction(p, ApplyEvents(p, EXACT, h, evs)) && MentionOnly(p, evs, c, all)
    requires Base(h, c, k, tok) + LogCount(p, evs, c, Token(k, tok)) <= U16_MAX
    ensures Roomy(p, ApplyEvents(p, EXACT, h, evs), c, all)
    ensures Gone(ApplyEvents(p, EXACT, h, evs), c) <==> Gone(h, c) && LogCount(p, evs, c, Anything) == 0
    ensures Base(ApplyEvents(p, EXACT, h, evs), c, k, tok) ==
            Base(h, c, k, tok) + LogCount(p, evs, c, Token(k, tok))
  {
    hide ApplyTouches, EventTouches, EventCount, Base, Gone, Roomy, Dict.Valid, MentionOnly;
    if evs != [] {
      var before, ev := evs[..|evs| - 1], evs[|evs| - 1];
      var h', ts := ApplyEvents(p, EXACT, h, before), EventTouches(p, EXACT, ev, 0);
      EventsGrow(p, h, before);
      TouchesGrow(p, h', ts);
      MentionParts(p, evs, c, all);
      EventsExact(p, h, before, c, k, tok, all);
      EventTouchCount(p, ev, c, Anything, 0);
      EventTouchCount(p, ev, c, Token(k, tok), 0);
      EventWithin(p, ev, 0, c, all);
      Epochs.EventScoped(p, ev, 0);
      TouchesExact(p, h', ts, c, k, tok, all);
    }
  }

  lemma MentionParts(p: StoreParams, evs: seq<Event>, c: Context, all: set<int>)
    requires MentionOnly(p, evs, c, all) && evs != []
    ensures MentionOnly(p, evs[..|evs| - 1], c, all)
    ensures var ev := evs[|evs| - 1];
            forall i: nat, u :: i < |ev.Realized()| && SeenIn(p, ev, i, c) && Mentions(ev, i, u) ==> u in all
  {
    hide SeenIn, Mentions;
  }

  // ---------------------------------------------------------------- whole runs

  /** The events applied after the first `m` operations. */
  ghost function Since(p: StoreParams, ops: seq<Op>, m: nat): (evs: seq<Event>)
    requires WellFormedOps(ops) && m <= |ops|
    ensures WellFormedQueue(evs)
  {
    if |ops| == m then [] else
      var st, op := Run(p, EXACT, ops[..|ops| - 1]), ops[|ops| - 1];
      Since(p, ops[..|ops| - 1], m) + if op.Drain? then st.queue[..DrainCount(st.queue, op.limit)] else []
  }

  lemma {:induction false} SinceIsLog(p: StoreParams, ops: seq<Op>, m: nat)
    requires WellFormedOps(ops) && m <= |ops|
    ensures Bounds.AppliedLog(p, EXACT, ops) == Bounds.AppliedLog(p, EXACT, ops[..m]) + Since(p, ops, m)
  {
    hide Run;
    if |ops| == m {
      assert ops[..m] == ops;
    } else {
      assert ops[..|ops| - 1][..m] == ops[..m];
      SinceIsLog(p, ops[..|ops| - 1], m);
    }
  }

  /** After `m` operations the context is absent, or stale and seen by the events drained next. */
  ghost predicate StartsOver(p: StoreParams, ops: seq<Op>, m: nat, c: Context)
    requires WellFormedOps(ops) && m <= |ops|
  {
    var h := Run(p, EXACT, ops[..m]).hot;
    c !in h.table.m || (Gone(h, c) && m < |ops| && LogCount(p, Since(p, ops[..m + 1], m), c, Anything) > 0)
  }

  lemma CompactBounded(p: Params, h: Hot<Context>, c: Context, k: Counter, tok: int)
    ensures CountAt(Compacted(p, h), c, k, tok) <= CountAt(h, c, k, tok)
  {
    hide CompactFrom, Shr;
    if c in Compacted(p, h).table.m && tok in Compacted(p, h).table.m[c].cands {
      Epochs.CompactedEntry(p, h, h.table.keys, c);
      ShrSmaller(h.table.m[c].cands[tok].acc, p.decayShift);
      ShrSmaller(h.table.m[c].cands[tok].rej, p.decayShift);
    }
  }

  lemma StepBounded(p: StoreParams, st: Store<Context>, op: Op, c: Context, k: Counter, tok: int)
    requires WellFormedQueue(st.queue)
    ensures var evs := if op.Drain? then st.queue[..DrainCount(st.queue, op.limit)] else [];
            && CountAt(Step(p, EXACT, st, op).hot, c, k, tok) <=
               CountAt(st.hot, c, k, tok) + LogCount(p, evs, c, Token(k, tok))
            && (c !in st.hot.table.m || (Gone(st.hot, c) && LogCount(p, evs, c, Anything) > 0) ==>
                  CountAt(Step(p, EXACT, st, op).hot, c, k, tok) <= LogCount(p, evs, c, Token(k, tok)))
  {
    hide ApplyEvents, Compacted, Gone, CountOf, EventCount;
    CompactBounded(p.entry, st.hot, c, k, tok);
    if op.Drain? {
      var evs := st.queue[..DrainCount(st.queue, op.limit)];
      EventsBounded(p, st.hot, evs, c, k, tok);
      CompactBounded(p.entry, ApplyEvents(p, EXACT, st.hot, evs), c, k, tok);
    }
  }

  /** In every run, from any moment on: an accepted count grows by no more than the positions, in that very context,
      that realized the token, a rejected one by no more than those that refused it; and it grows from zero where the
      context was absent, or stale when next seen. */
  lemma {:induction false} CountsBounded(p: StoreParams, ops: seq<Op>, m: nat, c: Context, k: Counter, tok: int)
    requires WellFormedOps(ops) && m <= |ops|
    ensures CountAt(Run(p, EXACT, ops).hot, c, k, tok) <=
            (if StartsOver(p, ops, m, c) then 0 else CountAt(Run(p, EXACT, ops[..m]).hot, c, k, tok))
            + LogCount(p, Since(p, ops, m), c, Token(k, tok))
  {
    hide Step, CountAt, Gone, EventCount, LogCount;
    if |ops| == m {
      assert ops[..m] == ops;
      if c !in Run(p, EXACT, ops).hot.table.m { NothingCounted(Run(p, EXACT, ops).hot, c, k, tok); }
    } else {
      var before, op := ops[..|ops| - 1], ops[|ops| - 1];
      var st := Run(p, EXACT, before);
      assert before[..m] == ops[..m];
      if m < |before| {
        assert before[..m + 1] == ops[..m + 1];
      } else {
        assert before[..m] == before && ops[..m + 1] == ops;
      }
      CountsBounded(p, before, m, c, k, tok);
      StepBounded(p, st, op, c, k, tok);
      var evs := if op.Drain? then st.queue[..DrainCount(st.queue, op.limit)] else [];
      LogCountConcat(p, Since(p, before, m), evs, c, Token(k, tok));
      NothingLogged(p, c);
      assert [] + evs == evs;
    }
  }

  lemma NothingLogged(p: StoreParams, c: Context)
    ensures forall w :: LogCount(p, [], c, w) == 0
  {
  }

  /** From operation `m` on nothing is compacted and no file of the context's scope is edited. */
  ghost predicate Quiet(p: StoreParams, ops: seq<Op>, m: nat, c: Context)
    requires WellFormedOps(ops) && m <= |ops|
  {
    && (forall i :: m <= i < |ops| ==> !ops[i].Compact? && (ops[i].Bump? ==> ops[i].scope != c.scope))
    && (p.compactEvery == 0 ||
        Run(p, EXACT, ops[..m]).sinceCompact + |Since(p, ops, m)| < p.compactEvery)
  }

  /** The context's entry can hold all the tokens in `all`, and holds no other. */
  ghost predicate RoomFor(p: StoreParams, h: Hot<Context>, c: Context, all: set<int>) {
    if c in h.table.m then |all| <= h.table.m[c].kCap && (Gone(h, c) || h.table.m[c].cands.Keys <= all)
    else |all| <= p.entry.kInit
  }

  lemma QuietPrefix(p: StoreParams, ops: seq<Op>, m: nat, c: Context)
    requires WellFormedOps(ops) && m < |ops| && Quiet(p, ops, m, c)
    ensures ops[..|ops| - 1][..m] == ops[..m] && Quiet(p, ops[..|ops| - 1], m, c)
  {
    hide Run;
    assert ops[..|ops| - 1][..m] == ops[..m];
  }

  lemma {:induction false} QuietCounts(p: StoreParams, ops: seq<Op>, m: nat, c: Context)
    requires WellFormedOps(ops) && m <= |ops| && Quiet(p, ops, m, c)
    ensures p.compactEvery > 0 ==>
              Run(p, EXACT, ops).sinceCompact == Run(p, EXACT, ops[..m]).sinceCompact + |Since(p, ops, m)|
  {
    hide Harvest, ApplyEvents, Compacted;
    if |ops| == m {
      assert ops[..m] == ops;
    } else {
      QuietPrefix(p, ops, m, c);
      QuietCounts(p, ops[..|ops| - 1], m, c);
    }
  }

  /** Entries of the exact table carry the scope of their context. */
  lemma OwnScope(p: StoreParams, ops: seq<Op>, c: Context)
    requires WellFormedOps(ops) && c in Run(p, EXACT, ops).hot.table.m
    ensures Run(p, EXACT, ops).hot.table.m[c].scope == c.scope
  {
    hide Run, Epochs.HotRun;
    Epochs.TraceIsRun(p, ops);
    Epochs.TraceScoped(p, ops);
    Epochs.AllStamped(p, Epochs.Trace(p, ops), c);
  }

  lemma BumpElsewhere(p: StoreParams, h: Hot<Context>, scope: Word, file: int, c: Context, k: Counter, tok: int,
                      all: set<int>)
    requires Roomy(p, h, c, all) && scope != c.scope
    ensures var g := BumpEpoch(h, scope, file);
            Roomy(p, g, c, all) && Gone(g, c) == Gone(h, c) && Base(g, c, k, tok) == Base(h, c, k, tok)
  {
  }

  /** One quiet operation counts exactly. */
  lemma StepExactly(p: StoreParams, st: Store<Context>, op: Op, c: Context, k: Counter, tok: int, all: set<int>)
    requires WellFormedQueue(st.queue) && st.hot.table.Valid() && Roomy(p, st.hot, c, all)
    requires !op.Compact? && (op.Bump? ==> op.scope != c.scope)
    requires NoEviction(p, Step(p, EXACT, st, op).hot)
    requires var evs := if op.Drain? then st.queue[..DrainCount(st.queue, op.limit)] else [];
             && (p.compactEvery == 0 || st.sinceCompact + |evs| < p.compactEvery)
             && MentionOnly(p, evs, c, all)
             && Base(st.hot, c, k, tok) + LogCount(p, evs, c, Token(k, tok)) <= U16_MAX
    ensures var evs := if op.Drain? then st.queue[..DrainCount(st.queue, op.limit)] else [];
            var h := Step(p, EXACT, st, op).hot;
            && Roomy(p, h, c, all)
            && (Gone(h, c) <==> Gone(st.hot, c) && LogCount(p, evs, c, Anything) == 0)
            && Base(h, c, k, tok) == Base(st.hot, c, k, tok) + LogCount(p, evs, c, Token(k, tok))
  {
    hide ApplyEvents, Base, Gone, Roomy, Dict.Valid, MentionOnly, EventCount, Harvest, BumpEpoch;
    match op
    case Drain(limit) => EventsExact(p, st.hot, st.queue[..DrainCount(st.queue, limit)], c, k, tok, all);
    case Bump(scope, file) => BumpElsewhere(p, st.hot, scope, file, c, k, tok, all);
    case _ =>
  }

  lemma StepGrows(p: StoreParams, st: Store<Context>, op: Op)
    requires WellFormedQueue(st.queue) && st.hot.table.Valid() && !op.Compact?
    requires var n := if op.Drain? then DrainCount(st.queue, op.limit) else 0;
             p.compactEvery == 0 || st.sinceCompact + n < p.compactEvery
    ensures |Step(p, EXACT, st, op).hot.table.keys| >= |st.hot.table.keys|
  {
    hide ApplyEvents, Harvest, Dict.Valid;
    if op.Drain? { EventsGrow(p, st.hot, st.queue[..DrainCount(st.queue, op.limit)]); }
  }

  lemma MentionSplit(p: StoreParams, a: seq<Event>, b: seq<Event>, c: Context, all: set<int>)
    requires MentionOnly(p, a + b, c, all)
    ensures MentionOnly(p, a, c, all) && MentionOnly(p, b, c, all)
  {
    hide SeenIn, Mentions;
    assert forall i :: 0 <= i < |a| ==> (a + b)[i] == a[i];
    assert forall i :: 0 <= i < |b| ==> (a + b)[|a| + i] == b[i];
  }

  /** From any moment on, while nothing is compacted, evicted or saturated and the context's scope sees no edit, both
      counts grow by exactly the positions that realized, or refused, the token in that context. The entry has room as
      long as no more tokens are mentioned in the context than its capacity. */
  lemma {:induction false} CountsExact(p: StoreParams, ops: seq<Op>, m: nat, c: Context, k: Counter, tok: int,
                                       all: set<int>)
    requires WellFormedOps(ops) && m <= |ops| && Quiet(p, ops, m, c)
    requires RoomFor(p, Run(p, EXACT, ops[..m]).hot, c, all) && NoEviction(p, Run(p, EXACT, ops).hot)
    requires MentionOnly(p, Since(p, ops, m), c, all)
    requires Base(Run(p, EXACT, ops[..m]).hot, c, k, tok) + LogCount(p, Since(p, ops, m), c, Token(k, tok)) <= U16_MAX
    ensures var h, h' := Run(p, EXACT, ops[..m]).hot, Run(p, EXACT, ops).hot;
            && Roomy(p, h', c, all)
            && (Gone(h', c) <==> Gone(h, c) && LogCount(p, Since(p, ops, m), c, Anything) == 0)
            && Base(h', c, k, tok) == Base(h, c, k, tok) + LogCount(p, Since(p, ops, m), c, Token(k, tok))
  {
    hide Step, Base, Gone, EventCount, LogCount, MentionOnly, Quiet, Dict.Valid;
    NothingLogged(p, c);
    if |ops| == m {
      assert ops[..m] == ops;
      RoomAtStart(p, ops, c, all);
    } else {
      var before, op := ops[..|ops| - 1], ops[|ops| - 1];
      var st := Run(p, EXACT, before);
      var evs := if op.Drain? then st.queue[..DrainCount(st.queue, op.limit)] else [];
      QuietPrefix(p, ops, m, c);
      QuietCounts(p, before, m, c);
      QuietLast(p, ops, m, c);
      Bounds.RunBounded(p, EXACT, before);
      StepGrows(p, st, op);
      MentionSplit(p, Since(p, before, m), evs, c, all);
      forall w ensures LogCount(p, Since(p, ops, m), c, w) ==
                       LogCount(p, Since(p, before, m), c, w) + LogCount(p, evs, c, w)
      {
        LogCountConcat(p, Since(p, before, m), evs, c, w);
      }
      CountsExact(p, before, m, c, k, tok, all);
      StepExactly(p, st, op, c, k, tok, all);
    }
  }

  lemma RoomAtStart(p: StoreParams, ops: seq<Op>, c: Context, all: set<int>)
    requires WellFormedOps(ops) && RoomFor(p, Run(p, EXACT, ops).hot, c, all)
    ensures Roomy(p, Run(p, EXACT, ops).hot, c, all)
  {
    hide Run;
    if c in Run(p, EXACT, ops).hot.table.m { OwnScope(p, ops, c); }
  }

  lemma QuietLast(p: StoreParams, ops: seq<Op>, m: nat, c: Context)
    requires WellFormedOps(ops) && m < |ops| && Quiet(p, ops, m, c)
    ensures !ops[|ops| - 1].Compact? && (ops[|ops| - 1].Bump? ==> ops[|ops| - 1].scope != c.scope)
    ensures p.compactEvery > 0 ==>
              Run(p, EXACT, ops[..m]).sinceCompact + |Since(p, ops, m)| < p.compactEvery
  {
  }

  // ---------------------------------------------------------------- from the start

  lemma SinceStart(p: StoreParams, ops: seq<Op>)
    requires WellFormedOps(ops)
    ensures Since(p, ops, 0) == Bounds.AppliedLog(p, EXACT, ops)
    ensures Run(p, EXACT, ops[..0]) == EmptyStore()
  {
    SinceIsLog(p, ops, 0);
    assert ops[..0] == [];
  }

  /** A count is at most the number of applied positions that show it in the context. */
  lemma AtMostSeen(p: StoreParams, ops: seq<Op>, c: Context, k: Counter, tok: int)
    requires WellFormedOps(ops)
    ensures CountAt(Run(p, EXACT, ops).hot, c, k, tok) <=
            LogCount(p, Bounds.AppliedLog(p, EXACT, ops), c, Token(k, tok))
  {
    hide Run, LogCount, Since, Bounds.AppliedLog;
    SinceStart(p, ops);
    CountsBounded(p, ops, 0, c, k, tok);
    NothingCounted(EmptyHot(), c, k, tok);
  }

  /** Nothing was compacted, evicted, saturated or edited away in this context: a condition on the operations, the
      parameters and the final size of the table. */
  ghost predicate Undisturbed(p: StoreParams, ops: seq<Op>, c: Context, k: Counter, tok: int, all: set<int>)
    requires WellFormedOps(ops)
  {
    var log := Bounds.AppliedLog(p, EXACT, ops);
    && (forall i :: 0 <= i < |ops| ==> !ops[i].Compact? && (ops[i].Bump? ==> ops[i].scope != c.scope))
    && (p.compactEvery == 0 || |log| < p.compactEvery)
    && NoEviction(p, Run(p, EXACT, ops).hot)
    && |all| <= p.entry.kInit && MentionOnly(p, log, c, all)
    && LogCount(p, log, c, Token(k, tok)) <= U16_MAX
  }

  lemma ExactlySeen(p: StoreParams, ops: seq<Op>, c: Context, k: Counter, tok: int, all: set<int>)
    requires WellFormedOps(ops) && Undisturbed(p, ops, c, k, tok, all)
    ensures CountAt(Run(p, EXACT, ops).hot, c, k, tok) ==
            LogCount(p, Bounds.AppliedLog(p, EXACT, ops), c, Token(k, tok))
  {
    hide LogCount, Since, Bounds.AppliedLog, MentionOnly;
    SinceStart(p, ops);
    NothingCounted(EmptyHot(), c, k, tok);
    CountsExact(p, ops, 0, c, k, tok, all);
    AtMostSeen(p, ops, c, k, tok);
  }

  // ---------------------------------------------------------------- the file of an entry

  /** Some applied position stands in the context, in code, in an event of this file. */
  ghost predicate CodeOf(p: StoreParams, evs: seq<Event>, c: Context, file: int) {
    exists i, pos: nat ::
      && 0 <= i < |evs| && pos < |evs[i].Realized()| && SeenIn(p, evs[i], pos, c)
      && evs[i].SegAt(pos) == CODE && evs[i].fileId == file
  }

  ghost predicate FilesFrom(ts: seq<Touch<Context>>, c: Context, files: iset<int>) {
    forall i :: 0 <= i < |ts| && ts[i].key == c && ts[i].dom != 0 ==> ts[i].dom in files
  }

  lemma {:induction false} DepthFiles(p: StoreParams, s: Site, o: Observation, order: nat, depth: nat, c: Context,
                                      files: iset<int>)
    requires (order == c.order && c.toks == Signatures.LastTokens(s.before, order) && c.seg == s.seg % 4 &&
              s.dom != 0) ==> s.dom in files
    ensures FilesFrom(DepthTouches(p, EXACT, s, o, order, depth), c, files)
    decreases |s.scopes| - depth
  {
    if depth < |s.scopes| { DepthFiles(p, s, o, order, depth + 1, c, files); }
  }

  lemma {:induction false} OrderFiles(p: StoreParams, s: Site, o: Observation, order: nat, c: Context, files: iset<int>)
    requires (order <= c.order <= 8 && c.order <= |s.before| && c.order in p.orders &&
              c.toks == Signatures.LastTokens(s.before, c.order) && c.seg == s.seg % 4 && s.dom != 0) ==> s.dom in files
    ensures FilesFrom(OrderTouches(p, EXACT, s, o, order), c, files)
    decreases Signatures.MAX_ORDER + 1 - order
  {
    if order <= Signatures.MAX_ORDER && order <= |s.before| {
      OrderFiles(p, s, o, order + 1, c, files);
      if order in p.orders { DepthFiles(p, s, o, order, 0, c, files); }
    }
  }

  lemma {:induction false} EventFiles(p: StoreParams, ev: Event, pos: nat, c: Context, files: iset<int>)
    requires ev.WellFormed() && pos <= |ev.Realized()|
    requires forall i: nat :: i < |ev.Realized()| && SeenIn(p, ev, i, c) && ev.SegAt(i) == CODE && ev.fileId != 0 ==>
               ev.fileId in files
    ensures FilesFrom(EventTouches(p, EXACT, ev, pos), c, files)
    decreases |ev.Realized()| - pos
  {
    hide OrderTouches, Event.SegAt, ObservationAt;
    if pos < |ev.Realized()| {
      EventFiles(p, ev, pos + 1, c, files);
      OrderFiles(p, SiteAt(ev, pos), ObservationAt(ev, pos), 2, c, files);
    }
  }

  /** The context's entry, if there is one, belongs to no file or to one of these. */
  ghost predicate FiledIn(h: Hot<Context>, c: Context, files: iset<int>) {
    c in h.table.m && h.table.m[c].dom != 0 ==> h.table.m[c].dom in files
  }

  lemma TouchFiled(p: StoreParams, h: Hot<Context>, t: Touch<Context>, c: Context, files: iset<int>)
    requires FiledIn(h, c, files) && (t.key == c && t.dom != 0 ==> t.dom in files)
    ensures FiledIn(ApplyTouch(p, h, t), c, files)
  {
    hide Observed;
    if c in ApplyTouch(p, h, t).table.m {
      Epochs.TouchedEntry(p, h, t, c);
      if t.key == c {
        Epochs.ObservedKeepsStamp(p.entry, GetOrCreate(p, h, c, t.seg, t.dom, t.scope).table.m[c], t.obs);
      }
    }
  }

  lemma {:induction false} TouchesFiled(p: StoreParams, h: Hot<Context>, ts: seq<Touch<Context>>, c: Context,
                                        files: iset<int>)
    requires FiledIn(h, c, files) && FilesFrom(ts, c, files)
    ensures FiledIn(ApplyTouches(p, h, ts), c, files)
    decreases |ts|
  {
    hide ApplyTouch, FiledIn;
    if ts != [] {
      TouchFiled(p, h, ts[0], c, files);
      TouchesFiled(p, ApplyTouch(p, h, ts[0]), ts[1..], c, files);
    }
  }

  lemma {:induction false} EventsFiled(p: StoreParams, h: Hot<Context>, evs: seq<Event>, c: Context, files: iset<int>)
    requires WellFormedQueue(evs) && FiledIn(h, c, files)
    requires forall file :: CodeOf(p, evs, c, file) ==> file in files
    ensures FiledIn(ApplyEvents(p, EXACT, h, evs), c, files)
  {
    hide ApplyTouches, EventTouches, FiledIn, SeenIn, Event.SegAt;
    if evs != [] {
      var before, ev := evs[..|evs| - 1], evs[|evs| - 1];
      forall file ensures CodeOf(p, before, c, file) ==> CodeOf(p, evs, c, file) {
        MoreCode(p, before, [ev], c, file);
        assert before + [ev] == evs;
      }
      EventsFiled(p, h, before, c, files);
      forall i: nat | i < |ev.Realized()| && SeenIn(p, ev, i, c) && ev.SegAt(i) == CODE && ev.fileId != 0
        ensures ev.fileId in files
      {
        assert evs[|evs| - 1] == ev;
        assert CodeOf(p, evs, c, ev.fileId);
      }
      EventFiles(p, ev, 0, c, files);
      TouchesFiled(p, ApplyEvents(p, EXACT, h, before), EventTouches(p, EXACT, ev, 0), c, files);
    }
  }

  lemma MoreCode(p: StoreParams, a: seq<Event>, b: seq<Event>, c: Context, file: int)
    ensures CodeOf(p, a, c, file) || CodeOf(p, b, c, file) ==> CodeOf(p, a + b, c, file)
  {
    hide SeenIn, Event.SegAt;
    if i, pos: nat :| 0 <= i < |a| && pos < |a[i].Realized()| && SeenIn(p, a[i], pos, c) &&
                      a[i].SegAt(pos) == CODE && a[i].fileId == file {
      assert (a + b)[i] == a[i];
    }
    if i, pos: nat :| 0 <= i < |b| && pos < |b[i].Realized()| && SeenIn(p, b[i], pos, c) &&
                      b[i].SegAt(pos) == CODE && b[i].fileId == file {
      assert (a + b)[|a| + i] == b[i];
    }
  }

  /** In every run an entry belongs to no file, or to a file whose code was observed in that very context. */
  lemma {:induction false} FileIsObserved(p: StoreParams, ops: seq<Op>, c: Context)
    requires WellFormedOps(ops)
    ensures FiledIn(Run(p, EXACT, ops).hot, c, iset file | CodeOf(p, Bounds.AppliedLog(p, EXACT, ops), c, file))
  {
    hide ApplyEvents, CompactFrom, Harvest, CodeOf;
    if ops != [] {
      var before, op := ops[..|ops| - 1], ops[|ops| - 1];
      FileIsObserved(p, before, c);
      var st, log := Run(p, EXACT, before), Bounds.AppliedLog(p, EXACT, before);
      var evs := if op.Drain? then st.queue[..DrainCount(st.queue, op.limit)] else [];
      var files := iset file | CodeOf(p, log + evs, c, file);
      forall file ensures CodeOf(p, log, c, file) || CodeOf(p, evs, c, file) ==> CodeOf(p, log + evs, c, file) {
        MoreCode(p, log, evs, c, file);
      }
      if op.Drain? {
        EventsFiled(p, st.hot, evs, c, files);
        CompactFiled(p.entry, ApplyEvents(p, EXACT, st.hot, evs), c, files);
      }
      CompactFiled(p.entry, st.hot, c, files);
    }
  }

  lemma CompactFiled(p: Params, h: Hot<Context>, c: Context, files: iset<int>)
    requires FiledIn(h, c, files)
    ensures FiledIn(Compacted(p, h), c, files)
  {
    hide CompactFrom, Decayed;
    if c in Compacted(p, h).table.m {
      Epochs.CompactedEntry(p, h, h.table.keys, c);
      Epochs.DecayedKeepsStamp(p, h.table.m[c]);
    }
  }

  /** So an edit never touches what was learned outside code: such entries are always fresh. */
  lemma OnlyCodeGoesStale(p: StoreParams, ops: seq<Op>, c: Context)
    requires WellFormedOps(ops) && c.seg != CODE && c in Run(p, EXACT, ops).hot.table.m
    ensures Run(p, EXACT, ops).hot.IsFresh(Run(p, EXACT, ops).hot.table.m[c])
  {
    hide Run, Bounds.AppliedLog, Event.SegAt;
    FileIsObserved(p, ops, c);
    NotCode(p, Bounds.AppliedLog(p, EXACT, ops), c);
    Epochs.ExactFreshIff(p, ops, c);
  }

  lemma NotCode(p: StoreParams, evs: seq<Event>, c: Context)
    requires c.seg != CODE
    ensures forall file :: !CodeOf(p, evs, c, file)
  {
  }
}
