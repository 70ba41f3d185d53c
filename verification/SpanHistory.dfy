/** What spans and runs keep over any sequence of applied events, epoch bumps, flushes and compactions. */
module SpanHistory {
  import opened Bits
  import opened Dicts
  import opened HotEntries
  import opened Signatures
  import opened Types
  import opened HotTables
  import opened Spans

  datatype SpanOp = SApply(ev: Event) | SBump(scope: Word, file: int) | SFlush | SCompact

  datatype World = World(epochs: EpochTable, st: SpanState)

  /** A run is closed: registered as a span if long enough, and forgotten. */
  function FlushOne(p: StoreParams, epochs: EpochTable, st: SpanState, sid: Word): (r: SpanState)
    requires RunsOk(st.runs) && sid in st.runs.m
    ensures RunsOk(r.runs) && sid !in r.runs.m
  {
    RemoveValid(st.runs, sid);
    SpanState(Flushed(p, epochs, st.spans, st.runs.m[sid]), st.runs.Remove(sid))
  }

  function FlushAll(p: StoreParams, epochs: EpochTable, st: SpanState): (r: SpanState)
    requires RunsOk(st.runs)
    ensures RunsOk(r.runs)
    decreases |st.runs.keys|
  {
    if st.runs.keys == [] then st else
      WithoutFirst(st.runs.keys);
      FlushAll(p, epochs, FlushOne(p, epochs, st, st.runs.keys[0]))
  }

  lemma WithoutFirst<K(!new)>(keys: seq<K>)
    requires keys != []
    ensures |Without(keys, keys[0])| < |keys|
  {
    WithoutShorter(keys[1..], keys[0]);
  }

  lemma {:induction false} WithoutShorter<K(!new)>(keys: seq<K>, k: K)
    ensures |Without(keys, k)| <= |keys|
  {
    if keys != [] { WithoutShorter(keys[1..], k); }
  }

  function WorldStep(p: StoreParams, w: World, op: SpanOp): (r: World)
    requires RunsOk(w.st.runs) && (op.SApply? ==> op.ev.scopes != [])
    ensures RunsOk(r.st.runs)
  {
    match op
    case SApply(ev) => w.(st := AppliedSpans(p, w.epochs, w.st, ev))
    case SBump(scope, file) => w.(epochs := BumpEpoch(Hot<Word>.Hot(EmptyDict(), w.epochs), scope, file).epochs)
    case SFlush => w.(st := FlushAll(p, w.epochs, w.st))
    case SCompact => w.(st := w.st.(spans := CompactedSpans(p.entry, w.epochs, w.st.spans)))
  }

  ghost predicate SpanOpsOk(ops: seq<SpanOp>) {
    forall i :: 0 <= i < |ops| && ops[i].SApply? ==> ops[i].ev.scopes != []
  }

  function WorldRun(p: StoreParams, ops: seq<SpanOp>): (w: World)
    requires SpanOpsOk(ops)
    ensures RunsOk(w.st.runs)
  {
    if ops == [] then World(map[], SpanState(map[], EmptyDict()))
    else WorldStep(p, WorldRun(p, ops[..|ops| - 1]), ops[|ops| - 1])
  }

  /** The events applied so far. */
  function Applied(ops: seq<SpanOp>): seq<Event> {
    if ops == [] then [] else
      Applied(ops[..|ops| - 1]) + if ops[|ops| - 1].SApply? then [ops[|ops| - 1].ev] else []
  }

  // ---------------------------------------------------------------- breaks are tied to content

  ghost predicate RejectedAt(ev: Event, toks: seq<int>, b: nat)
    requires b < |toks|
  {
    ev.acceptedLen == b < |ev.draft| && ev.draft[..b + 1] == toks[..b + 1]
  }

  /** How many events drafted along these tokens and were rejected exactly at offset `b`. */
  ghost function Rejections(hist: seq<Event>, toks: seq<int>, b: nat): nat
    requires b < |toks|
  {
    if hist == [] then 0 else
      Rejections(hist[..|hist| - 1], toks, b) + if RejectedAt(hist[|hist| - 1], toks, b) then 1 else 0
  }

  /** A break inside the body, counted at least once and no more often than it happened. */
  ghost predicate Supported(hist: seq<Event>, toks: seq<int>, b: nat, count: nat) {
    b < |toks| && 1 <= count <= Rejections(hist, toks, b)
  }

  ghost predicate SpanOk(hist: seq<Event>, s: Span) {
    forall b :: b in s.breaks ==> Supported(hist, s.toks, b, s.breaks[b].count)
  }

  ghost predicate SpansOk(hist: seq<Event>, spans: map<Word, Span>) {
    forall k :: k in spans ==> SpanOk(hist, spans[k])
  }

  /** Some event's draft followed the tokens up to a supported break and was rejected exactly there. */
  lemma {:induction false} BreakHasWitness(hist: seq<Event>, toks: seq<int>, b: nat, count: nat)
    requires Supported(hist, toks, b, count)
    ensures exists i :: 0 <= i < |hist| && RejectedAt(hist[i], toks, b)
  {
    if !RejectedAt(hist[|hist| - 1], toks, b) {
      BreakHasWitness(hist[..|hist| - 1], toks, b, count);
    }
  }

  /** Rejections are those of the tokens up to the offset alone. */
  lemma {:induction false} SameRejections(hist: seq<Event>, a: seq<int>, c: seq<int>, b: nat)
    requires b < |a| && b < |c| && a[..b + 1] == c[..b + 1]
    ensures Rejections(hist, a, b) == Rejections(hist, c, b)
  {
    if hist != [] { SameRejections(hist[..|hist| - 1], a, c, b); }
  }

  lemma OneMoreRejection(hist: seq<Event>, ev: Event, toks: seq<int>, b: nat)
    requires b < |toks|
    ensures Rejections(hist + [ev], toks, b) == Rejections(hist, toks, b) + if RejectedAt(ev, toks, b) then 1 else 0
  {
    assert (hist + [ev])[..|hist|] == hist;
  }

  /** Revising a span keeps its breaks honest: a new body keeps only those before the first difference. */
  lemma RevisedOk(hist: seq<Event>, epochs: EpochTable, s: Span, run: OpenRun, scope: Word)
    requires SpanOk(hist, s)
    ensures SpanOk(hist, Revised(epochs, s, run, scope))
  {
    hide Rejections;
    var r := Revised(epochs, s, run, scope);
    var d := Divergence(s.toks, run.toks);
    DivergenceIsPrefix(s.toks, run.toks);
    forall b | b in r.breaks ensures Supported(hist, r.toks, b, r.breaks[b].count) {
      assert b in s.breaks && Supported(hist, s.toks, b, s.breaks[b].count);
      if r.toks != s.toks {
        assert s.toks[..b + 1] == s.toks[..d][..b + 1];
        assert run.toks[..b + 1] == run.toks[..d][..b + 1];
        SameRejections(hist, s.toks, run.toks, b);
      }
    }
  }

  lemma RegisteredOk(hist: seq<Event>, epochs: EpochTable, spans: map<Word, Span>, run: OpenRun, key: Word, scope: Word)
    requires SpansOk(hist, spans)
    ensures SpansOk(hist, Registered(epochs, spans, run, key, scope))
  {
    hide Revised, Supported;
    if key in spans { RevisedOk(hist, epochs, spans[key], run, scope); }
  }

  lemma {:induction false} RegisterDepthsOk(hist: seq<Event>, p: StoreParams, epochs: EpochTable,
                                            spans: map<Word, Span>, run: OpenRun, order: nat, depth: nat)
    requires SpansOk(hist, spans) && 2 <= order < 2 + |run.startSigs| && order <= MAX_ORDER
    ensures SpansOk(hist, RegisterDepths(p, epochs, spans, run, order, depth))
    decreases |run.scopes| - depth
  {
    hide Registered, SpansOk, SpanKey;
    if depth < |run.scopes| {
      var scope := run.scopes[depth];
      var key := SpanKey(run.startSigs[order - 2], order, scope, run.seg);
      RegisteredOk(hist, epochs, spans, run, key, scope);
      RegisterDepthsOk(hist, p, epochs,
                       if depth in p.spanScopeDepths then Registered(epochs, spans, run, key, scope) else spans,
                       run, order, depth + 1);
    }
  }

  lemma {:induction false} RegisterOrdersOk(hist: seq<Event>, p: StoreParams, epochs: EpochTable,
                                            spans: map<Word, Span>, run: OpenRun, order: nat)
    requires SpansOk(hist, spans) && 2 <= order && |run.startSigs| <= 7
    ensures SpansOk(hist, RegisterOrders(p, epochs, spans, run, order))
    decreases 2 + |run.startSigs| - order
  {
    hide RegisterDepths, SpansOk;
    if order < 2 + |run.startSigs| {
      RegisterDepthsOk(hist, p, epochs, spans, run, order, 0);
      RegisterOrdersOk(hist, p, epochs,
                       if order in p.spanOrders then RegisterDepths(p, epochs, spans, run, order, 0) else spans,
                       run, order + 1);
    }
  }

  lemma FlushedOk(hist: seq<Event>, p: StoreParams, epochs: EpochTable, spans: map<Word, Span>, run: OpenRun)
    requires SpansOk(hist, spans) && |run.startSigs| <= 7
    ensures SpansOk(hist, Flushed(p, epochs, spans, run))
  {
    RegisterOrdersOk(hist, p, epochs, spans, run, 2);
  }

  lemma {:induction false} TrackedEventOk(hist: seq<Event>, p: StoreParams, epochs: EpochTable, st: SpanState,
                                          ev: Event, pos: nat)
    requires SpansOk(hist, st.spans) && RunsOk(st.runs) && pos <= |ev.Realized()| && ev.scopes != []
    ensures SpansOk(hist, TrackedEvent(p, epochs, st, ev, pos).spans)
    decreases |ev.Realized()| - pos
  {
    hide SpansOk, TrackedRuns, SiteAt, Flushed;
    if pos < |ev.Realized()| {
      var s, tok := SiteAt(ev, pos), ev.Realized()[pos];
      TrackedRunsOk(p, st.runs, ev.scopes[0], s, tok);
      if MustFlush(p, st.runs, ev.scopes[0], s.seg) { FlushedOk(hist, p, epochs, st.spans, st.runs.m[ev.scopes[0]]); }
      TrackedEventOk(hist, p, epochs, Tracked(p, epochs, st, ev.scopes[0], s, tok), ev, pos + 1);
    }
  }

  lemma MoreHistoryFor(hist: seq<Event>, ev: Event, s: Span)
    requires SpanOk(hist, s)
    ensures SpanOk(hist + [ev], s)
  {
    hide Rejections;
    forall b | b in s.breaks ensures Supported(hist + [ev], s.toks, b, s.breaks[b].count) {
      assert Supported(hist, s.toks, b, s.breaks[b].count);
      OneMoreRejection(hist, ev, s.toks, b);
    }
  }

  /** A break is counted only where the draft and the span's current body agree up to and including the rejected token,
      and only once for an event. */
  lemma OutcomeOk(hist: seq<Event>, p: StoreParams, s: Span, ev: Event)
    requires SpanOk(hist, s)
    ensures SpanOk(hist + [ev], Outcome(p, s, ev))
  {
    hide PatchKey, Rejections;
    var r := Outcome(p, s, ev);
    forall b | b in r.breaks ensures Supported(hist + [ev], r.toks, b, r.breaks[b].count) {
      assert b in s.breaks ==> Supported(hist, s.toks, b, s.breaks[b].count);
      OneMoreRejection(hist, ev, r.toks, b);
    }
  }

  lemma AppliedSpansOk(hist: seq<Event>, p: StoreParams, epochs: EpochTable, st: SpanState, ev: Event)
    requires SpansOk(hist, st.spans) && RunsOk(st.runs) && ev.scopes != []
    ensures SpansOk(hist + [ev], AppliedSpans(p, epochs, st, ev).spans)
  {
    hide TrackedEvent, SpanAtStart, Outcome, SpanOk;
    var st1 := if p.version < 2 then st else TrackedEvent(p, epochs, st, ev, 0);
    if p.version >= 2 {
      TrackedEventOk(hist, p, epochs, st, ev, 0);
      TrackingKeepsKeys(p, epochs, st, ev, 0);
      var start := SpanAtStart(p, epochs, st.spans, ev);
      if start.Some? {
        assert start.value in st1.spans;
        OutcomeOk(hist, p, st1.spans[start.value], ev);
      }
    }
    forall k | k in st1.spans ensures SpanOk(hist + [ev], st1.spans[k]) {
      MoreHistoryFor(hist, ev, st1.spans[k]);
    }
  }

  lemma CompactedSpansOk(hist: seq<Event>, p: Params, epochs: EpochTable, spans: map<Word, Span>)
    requires SpansOk(hist, spans)
    ensures SpansOk(hist, CompactedSpans(p, epochs, spans))
  {
    hide Rejections, Shr;
    var c := CompactedSpans(p, epochs, spans);
    forall k | k in c ensures SpanOk(hist, c[k]) {
      assert SpanOk(hist, spans[k]);
      forall b | b in c[k].breaks ensures Supported(hist, c[k].toks, b, c[k].breaks[b].count) {
        assert Supported(hist, spans[k].toks, b, spans[k].breaks[b].count);
        ShrSmaller(spans[k].breaks[b].count, p.decayShift);
      }
    }
  }

  lemma {:induction false} FlushAllOk(hist: seq<Event>, p: StoreParams, epochs: EpochTable, st: SpanState)
    requires SpansOk(hist, st.spans) && RunsOk(st.runs)
    ensures SpansOk(hist, FlushAll(p, epochs, st).spans)
    decreases |st.runs.keys|
  {
    hide SpansOk, Flushed;
    if st.runs.keys != [] {
      WithoutFirst(st.runs.keys);
      FlushedOk(hist, p, epochs, st.spans, st.runs.m[st.runs.keys[0]]);
      FlushAllOk(hist, p, epochs, FlushOne(p, epochs, st, st.runs.keys[0]));
    }
  }

  /** In every reachable state each break offset lies inside its span, and its count is positive and at most the number
      of applied events whose draft ran along the span's current tokens and was rejected exactly there. */
  lemma {:induction false} BreaksFollowContent(p: StoreParams, ops: seq<SpanOp>)
    requires SpanOpsOk(ops)
    ensures SpansOk(Applied(ops), WorldRun(p, ops).st.spans)
  {
    hide SpansOk, AppliedSpans, FlushAll, CompactedSpans;
    if ops == [] {
      NoSpans();
    } else {
      var before, op := ops[..|ops| - 1], ops[|ops| - 1];
      BreaksFollowContent(p, before);
      var w, hist := WorldRun(p, before), Applied(before);
      match op
      case SApply(ev) => AppliedSpansOk(hist, p, w.epochs, w.st, ev);
      case SBump(_, _) => assert hist + [] == hist;
      case SFlush =>
        assert hist + [] == hist;
        FlushAllOk(hist, p, w.epochs, w.st);
      case SCompact =>
        assert hist + [] == hist;
        CompactedSpansOk(hist, p.entry, w.epochs, w.st.spans);
    }
  }

  lemma NoSpans()
    ensures SpansOk([], map[])
  {
  }

  // ---------------------------------------------------------------- runs partition each session

  type Tagged = (int, int)

  /** The tokens of a run, each with the run's segment. */
  function RunTokens(r: OpenRun): seq<Tagged> {
    seq(|r.toks|, i requires 0 <= i < |r.toks| => (r.toks[i], r.seg))
  }

  function OpenTokens(runs: Dict<Word, OpenRun>, sid: Word): seq<Tagged> {
    if sid in runs.m then RunTokens(runs.m[sid]) else []
  }

  datatype Closed = Closed(sid: Word, run: OpenRun)

  function ClosedTokens(log: seq<Closed>, sid: Word): seq<Tagged> {
    if log == [] then [] else
      ClosedTokens(log[..|log| - 1], sid) + if log[|log| - 1].sid == sid then RunTokens(log[|log| - 1].run) else []
  }

  /** The runs closed while an event is tracked from position `pos` on, in order. */
  function EventLog(p: StoreParams, epochs: EpochTable, st: SpanState, ev: Event, pos: nat): seq<Closed>
    requires RunsOk(st.runs) && pos <= |ev.Realized()| && ev.scopes != []
    decreases |ev.Realized()| - pos
  {
    if pos == |ev.Realized()| then [] else
      var sid, s, tok := ev.scopes[0], SiteAt(ev, pos), ev.Realized()[pos];
      TrackedRunsOk(p, st.runs, sid, s, tok);
      (if MustFlush(p, st.runs, sid, s.seg) then [Closed(sid, st.runs.m[sid])] else [])
      + EventLog(p, epochs, Tracked(p, epochs, st, sid, s, tok), ev, pos + 1)
  }

  function FlushLog(p: StoreParams, epochs: EpochTable, st: SpanState): seq<Closed>
    requires RunsOk(st.runs)
    decreases |st.runs.keys|
  {
    if st.runs.keys == [] then [] else
      WithoutFirst(st.runs.keys);
      [Closed(st.runs.keys[0], st.runs.m[st.runs.keys[0]])] +
      FlushLog(p, epochs, FlushOne(p, epochs, st, st.runs.keys[0]))
  }

  function RunLog(p: StoreParams, ops: seq<SpanOp>): seq<Closed>
    requires SpanOpsOk(ops)
  {
    if ops == [] then [] else
      var w, op := WorldRun(p, ops[..|ops| - 1]), ops[|ops| - 1];
      RunLog(p, ops[..|ops| - 1]) +
      match op
      case SApply(ev) => if p.version >= 2 then EventLog(p, w.epochs, w.st, ev, 0) else []
      case SFlush => FlushLog(p, w.epochs, w.st)
      case _ => []
  }

  /** What an event realizes from position `pos` on, each token with its segment. */
  function EventTokens(ev: Event, pos: nat): seq<Tagged>
    requires pos <= |ev.Realized()|
    decreases |ev.Realized()| - pos
  {
    if pos == |ev.Realized()| then [] else [(ev.Realized()[pos], ev.SegAt(pos))] + EventTokens(ev, pos + 1)
  }

  function SessionTokens(ops: seq<SpanOp>, sid: Word): seq<Tagged> {
    if ops == [] then [] else
      var op := ops[|ops| - 1];
      SessionTokens(ops[..|ops| - 1], sid)
      + if op.SApply? && op.ev.scopes != [] && op.ev.scopes[0] == sid then EventTokens(op.ev, 0) else []
  }

  lemma {:induction false} ClosedConcat(a: seq<Closed>, b: seq<Closed>, sid: Word)
    ensures ClosedTokens(a + b, sid) == ClosedTokens(a, sid) + ClosedTokens(b, sid)
  {
    if b == [] {
      assert a + b == a;
    } else {
      assert (a + b)[..|a + b| - 1] == a + b[..|b| - 1];
      ClosedConcat(a, b[..|b| - 1], sid);
    }
  }

  lemma OneClosed(c: Closed, sid: Word)
    ensures ClosedTokens([c], sid) == if c.sid == sid then RunTokens(c.run) else []
  {
    assert [c][..0] == [];
    assert ClosedTokens([], sid) == [];
  }

  /** One token: what was closed by it, then the open run, is the old open run and the token. */
  lemma TrackOne(p: StoreParams, runs: Dict<Word, OpenRun>, sid: Word, s: Site, tok: int, other: Word)
    requires RunsOk(runs)
    ensures var closed := if MustFlush(p, runs, sid, s.seg) then [Closed(sid, runs.m[sid])] else [];
            ClosedTokens(closed, other) + OpenTokens(TrackedRuns(p, runs, sid, s, tok), other)
            == OpenTokens(runs, other) + if other == sid then [(tok, s.seg)] else []
  {
    hide StackOf;
    var after := TrackedRuns(p, runs, sid, s, tok);
    if MustFlush(p, runs, sid, s.seg) { OneClosed(Closed(sid, runs.m[sid]), other); }
    if other == sid {
      if MustFlush(p, runs, sid, s.seg) || sid !in runs.m {
        assert RunTokens(after.m[sid]) == [(tok, s.seg)];
      } else {
        assert RunTokens(after.m[sid]) == RunTokens(runs.m[sid]) + [(tok, s.seg)];
      }
    }
  }

  lemma {:induction false} EventPartition(p: StoreParams, epochs: EpochTable, st: SpanState, ev: Event, pos: nat,
                                          sid: Word)
    requires RunsOk(st.runs) && pos <= |ev.Realized()| && ev.scopes != []
    ensures ClosedTokens(EventLog(p, epochs, st, ev, pos), sid) +
            OpenTokens(TrackedEvent(p, epochs, st, ev, pos).runs, sid)
         == OpenTokens(st.runs, sid) + if sid == ev.scopes[0] then EventTokens(ev, pos) else []
    decreases |ev.Realized()| - pos
  {
    hide TrackedRuns, ClosedTokens, OpenTokens, Flushed;
    NoClosed(sid);
    if pos < |ev.Realized()| {
      var s, tok := SiteAt(ev, pos), ev.Realized()[pos];
      TrackedRunsOk(p, st.runs, ev.scopes[0], s, tok);
      var st1 := Tracked(p, epochs, st, ev.scopes[0], s, tok);
      var closed :=
        if MustFlush(p, st.runs, ev.scopes[0], s.seg) then [Closed(ev.scopes[0], st.runs.m[ev.scopes[0]])] else [];
      TrackOne(p, st.runs, ev.scopes[0], s, tok, sid);
      EventPartition(p, epochs, st1, ev, pos + 1, sid);
      var rest := EventLog(p, epochs, st1, ev, pos + 1);
      ClosedConcat(closed, rest, sid);
      Regroup(ClosedTokens(closed, sid), ClosedTokens(rest, sid), OpenTokens(st1.runs, sid),
              OpenTokens(TrackedEvent(p, epochs, st1, ev, pos + 1).runs, sid), OpenTokens(st.runs, sid),
              if sid == ev.scopes[0] then [(tok, s.seg)] else [],
              if sid == ev.scopes[0] then EventTokens(ev, pos + 1) else []);
    }
  }

  lemma NoClosed(sid: Word)
    ensures ClosedTokens([], sid) == []
  {
  }

  lemma Regroup(c: seq<Tagged>, r: seq<Tagged>, o1: seq<Tagged>, o2: seq<Tagged>, o: seq<Tagged>, t: seq<Tagged>,
                ts: seq<Tagged>)
    requires c + o1 == o + t && r + o2 == o1 + ts
    ensures (c + r) + o2 == o + (t + ts)
  {
    assert (c + r) + o2 == c + (r + o2) == (c + o1) + ts;
  }

  lemma OneFlushed(p: StoreParams, epochs: EpochTable, st: SpanState, first: Word, sid: Word)
    requires RunsOk(st.runs) && first in st.runs.m
    ensures ClosedTokens([Closed(first, st.runs.m[first])], sid) +
            OpenTokens(FlushOne(p, epochs, st, first).runs, sid) == OpenTokens(st.runs, sid)
  {
    hide ClosedTokens, Flushed, RunTokens, RunsOk;
    OneClosed(Closed(first, st.runs.m[first]), sid);
  }

  lemma FlushUnfolds(p: StoreParams, epochs: EpochTable, st: SpanState)
    requires RunsOk(st.runs)
    ensures st.runs.keys == [] ==> FlushLog(p, epochs, st) == [] && FlushAll(p, epochs, st) == st
    ensures st.runs.keys != [] ==>
              var first := st.runs.keys[0];
              && first in st.runs.m && RunsOk(FlushOne(p, epochs, st, first).runs)
              && |FlushOne(p, epochs, st, first).runs.keys| < |st.runs.keys|
              && FlushLog(p, epochs, st) ==
                 [Closed(first, st.runs.m[first])] + FlushLog(p, epochs, FlushOne(p, epochs, st, first))
              && FlushAll(p, epochs, st) == FlushAll(p, epochs, FlushOne(p, epochs, st, first))
  {
    hide Flushed, Without;
    if st.runs.keys != [] { WithoutFirst(st.runs.keys); }
  }

  lemma {:induction false} FlushPartition(p: StoreParams, epochs: EpochTable, st: SpanState, sid: Word)
    requires RunsOk(st.runs)
    ensures ClosedTokens(FlushLog(p, epochs, st), sid) + OpenTokens(FlushAll(p, epochs, st).runs, sid) ==
            OpenTokens(st.runs, sid)
    decreases |st.runs.keys|
  {
    hide ClosedTokens, OpenTokens, FlushOne, FlushLog, FlushAll, RunsOk;
    NoClosed(sid);
    FlushUnfolds(p, epochs, st);
    if st.runs.keys != [] {
      var first := st.runs.keys[0];
      var st1 := FlushOne(p, epochs, st, first);
      FlushPartition(p, epochs, st1, sid);
      ClosedConcat([Closed(first, st.runs.m[first])], FlushLog(p, epochs, st1), sid);
      OneFlushed(p, epochs, st, first, sid);
    }
  }

  /** For each session, the closed runs followed by the open one spell out exactly what the session realized. */
  lemma {:induction false} RunsPartitionSessions(p: StoreParams, ops: seq<SpanOp>, sid: Word)
    requires SpanOpsOk(ops) && p.version >= 2
    ensures ClosedTokens(RunLog(p, ops), sid) + OpenTokens(WorldRun(p, ops).st.runs, sid) == SessionTokens(ops, sid)
  {
    hide ClosedTokens, EventLog, FlushLog, FlushAll, TrackedEvent, OpenTokens, EventTokens, CompactedSpans;
    NoClosed(sid);
    if ops == [] {
      NoOpen(sid);
    } else {
      var before, op := ops[..|ops| - 1], ops[|ops| - 1];
      RunsPartitionSessions(p, before, sid);
      var w, log := WorldRun(p, before), RunLog(p, before);
      match op
      case SApply(ev) =>
        EventPartition(p, w.epochs, w.st, ev, 0, sid);
        ClosedConcat(log, EventLog(p, w.epochs, w.st, ev, 0), sid);
        Regroup(ClosedTokens(log, sid), ClosedTokens(EventLog(p, w.epochs, w.st, ev, 0), sid),
                OpenTokens(w.st.runs, sid),
                OpenTokens(TrackedEvent(p, w.epochs, w.st, ev, 0).runs, sid), [], SessionTokens(before, sid),
                if sid == ev.scopes[0] then EventTokens(ev, 0) else []);
      case SFlush =>
        FlushPartition(p, w.epochs, w.st, sid);
        ClosedConcat(log, FlushLog(p, w.epochs, w.st), sid);
        Regroup(ClosedTokens(log, sid), ClosedTokens(FlushLog(p, w.epochs, w.st), sid), OpenTokens(w.st.runs, sid),
                OpenTokens(FlushAll(p, w.epochs, w.st).runs, sid), [], SessionTokens(before, sid), []);
      case _ =>
        assert log + [] == log;
    }
  }

  lemma NoOpen(sid: Word)
    ensures OpenTokens(EmptyDict(), sid) == []
  {
  }

  // ---------------------------------------------------------------- the shape of runs

  /** The run began at some realized token: same segment and scopes, and the signatures of exactly the
      tokens before it. */
  ghost predicate BeganAt(ev: Event, pos: nat, sid: Word, r: OpenRun) {
    && ev.scopes != [] && ev.scopes[0] == sid && pos < |ev.Realized()|
    && r.toks != [] && r.toks[0] == ev.Realized()[pos]
    && r.seg == ev.SegAt(pos) && r.scopes == ev.scopes
    && r.startSigs == StackOf(ev.ctxTail + ev.Realized()[..pos])
  }

  ghost predicate Began(hist: seq<Event>, sid: Word, r: OpenRun) {
    exists i, pos :: 0 <= i < |hist| && BeganAt(hist[i], pos, sid, r)
  }

  ghost predicate Shaped(p: StoreParams, hist: seq<Event>, sid: Word, r: OpenRun) {
    1 <= |r.toks| && (|r.toks| == 1 || |r.toks| <= p.spanMaxLen) && Began(hist, sid, r)
  }

  ghost predicate OpenShaped(p: StoreParams, hist: seq<Event>, runs: Dict<Word, OpenRun>) {
    forall sid :: sid in runs.m ==> Shaped(p, hist, sid, runs.m[sid])
  }

  ghost predicate ClosedShaped(p: StoreParams, hist: seq<Event>, log: seq<Closed>) {
    forall i :: 0 <= i < |log| ==> Shaped(p, hist, log[i].sid, log[i].run)
  }

  lemma ShapedLater(p: StoreParams, hist: seq<Event>, ev: Event, sid: Word, r: OpenRun)
    requires Shaped(p, hist, sid, r)
    ensures Shaped(p, hist + [ev], sid, r)
  {
    hide BeganAt;
    var i, pos :| 0 <= i < |hist| && BeganAt(hist[i], pos, sid, r);
    assert BeganAt((hist + [ev])[i], pos, sid, r);
  }

  lemma TrackedShaped(p: StoreParams, hist: seq<Event>, runs: Dict<Word, OpenRun>, ev: Event, pos: nat)
    requires OpenShaped(p, hist, runs) && ev in hist && ev.scopes != [] && pos < |ev.Realized()|
    ensures OpenShaped(p, hist, TrackedRuns(p, runs, ev.scopes[0], SiteAt(ev, pos), ev.Realized()[pos]))
  {
    hide StackOf;
    var sid, s, tok := ev.scopes[0], SiteAt(ev, pos), ev.Realized()[pos];
    var after := TrackedRuns(p, runs, sid, s, tok);
    forall other | other in after.m ensures Shaped(p, hist, other, after.m[other]) {
      if other == sid && (MustFlush(p, runs, sid, s.seg) || sid !in runs.m) {
        var i :| 0 <= i < |hist| && hist[i] == ev;
        assert BeganAt(hist[i], pos, sid, after.m[sid]);
      } else if other == sid {
        assert Shaped(p, hist, sid, runs.m[sid]);
        var i, q :| 0 <= i < |hist| && BeganAt(hist[i], q, sid, runs.m[sid]);
        assert BeganAt(hist[i], q, sid, after.m[sid]);
      } else {
        assert Shaped(p, hist, other, runs.m[other]);
      }
    }
  }

  lemma {:induction false} EventShaped(p: StoreParams, hist: seq<Event>, epochs: EpochTable, st: SpanState, ev: Event,
                                       pos: nat)
    requires OpenShaped(p, hist, st.runs) && RunsOk(st.runs) && ev in hist && ev.scopes != [] && pos <= |ev.Realized()|
    ensures OpenShaped(p, hist, TrackedEvent(p, epochs, st, ev, pos).runs)
    ensures ClosedShaped(p, hist, EventLog(p, epochs, st, ev, pos))
    decreases |ev.Realized()| - pos
  {
    hide Shaped, TrackedRuns, Flushed, SiteAt;
    if pos < |ev.Realized()| {
      var s, tok := SiteAt(ev, pos), ev.Realized()[pos];
      TrackedRunsOk(p, st.runs, ev.scopes[0], s, tok);
      TrackedShaped(p, hist, st.runs, ev, pos);
      EventShaped(p, hist, epochs, Tracked(p, epochs, st, ev.scopes[0], s, tok), ev, pos + 1);
    }
  }

  lemma OneFlushedShaped(p: StoreParams, hist: seq<Event>, epochs: EpochTable, st: SpanState, first: Word)
    requires OpenShaped(p, hist, st.runs) && RunsOk(st.runs) && first in st.runs.m
    ensures OpenShaped(p, hist, FlushOne(p, epochs, st, first).runs)
    ensures ClosedShaped(p, hist, [Closed(first, st.runs.m[first])])
  {
    hide Shaped, Flushed, Without;
  }

  lemma ShapedConcat(p: StoreParams, hist: seq<Event>, a: seq<Closed>, b: seq<Closed>)
    requires ClosedShaped(p, hist, a) && ClosedShaped(p, hist, b)
    ensures ClosedShaped(p, hist, a + b) && ClosedShaped(p, hist, [])
  {
    hide Shaped;
  }

  lemma {:induction false} FlushShaped(p: StoreParams, hist: seq<Event>, epochs: EpochTable, st: SpanState)
    requires OpenShaped(p, hist, st.runs) && RunsOk(st.runs)
    ensures OpenShaped(p, hist, FlushAll(p, epochs, st).runs)
    ensures ClosedShaped(p, hist, FlushLog(p, epochs, st))
    decreases |st.runs.keys|
  {
    hide OpenShaped, FlushOne, FlushLog, FlushAll, RunsOk;
    FlushUnfolds(p, epochs, st);
    if st.runs.keys != [] {
      var first := st.runs.keys[0];
      var st1 := FlushOne(p, epochs, st, first);
      OneFlushedShaped(p, hist, epochs, st, first);
      FlushShaped(p, hist, epochs, st1);
      ShapedConcat(p, hist, [Closed(first, st.runs.m[first])], FlushLog(p, epochs, st1));
    }
  }

  /** Every run, closed or open, is non-empty, no longer than the limit (or a single token), and carries the signatures
      of the context just before its first token. */
  lemma {:induction false} RunsAreShaped(p: StoreParams, ops: seq<SpanOp>)
    requires SpanOpsOk(ops)
    ensures OpenShaped(p, Applied(ops), WorldRun(p, ops).st.runs)
    ensures ClosedShaped(p, Applied(ops), RunLog(p, ops))
  {
    hide Shaped, TrackedEvent, EventLog, FlushAll, FlushLog, CompactedSpans, SpanAtStart;
    if ops != [] {
      var before, op := ops[..|ops| - 1], ops[|ops| - 1];
      RunsAreShaped(p, before);
      var w, hist := WorldRun(p, before), Applied(before);
      match op
      case SApply(ev) =>
        forall sid, r | Shaped(p, hist, sid, r) ensures Shaped(p, hist + [ev], sid, r) {
          ShapedLater(p, hist, ev, sid, r);
        }
        assert (hist + [ev])[|hist|] == ev;
        EventShaped(p, hist + [ev], w.epochs, w.st, ev, 0);
      case SFlush =>
        assert hist + [] == hist;
        FlushShaped(p, hist, w.epochs, w.st);
      case _ =>
        assert hist + [] == hist;
    }
  }
}
