/** Run tracking, spans and their break histograms, by content: where the arena puts a body plays no part here. */
module Spans {
  import opened Bits
  import opened Dicts
  import opened HotEntries
  import opened Signatures
  import opened Types
  import opened HotTables
  import opened Backoff

  datatype Break = Break(count: nat, patchKey: Word)

  /** A registered span: its body, and for each offset how often a draft of it was rejected there. */
  datatype Span = Span(toks: seq<int>, scope: Word, seg: int, dom: int, epoch: nat, count: nat, breaks: map<nat, Break>)

  /** A session's run in progress: one segment, and the signatures of the context before its first token. */
  datatype OpenRun = OpenRun(seg: int, dom: int, toks: seq<int>, startSigs: seq<Word>, scopes: seq<Word>)

  datatype SpanState = SpanState(spans: map<Word, Span>, runs: Dict<Word, OpenRun>)

  type EpochTable = map<(Word, int), nat>

  function EpochOf(epochs: EpochTable, scope: Word, dom: int): nat {
    Hot<Word>.Hot(EmptyDict(), epochs).EpochNow(scope, dom)
  }

  predicate FreshSpan(epochs: EpochTable, s: Span) {
    s.epoch == EpochOf(epochs, s.scope, s.dom)
  }

  // ---------------------------------------------------------------- flushing a run

  /** Length of the common prefix. */
  function Divergence(a: seq<int>, b: seq<int>): nat {
    if a == [] || b == [] || a[0] != b[0] then 0 else 1 + Divergence(a[1..], b[1..])
  }

  lemma {:induction false} DivergenceIsPrefix(a: seq<int>, b: seq<int>)
    ensures Divergence(a, b) <= |a| && Divergence(a, b) <= |b|
    ensures a[..Divergence(a, b)] == b[..Divergence(a, b)]
    ensures Divergence(a, b) < |a| && Divergence(a, b) < |b| ==> a[Divergence(a, b)] != b[Divergence(a, b)]
  {
    if a != [] && b != [] && a[0] == b[0] {
      DivergenceIsPrefix(a[1..], b[1..]);
      var d := Divergence(a[1..], b[1..]);
      assert a[..d + 1] == [a[0]] + a[1..][..d] && b[..d + 1] == [b[0]] + b[1..][..d];
    }
  }

  function KeepBelow(breaks: map<nat, Break>, d: nat): map<nat, Break> {
    map b | b in breaks && b < d :: breaks[b]
  }

  /** A stale span is revalidated as an empty count of its old body. */
  function Restarted(epochs: EpochTable, s: Span, run: OpenRun, scope: Word): Span {
    if FreshSpan(epochs, s) then s
    else s.(breaks := map[], epoch := EpochOf(epochs, scope, run.dom), dom := run.dom, count := 0)
  }

  /** A body at least as long replaces the old one, and takes over only the breaks before the first difference. */
  function Rebodied(s: Span, toks: seq<int>): Span {
    if |toks| >= |s.toks| then s.(toks := toks, breaks := KeepBelow(s.breaks, Divergence(s.toks, toks))) else s
  }

  function Revised(epochs: EpochTable, s: Span, run: OpenRun, scope: Word): Span {
    var r := Rebodied(Restarted(epochs, s, run, scope), run.toks);
    r.(count := r.count + 1)
  }

  function Registered(epochs: EpochTable, spans: map<Word, Span>, run: OpenRun, key: Word,
                      scope: Word): map<Word, Span> {
    if key in spans then spans[key := Revised(epochs, spans[key], run, scope)]
    else spans[key := Span(run.toks, scope, run.seg, run.dom, EpochOf(epochs, scope, run.dom), 1, map[])]
  }

  function RegisterDepths(p: StoreParams, epochs: EpochTable, spans: map<Word, Span>, run: OpenRun, order: nat,
                          depth: nat): map<Word, Span>
    requires 2 <= order < 2 + |run.startSigs| && order <= MAX_ORDER
    decreases |run.scopes| - depth
  {
    if depth >= |run.scopes| then spans else
      var scope := run.scopes[depth];
      var next := if depth in p.spanScopeDepths
                  then Registered(epochs, spans, run, SpanKey(run.startSigs[order - 2], order, scope, run.seg), scope)
                  else spans;
      RegisterDepths(p, epochs, next, run, order, depth + 1)
  }

  function RegisterOrders(p: StoreParams, epochs: EpochTable, spans: map<Word, Span>, run: OpenRun,
                          order: nat): map<Word, Span>
    requires 2 <= order && |run.startSigs| <= 7
    decreases 2 + |run.startSigs| - order
  {
    if order >= 2 + |run.startSigs| then spans else
      var next := if order in p.spanOrders then RegisterDepths(p, epochs, spans, run, order, 0) else spans;
      RegisterOrders(p, epochs, next, run, order + 1)
  }

  function Flushed(p: StoreParams, epochs: EpochTable, spans: map<Word, Span>, run: OpenRun): map<Word, Span>
    requires |run.startSigs| <= 7
  {
    if |run.toks| < p.spanMinLen then spans else RegisterOrders(p, epochs, spans, run, 2)
  }

  // ---------------------------------------------------------------- tracking

  /** The run that must be closed before a token of segment `seg` can be appended. */
  predicate MustFlush(p: StoreParams, runs: Dict<Word, OpenRun>, sid: Word, seg: int) {
    sid in runs.m && (runs.m[sid].seg != seg || |runs.m[sid].toks| >= p.spanMaxLen)
  }

  function RunsAfterFlush(p: StoreParams, runs: Dict<Word, OpenRun>, sid: Word, seg: int): Dict<Word, OpenRun> {
    if MustFlush(p, runs, sid, seg) then runs.Remove(sid) else runs
  }

  function Appended(runs: Dict<Word, OpenRun>, sid: Word, s: Site, tok: int): Dict<Word, OpenRun> {
    var run := if sid in runs.m then runs.m[sid] else OpenRun(s.seg, s.dom, [], StackOf(s.before), s.scopes);
    runs.Put(sid, run.(toks := run.toks + [tok], dom := if s.dom != 0 then s.dom else run.dom))
  }

  function TrackedRuns(p: StoreParams, runs: Dict<Word, OpenRun>, sid: Word, s: Site, tok: int): Dict<Word, OpenRun> {
    Appended(RunsAfterFlush(p, runs, sid, s.seg), sid, s, tok)
  }

  ghost predicate RunsOk(runs: Dict<Word, OpenRun>) {
    runs.Valid() && forall sid :: sid in runs.m ==> runs.m[sid].toks != [] && |runs.m[sid].startSigs| <= 7
  }

  lemma TrackedRunsOk(p: StoreParams, runs: Dict<Word, OpenRun>, sid: Word, s: Site, tok: int)
    requires RunsOk(runs)
    ensures RunsOk(RunsAfterFlush(p, runs, sid, s.seg)) && RunsOk(TrackedRuns(p, runs, sid, s, tok))
  {
    hide Without, Dict.Valid;
    RemoveValid(runs, sid);
  }

  function Tracked(p: StoreParams, epochs: EpochTable, st: SpanState, sid: Word, s: Site, tok: int): SpanState
    requires RunsOk(st.runs)
  {
    SpanState(if MustFlush(p, st.runs, sid, s.seg) then Flushed(p, epochs, st.spans, st.runs.m[sid]) else st.spans,
              TrackedRuns(p, st.runs, sid, s, tok))
  }

  function TrackedEvent(p: StoreParams, epochs: EpochTable, st: SpanState, ev: Event, pos: nat): (r: SpanState)
    requires RunsOk(st.runs) && pos <= |ev.Realized()| && ev.scopes != []
    ensures RunsOk(r.runs)
    decreases |ev.Realized()| - pos
  {
    if pos == |ev.Realized()| then st else
      TrackedRunsOk(p, st.runs, ev.scopes[0], SiteAt(ev, pos), ev.Realized()[pos]);
      TrackedEvent(p, epochs, Tracked(p, epochs, st, ev.scopes[0], SiteAt(ev, pos), ev.Realized()[pos]), ev, pos + 1)
  }

  // ---------------------------------------------------------------- finding a span

  /** More often seen first, then longer, then the smaller key. */
  predicate Outranks(s: Span, key: Word, t: Span, key': Word) {
    || s.count > t.count
    || (s.count == t.count && (|s.toks| > |t.toks| || (|s.toks| == |t.toks| && key < key')))
  }

  function BetterSpan(epochs: EpochTable, spans: map<Word, Span>, key: Word, seg: int,
                      best: Option<Word>): (r: Option<Word>)
    requires best.Some? ==> best.value in spans
    ensures r.Some? ==> r.value in spans
  {
    if key in spans && FreshSpan(epochs, spans[key]) && spans[key].seg == seg
       && (best.None? || Outranks(spans[key], key, spans[best.value], best.value))
    then Some(key) else best
  }

  function FindDepths(p: StoreParams, epochs: EpochTable, spans: map<Word, Span>, sig: Word, order: nat,
                      scopes: seq<Word>, seg: int, depth: nat, best: Option<Word>): (r: Option<Word>)
    requires order <= MAX_ORDER && (best.Some? ==> best.value in spans)
    ensures r.Some? ==> r.value in spans
    decreases |scopes| - depth
  {
    if depth >= |scopes| then best else
      var next := if depth in p.scopeDepths
                  then BetterSpan(epochs, spans, SpanKey(sig, order, scopes[depth], seg), seg, best) else best;
      FindDepths(p, epochs, spans, sig, order, scopes, seg, depth + 1, next)
  }

  /** Signatures beyond the highest order are ignored. */
  function FindSpan(p: StoreParams, epochs: EpochTable, spans: map<Word, Span>, sigs: seq<Word>, scopes: seq<Word>,
                    seg: int, i: nat, best: Option<Word>): (r: Option<Word>)
    requires best.Some? ==> best.value in spans
    ensures r.Some? ==> r.value in spans
    decreases |sigs| - i
  {
    if i >= |sigs| || 2 + i > MAX_ORDER then best else
      FindSpan(p, epochs, spans, sigs, scopes, seg, i + 1,
               FindDepths(p, epochs, spans, sigs[i], 2 + i, scopes, seg, 0, best))
  }

  // ---------------------------------------------------------------- breaks

  /** The hot entry holding the correction: longest order, most specific tier probed at the rejected position. */
  function PatchDepth(p: StoreParams, s: Site, order: nat, depth: nat): Option<Word>
    requires order <= MAX_ORDER
    decreases |s.scopes| - depth
  {
    if depth >= |s.scopes| then None
    else if depth in p.scopeDepths then Some(Hash(ContextAt(s, order, depth)))
    else PatchDepth(p, s, order, depth + 1)
  }

  function PatchOrder(p: StoreParams, s: Site, order: nat): Word
    requires order <= MAX_ORDER && order <= |s.before|
  {
    if order < 2 then 0
    else if order in p.orders && PatchDepth(p, s, order, 0).Some? then PatchDepth(p, s, order, 0).value
    else PatchOrder(p, s, order - 1)
  }

  function PatchKey(p: StoreParams, ev: Event): Word {
    if ev.acceptedLen < |ev.draft| then
      var s := SiteAt(ev, ev.acceptedLen);
      PatchOrder(p, s, if |s.before| < MAX_ORDER then |s.before| else MAX_ORDER)
    else 0
  }

  function BreakAt(s: Span, off: nat, patch: Word): Span {
    var b := if off in s.breaks then s.breaks[off] else Break(0, 0);
    s.(breaks := s.breaks[off := Break(b.count + 1, if patch != 0 then patch else b.patchKey)])
  }

  /** A draft that was a prefix of the span is counted where it broke, or as a success. */
  function Outcome(p: StoreParams, s: Span, ev: Event): Span {
    var a := ev.acceptedLen;
    if a < |ev.draft| && a < |s.toks| && s.toks[..a + 1] == ev.draft[..a + 1] then BreakAt(s, a, PatchKey(p, ev))
    else if a == |ev.draft| then s.(count := s.count + 1)
    else s
  }

  function SpanAtStart(p: StoreParams, epochs: EpochTable, spans: map<Word, Span>, ev: Event): (r: Option<Word>)
    ensures r.Some? ==> r.value in spans
  {
    if p.version >= 2 && ev.draft != [] then
      FindSpan(p, epochs, spans, StackOf(ev.ctxTail), ev.scopes, if ev.seg != [] then ev.seg[0] else TEXT, 0, None)
    else None
  }

  function AppliedSpans(p: StoreParams, epochs: EpochTable, st: SpanState, ev: Event): (r: SpanState)
    requires RunsOk(st.runs) && ev.scopes != []
    ensures RunsOk(r.runs)
  {
    if p.version < 2 then st else
      var start := SpanAtStart(p, epochs, st.spans, ev);
      var st1 := TrackedEvent(p, epochs, st, ev, 0);
      TrackingKeepsKeys(p, epochs, st, ev, 0);
      if start.None? then st1 else
        st1.(spans := st1.spans[start.value := Outcome(p, st1.spans[start.value], ev)])
  }

  // ---------------------------------------------------------------- compaction

  function DecayedBreaks(p: Params, breaks: map<nat, Break>): map<nat, Break> {
    map b | b in breaks && Shr(breaks[b].count, p.decayShift) > 0
      :: breaks[b].(count := Shr(breaks[b].count, p.decayShift))
  }

  function CompactedSpans(p: Params, epochs: EpochTable, spans: map<Word, Span>): map<Word, Span> {
    map k | k in spans && FreshSpan(epochs, spans[k]) && Shr(spans[k].count, p.decayShift) > 0 ::
      spans[k].(count := Shr(spans[k].count, p.decayShift), breaks := DecayedBreaks(p, spans[k].breaks))
  }

  // ---------------------------------------------------------------- registered spans are never removed by tracking

  lemma {:induction false} RegisterKeepsKeys(p: StoreParams, epochs: EpochTable, spans: map<Word, Span>, run: OpenRun,
                                             order: nat, depth: nat)
    requires 2 <= order < 2 + |run.startSigs| && order <= MAX_ORDER
    ensures spans.Keys <= RegisterDepths(p, epochs, spans, run, order, depth).Keys
    decreases |run.scopes| - depth
  {
    hide Revised, SpanKey;
    if depth < |run.scopes| {
      var scope := run.scopes[depth];
      var next := if depth in p.spanScopeDepths
                  then Registered(epochs, spans, run, SpanKey(run.startSigs[order - 2], order, scope, run.seg), scope)
                  else spans;
      RegisterKeepsKeys(p, epochs, next, run, order, depth + 1);
    }
  }

  lemma {:induction false} RegisterOrdersKeepsKeys(p: StoreParams, epochs: EpochTable, spans: map<Word, Span>,
                                                   run: OpenRun, order: nat)
    requires 2 <= order && |run.startSigs| <= 7
    ensures spans.Keys <= RegisterOrders(p, epochs, spans, run, order).Keys
    decreases 2 + |run.startSigs| - order
  {
    if order < 2 + |run.startSigs| {
      RegisterKeepsKeys(p, epochs, spans, run, order, 0);
      var next := if order in p.spanOrders then RegisterDepths(p, epochs, spans, run, order, 0) else spans;
      RegisterOrdersKeepsKeys(p, epochs, next, run, order + 1);
    }
  }

  lemma {:induction false} TrackingKeepsKeys(p: StoreParams, epochs: EpochTable, st: SpanState, ev: Event, pos: nat)
    requires RunsOk(st.runs) && pos <= |ev.Realized()| && ev.scopes != []
    ensures st.spans.Keys <= TrackedEvent(p, epochs, st, ev, pos).spans.Keys
    decreases |ev.Realized()| - pos
  {
    hide TrackedRuns, SiteAt;
    if pos < |ev.Realized()| {
      var s, tok := SiteAt(ev, pos), ev.Realized()[pos];
      TrackedRunsOk(p, st.runs, ev.scopes[0], s, tok);
      if MustFlush(p, st.runs, ev.scopes[0], s.seg) {
        RegisterOrdersKeepsKeys(p, epochs, st.spans, st.runs.m[ev.scopes[0]], 2);
      }
      TrackingKeepsKeys(p, epochs, Tracked(p, epochs, st, ev.scopes[0], s, tok), ev, pos + 1);
    }
  }
}
