/** The whole ledger as a value: the hot table with its queue, and the spans with their open runs. */
module Ledgers {
  import opened Bits
  import opened Dicts
  import opened Types
  import opened HotTables
  import opened Spans
  import opened SpanHistory
  import opened LockStep
  import opened Backoff
  import Epochs

  datatype LedgerOp = Table(op: Op) | FlushRuns

  datatype Ledger = Ledger(store: Store<Word>, spans: SpanState) {
    ghost predicate Valid() {
      WellFormedQueue(store.queue) && RunsOk(spans.runs)
    }
  }

  const EMPTY_SPANS: SpanState := SpanState(map[], EmptyDict())

  ghost predicate OpOk(op: LedgerOp) {
    op.Table? && op.op.Offer? ==> WellFormedQueue(op.op.events)
  }

  ghost predicate OpsOk(ops: seq<LedgerOp>) {
    forall i :: 0 <= i < |ops| ==> OpOk(ops[i])
  }

  ghost function AppliedAll(p: StoreParams, epochs: EpochTable, st: SpanState, evs: seq<Event>): (r: SpanState)
    requires RunsOk(st.runs) && WellFormedQueue(evs)
    ensures RunsOk(r.runs)
  {
    if evs == [] then st else AppliedSpans(p, epochs, AppliedAll(p, epochs, st, evs[..|evs| - 1]), evs[|evs| - 1])
  }

  predicate CompactionDue(p: StoreParams, sinceCompact: nat, n: nat) {
    p.compactEvery > 0 && n > 0 && sinceCompact + n >= p.compactEvery
  }

  ghost function SpansStep(p: StoreParams, l: Ledger, op: LedgerOp): (r: SpanState)
    requires l.Valid()
    ensures RunsOk(r.runs)
  {
    var epochs := l.store.hot.epochs;
    match op
    case FlushRuns => FlushAll(p, epochs, l.spans)
    case Table(Drain(limit)) =>
      var n := DrainCount(l.store.queue, limit);
      var st := AppliedAll(p, epochs, l.spans, l.store.queue[..n]);
      if CompactionDue(p, l.store.sinceCompact, n) then st.(spans := CompactedSpans(p.entry, epochs, st.spans)) else st
    case Table(Compact) => l.spans.(spans := CompactedSpans(p.entry, epochs, l.spans.spans))
    case Table(_) => l.spans
  }

  ghost function LedgerStep(p: StoreParams, l: Ledger, op: LedgerOp): (r: Ledger)
    requires l.Valid() && OpOk(op)
    ensures r.Valid()
  {
    if op.Table? && op.op.Offer? then
      HarvestKeeps(p, l.store.queue, l.store.drops, op.op.events);
      Ledger(Step(p, Hash, l.store, op.op), SpansStep(p, l, op))
    else Ledger(if op.Table? then Step(p, Hash, l.store, op.op) else l.store, SpansStep(p, l, op))
  }

  ghost function LedgerRun(p: StoreParams, l: Ledger, ops: seq<LedgerOp>): (r: Ledger)
    requires l.Valid() && OpsOk(ops)
    ensures r.Valid()
  {
    if ops == [] then l else LedgerStep(p, LedgerRun(p, l, ops[..|ops| - 1]), ops[|ops| - 1])
  }

  const EMPTY_LEDGER: Ledger := Ledger(EmptyStore(), EMPTY_SPANS)

  /** The ledger that operations make of an empty one. */
  ghost function LedgerAfter(p: StoreParams, ops: seq<LedgerOp>): (r: Ledger)
    requires OpsOk(ops)
    ensures r.Valid()
  {
    LedgerRun(p, EMPTY_LEDGER, ops)
  }

  lemma EmptyLedgerIsQuiet()
    ensures EMPTY_LEDGER.Valid() && EMPTY_LEDGER.store.hot == EmptyHot()
    ensures EMPTY_LEDGER.store.queue == [] && EMPTY_LEDGER.spans.runs == EmptyDict()
  {
  }

  lemma {:induction false} LedgerRunConcat(p: StoreParams, l: Ledger, a: seq<LedgerOp>, b: seq<LedgerOp>)
    requires l.Valid() && OpsOk(a) && OpsOk(b)
    ensures OpsOk(a + b) && LedgerRun(p, l, a + b) == LedgerRun(p, LedgerRun(p, l, a), b)
  {
    hide LedgerStep, OpOk, Ledger.Valid;
    if b == [] {
      assert a + b == a;
    } else {
      LedgerRunConcat(p, l, a, b[..|b| - 1]);
      assert (a + b)[..|a + b| - 1] == a + b[..|b| - 1];
    }
  }

  // ---------------------------------------------------------------- one operation, unfolded

  lemma DueIs(p: StoreParams, since: nat, n: nat)
    ensures CompactionDue(p, since, n) <==> n > 0 && p.compactEvery > 0 && since + n >= p.compactEvery
  {
  }

  lemma OpIs(p: StoreParams, l: Ledger, op: LedgerOp)
    requires l.Valid() && OpOk(op)
    ensures op.Table? && op.op.Offer? ==> WellFormedQueue(op.op.events)
    ensures op.Table? && op.op.Offer? ==>
              var (q, d) := Harvest(p, l.store.queue, l.store.drops, op.op.events);
              LedgerStep(p, l, op) == Ledger(l.store.(queue := q, drops := d), l.spans)
    ensures op.Table? && op.op.Bump? ==>
              LedgerStep(p, l, op) == Ledger(l.store.(hot := BumpEpoch(l.store.hot, op.op.scope, op.op.file)), l.spans)
    ensures op.FlushRuns? ==> LedgerStep(p, l, op) == Ledger(l.store, FlushAll(p, l.store.hot.epochs, l.spans))
  {
  }

  lemma CompactStep(p: StoreParams, l: Ledger)
    requires l.Valid()
    ensures LedgerStep(p, l, Table(Op.Compact)) ==
            Ledger(l.store.(hot := Compacted(p.entry, l.store.hot)),
                   l.spans.(spans := CompactedSpans(p.entry, l.store.hot.epochs, l.spans.spans)))
  {
  }

  lemma DrainStep(p: StoreParams, l: Ledger, limit: Option<nat>)
    requires l.Valid()
    ensures var n := DrainCount(l.store.queue, limit);
            var due := CompactionDue(p, l.store.sinceCompact, n);
            var hot, st := ApplyEvents(p, Hash, l.store.hot, l.store.queue[..n]),
                           AppliedAll(p, l.store.hot.epochs, l.spans, l.store.queue[..n]);
            LedgerStep(p, l, Table(Drain(limit))) ==
            Ledger(Store(if due then Compacted(p.entry, hot) else hot, l.store.queue[n..], l.store.drops,
                         l.store.applied + n,
                         if due then 0 else l.store.sinceCompact + n),
                   if due then st.(spans := CompactedSpans(p.entry, l.store.hot.epochs, st.spans)) else st)
  {
    hide ApplyEvents, AppliedAll, Compacted, CompactedSpans, RunsOk;
  }

  // ---------------------------------------------------------------- its two halves are the runs studied elsewhere

  function TableOps(ops: seq<LedgerOp>): seq<Op> {
    if ops == [] then [] else TableOps(ops[..|ops| - 1]) + if ops[|ops| - 1].Table? then [ops[|ops| - 1].op] else []
  }

  /** The hot half of any ledger run is a run of the hot store alone: spans never touch it. */
  lemma {:induction false} HotHalf(p: StoreParams, ops: seq<LedgerOp>)
    requires OpsOk(ops)
    ensures WellFormedOps(TableOps(ops)) && LedgerAfter(p, ops).store == Run(p, Hash, TableOps(ops))
  {
    hide Step, SpansStep;
    if ops != [] {
      HotHalf(p, ops[..|ops| - 1]);
      var before, op := TableOps(ops[..|ops| - 1]), ops[|ops| - 1];
      if op.Table? { RunSnoc(p, Hash, before, op.op); } else { assert before + [] == before; }
    }
  }

  function Applies(evs: seq<Event>): seq<SpanOp> {
    seq(|evs|, i requires 0 <= i < |evs| => SApply(evs[i]))
  }

  /** What an operation does to the spans, spelled out. */
  function StepTrace(p: StoreParams, l: Ledger, op: LedgerOp): seq<SpanOp> {
    match op
    case FlushRuns => [SFlush]
    case Table(Drain(limit)) =>
      var n := DrainCount(l.store.queue, limit);
      Applies(l.store.queue[..n]) + if CompactionDue(p, l.store.sinceCompact, n) then [SCompact] else []
    case Table(Compact) => [SCompact]
    case Table(Bump(scope, file)) => [SBump(scope, file)]
    case Table(Offer(_)) => []
  }

  ghost function Trace(p: StoreParams, ops: seq<LedgerOp>): seq<SpanOp>
    requires OpsOk(ops)
  {
    if ops == [] then [] else
      Trace(p, ops[..|ops| - 1]) + StepTrace(p, LedgerAfter(p, ops[..|ops| - 1]), ops[|ops| - 1])
  }

  function WorldFrom(p: StoreParams, w: World, ops: seq<SpanOp>): (r: World)
    requires SpanOpsOk(ops) && RunsOk(w.st.runs)
    ensures RunsOk(r.st.runs)
  {
    if ops == [] then w else WorldStep(p, WorldFrom(p, w, ops[..|ops| - 1]), ops[|ops| - 1])
  }

  lemma {:induction false} WorldRunConcat(p: StoreParams, a: seq<SpanOp>, b: seq<SpanOp>)
    requires SpanOpsOk(a) && SpanOpsOk(b)
    ensures SpanOpsOk(a + b) && WorldRun(p, a + b) == WorldFrom(p, WorldRun(p, a), b)
  {
    hide WorldStep, RunsOk;
    if b == [] {
      assert a + b == a;
    } else {
      WorldRunConcat(p, a, b[..|b| - 1]);
      assert (a + b)[..|a + b| - 1] == a + b[..|b| - 1];
    }
  }

  lemma {:induction false} AppliesTrace(p: StoreParams, w: World, evs: seq<Event>)
    requires RunsOk(w.st.runs) && WellFormedQueue(evs)
    ensures WorldFrom(p, w, Applies(evs)) == w.(st := AppliedAll(p, w.epochs, w.st, evs))
  {
    hide AppliedSpans, RunsOk;
    if evs != [] {
      AppliesTrace(p, w, evs[..|evs| - 1]);
      assert Applies(evs)[..|evs| - 1] == Applies(evs[..|evs| - 1]);
    }
  }

  lemma {:induction false} TouchesKeepEpochs<K(!new)>(p: StoreParams, h: Hot<K>, ts: seq<Touch<K>>)
    ensures ApplyTouches(p, h, ts).epochs == h.epochs
    decreases |ts|
  {
    hide ApplyTouch;
    if ts != [] {
      Epochs.TouchKeepsEpochs(p, h, ts[0]);
      TouchesKeepEpochs(p, ApplyTouch(p, h, ts[0]), ts[1..]);
    }
  }

  lemma {:induction false} EventsKeepEpochs<K(!new)>(p: StoreParams, f: Naming<K>, h: Hot<K>, evs: seq<Event>)
    requires WellFormedQueue(evs)
    ensures ApplyEvents(p, f, h, evs).epochs == h.epochs
  {
    hide ApplyTouches, EventTouches;
    if evs != [] {
      EventsKeepEpochs(p, f, h, evs[..|evs| - 1]);
      TouchesKeepEpochs(p, ApplyEvents(p, f, h, evs[..|evs| - 1]), EventTouches(p, f, evs[|evs| - 1], 0));
    }
  }

  lemma StepIsTrace(p: StoreParams, l: Ledger, op: LedgerOp)
    requires l.Valid() && OpOk(op)
    ensures SpanOpsOk(StepTrace(p, l, op))
    ensures WorldFrom(p, World(l.store.hot.epochs, l.spans), StepTrace(p, l, op)) ==
            World(LedgerStep(p, l, op).store.hot.epochs, LedgerStep(p, l, op).spans)
  {
    hide AppliedAll, CompactedSpans, FlushAll, AppliedSpans, ApplyEvents, Harvest, RunsOk, CompactFrom;
    var w := World(l.store.hot.epochs, l.spans);
    match op
    case FlushRuns => assert [SFlush][..0] == [];
    case Table(Offer(events)) =>
    case Table(Bump(scope, file)) => assert [SBump(scope, file)][..0] == [];
    case Table(Compact) => assert [SCompact][..0] == [];
    case Table(Drain(limit)) =>
      var n := DrainCount(l.store.queue, limit);
      var evs := l.store.queue[..n];
      AppliesTrace(p, w, evs);
      EventsKeepEpochs(p, Hash, l.store.hot, evs);
      if CompactionDue(p, l.store.sinceCompact, n) {
        assert (Applies(evs) + [SCompact])[..n] == Applies(evs);
      } else {
        assert Applies(evs) + [] == Applies(evs);
      }
  }

  /** The span half of any ledger run is a run of span operations alone: queueing and hot entries never touch it. */
  lemma {:induction false} SpanHalf(p: StoreParams, ops: seq<LedgerOp>)
    requires OpsOk(ops)
    ensures SpanOpsOk(Trace(p, ops))
    ensures WorldRun(p, Trace(p, ops)) ==
            World(LedgerAfter(p, ops).store.hot.epochs, LedgerAfter(p, ops).spans)
  {
    hide LedgerStep, StepTrace, WorldFrom;
    if ops != [] {
      var before := ops[..|ops| - 1];
      SpanHalf(p, before);
      StepIsTrace(p, LedgerAfter(p, before), ops[|ops| - 1]);
      WorldRunConcat(p, Trace(p, before), StepTrace(p, LedgerAfter(p, before), ops[|ops| - 1]));
    }
  }

  // ---------------------------------------------------------------- ledgers that agree stay in agreement

  /** Equal in everything that is ever read: counters, and how long ago compaction ran, do not matter. */
  ghost predicate Agree(a: Ledger, b: Ledger) {
    a.store.hot == b.store.hot && a.store.queue == b.store.queue && a.spans == b.spans
  }

  lemma {:induction false} HarvestIgnoresDrops(p: StoreParams, queue: seq<Event>, d: nat, d': nat, events: seq<Event>)
    ensures Harvest(p, queue, d, events).0 == Harvest(p, queue, d', events).0
    decreases |events|
  {
    if p.queueCap > 0 && events != [] {
      if |queue| >= p.queueCap {
        HarvestIgnoresDrops(p, queue[1..] + [events[0]], d + 1, d' + 1, events[1..]);
      } else {
        HarvestIgnoresDrops(p, queue + [events[0]], d, d', events[1..]);
      }
    }
  }

  lemma StepKeepsAgreement(p: StoreParams, a: Ledger, b: Ledger, op: LedgerOp)
    requires a.Valid() && b.Valid() && Agree(a, b) && OpOk(op) && p.compactEvery == 0
    ensures Agree(LedgerStep(p, a, op), LedgerStep(p, b, op))
  {
    hide AppliedAll, CompactedSpans, FlushAll, ApplyEvents, Harvest, RunsOk, CompactFrom;
    match op
    case Table(Offer(events)) => HarvestIgnoresDrops(p, a.store.queue, a.store.drops, b.store.drops, events);
    case _ =>
  }

  /** Without automatic compaction, two ledgers that agree once agree after every further sequence of operations. */
  lemma {:induction false} AgreeForever(p: StoreParams, a: Ledger, b: Ledger, ops: seq<LedgerOp>)
    requires a.Valid() && b.Valid() && Agree(a, b) && OpsOk(ops) && p.compactEvery == 0
    ensures Agree(LedgerRun(p, a, ops), LedgerRun(p, b, ops))
  {
    hide LedgerStep, Agree;
    if ops != [] {
      AgreeForever(p, a, b, ops[..|ops| - 1]);
      StepKeepsAgreement(p, LedgerRun(p, a, ops[..|ops| - 1]), LedgerRun(p, b, ops[..|ops| - 1]), ops[|ops| - 1]);
    }
  }
}
