/** Every entry of every reachable store is in its ranges, so that sixteen compactions empty any store. */
module TableRuns {
  import opened Bits
  import opened Dicts
  import opened HotEntries
  import opened Types
  import opened HotTables
  import opened LockStep
  import Epochs
  import Bounds

  ghost predicate AllOk<K(!new)>(p: StoreParams, h: Hot<K>) {
    forall key :: key in h.table.m ==> EntryOk(p.entry, h.table.m[key])
  }

  /** Top-k rows carry q8 codes. */
  ghost predicate Coded(ev: Event) {
    forall i :: 0 <= i < |ev.topkQ8s| ==> Q8sOk(ev.topkQ8s[i])
  }

  ghost predicate AllCoded(evs: seq<Event>) {
    forall i :: 0 <= i < |evs| ==> Coded(evs[i])
  }

  ghost predicate OpsCoded(ops: seq<Op>) {
    forall i :: 0 <= i < |ops| && ops[i].Offer? ==> AllCoded(ops[i].events)
  }

  ghost predicate CodedObservation(o: Observation) {
    o.topk.Some? ==> Q8sOk(o.topk.value.1)
  }

  ghost predicate CodedTouches<K(!new)>(ts: seq<Touch<K>>) {
    forall i :: 0 <= i < |ts| ==> CodedObservation(ts[i].obs)
  }

  lemma ObservedOk(p: Params, e: Entry, o: Observation)
    requires p.Sane() && EntryOk(p, e) && CodedObservation(o)
    ensures EntryOk(p, Observed(p, e, o))
  {
    hide EntryOk, Realized, Rejected, Merged, Q8sOk;
    RealizedOk(p, e, o.realized);
    var e1 := Realized(p, e, o.realized);
    if o.rejected.Some? { RealizedOk(p, e1, o.rejected.value); }
    var e2 := if o.rejected.Some? then Rejected(p, e1, o.rejected.value) else e1;
    if o.topk.Some? { MergedOk(p, e2, o.topk.value.0, o.topk.value.1); }
  }

  lemma CreateKeepsOk<K(!new)>(p: StoreParams, h: Hot<K>, key: K, seg: int, dom: int, scope: Word)
    requires p.entry.Sane() && AllOk(p, h)
    ensures AllOk(p, GetOrCreate(p, h, key, seg, dom, scope))
  {
    hide Without;
  }

  lemma TouchKeepsOk<K(!new)>(p: StoreParams, h: Hot<K>, t: Touch<K>)
    requires p.entry.Sane() && AllOk(p, h) && CodedObservation(t.obs)
    ensures AllOk(p, ApplyTouch(p, h, t))
  {
    hide EntryOk, GetOrCreate, Observed, CodedObservation;
    CreateKeepsOk(p, h, t.key, t.seg, t.dom, t.scope);
    ObservedOk(p.entry, GetOrCreate(p, h, t.key, t.seg, t.dom, t.scope).table.m[t.key], t.obs);
  }

  lemma {:induction false} TouchesKeepOk<K(!new)>(p: StoreParams, h: Hot<K>, ts: seq<Touch<K>>)
    requires p.entry.Sane() && AllOk(p, h) && CodedTouches(ts)
    ensures AllOk(p, ApplyTouches(p, h, ts))
    decreases |ts|
  {
    hide AllOk, ApplyTouch, CodedObservation;
    if ts != [] {
      TouchKeepsOk(p, h, ts[0]);
      TouchesKeepOk(p, ApplyTouch(p, h, ts[0]), ts[1..]);
    }
  }

  lemma {:induction false} DepthCoded<K(!new)>(p: StoreParams, f: Naming<K>, s: Site, o: Observation, order: nat,
                                               depth: nat)
    requires CodedObservation(o)
    ensures CodedTouches(DepthTouches(p, f, s, o, order, depth))
    decreases |s.scopes| - depth
  {
    hide CodedObservation;
    if depth < |s.scopes| { DepthCoded(p, f, s, o, order, depth + 1); }
  }

  lemma {:induction false} OrderCoded<K(!new)>(p: StoreParams, f: Naming<K>, s: Site, o: Observation, order: nat)
    requires CodedObservation(o)
    ensures CodedTouches(OrderTouches(p, f, s, o, order))
    decreases Signatures.MAX_ORDER + 1 - order
  {
    hide CodedObservation;
    if order <= Signatures.MAX_ORDER && order <= |s.before| {
      OrderCoded(p, f, s, o, order + 1);
      DepthCoded(p, f, s, o, order, 0);
    }
  }

  lemma {:induction false} EventCoded<K(!new)>(p: StoreParams, f: Naming<K>, ev: Event, pos: nat)
    requires ev.WellFormed() && Coded(ev) && pos <= |ev.Realized()|
    ensures CodedTouches(EventTouches(p, f, ev, pos))
    decreases |ev.Realized()| - pos
  {
    hide OrderTouches, SiteAt, Q8sOk;
    if pos < |ev.Realized()| {
      EventCoded(p, f, ev, pos + 1);
      OrderCoded(p, f, SiteAt(ev, pos), ObservationAt(ev, pos), 2);
    }
  }

  lemma {:induction false} EventsKeepOk<K(!new)>(p: StoreParams, f: Naming<K>, h: Hot<K>, evs: seq<Event>)
    requires p.entry.Sane() && AllOk(p, h) && WellFormedQueue(evs) && AllCoded(evs)
    ensures AllOk(p, ApplyEvents(p, f, h, evs))
  {
    hide AllOk, EventTouches, CodedTouches, Coded;
    if evs != [] {
      var init, ev := evs[..|evs| - 1], evs[|evs| - 1];
      EventsKeepOk(p, f, h, init);
      EventCoded(p, f, ev, 0);
      TouchesKeepOk(p, ApplyEvents(p, f, h, init), EventTouches(p, f, ev, 0));
    }
  }

  lemma CompactKeepsOk<K(!new)>(p: StoreParams, h: Hot<K>)
    requires p.entry.Sane() && AllOk(p, h)
    ensures AllOk(p, Compacted(p.entry, h))
  {
    hide EntryOk, Decayed, CompactFrom;
    var c := Compacted(p.entry, h);
    forall key | key in c.table.m ensures EntryOk(p.entry, c.table.m[key]) {
      Epochs.CompactedEntry(p.entry, h, h.table.keys, key);
      DecayedOk(p.entry, h.table.m[key]);
    }
  }

  lemma {:induction false} HarvestCoded(p: StoreParams, queue: seq<Event>, drops: nat, events: seq<Event>)
    requires AllCoded(queue) && AllCoded(events)
    ensures AllCoded(Harvest(p, queue, drops, events).0)
    decreases |events|
  {
    hide Coded;
    if p.queueCap > 0 && events != [] {
      if |queue| >= p.queueCap {
        HarvestCoded(p, queue[1..] + [events[0]], drops + 1, events[1..]);
      } else {
        HarvestCoded(p, queue + [events[0]], drops, events[1..]);
      }
    }
  }

  /** Over every run of the store, each entry keeps its capacity, counters, probabilities and coverage in range. */
  lemma {:induction false} RunEntriesOk<K(!new)>(p: StoreParams, f: Naming<K>, ops: seq<Op>)
    requires p.entry.Sane() && WellFormedOps(ops) && OpsCoded(ops)
    ensures AllOk(p, Run(p, f, ops).hot) && AllCoded(Run(p, f, ops).queue)
  {
    hide AllOk, AllCoded, ApplyEvents, Compacted;
    if ops == [] {
      NothingYet<K>(p);
    } else {
      RunEntriesOk(p, f, ops[..|ops| - 1]);
      var st, op := Run(p, f, ops[..|ops| - 1]), ops[|ops| - 1];
      match op
      case Offer(events) => HarvestCoded(p, st.queue, st.drops, events);
      case Drain(limit) =>
        var n := DrainCount(st.queue, limit);
        Parts(st.queue, n);
        EventsKeepOk(p, f, st.hot, st.queue[..n]);
        CompactKeepsOk(p, ApplyEvents(p, f, st.hot, st.queue[..n]));
      case Bump(scope, file) => BumpKeepsOk(p, st.hot, scope, file);
      case Compact => CompactKeepsOk(p, st.hot);
    }
  }

  lemma NothingYet<K(!new)>(p: StoreParams)
    ensures AllOk<K>(p, EmptyHot()) && AllCoded([])
  {
  }

  lemma Parts(queue: seq<Event>, n: nat)
    requires AllCoded(queue) && n <= |queue|
    ensures AllCoded(queue[..n]) && AllCoded(queue[n..])
  {
    hide Coded;
  }

  lemma BumpKeepsOk<K(!new)>(p: StoreParams, h: Hot<K>, scope: Word, file: int)
    requires AllOk(p, h)
    ensures AllOk(p, BumpEpoch(h, scope, file))
  {
    hide EntryOk;
  }

  /** Whatever happened to a store before, sixteen compactions in a row leave its hot table empty. */
  lemma AnyStoreWearsDown<K(!new)>(p: StoreParams, f: Naming<K>, ops: seq<Op>)
    requires p.entry.Sane() && WellFormedOps(ops) && OpsCoded(ops)
    ensures Bounds.CompactTimes(p.entry, Run(p, f, ops).hot, 16).table == EmptyDict()
  {
    hide Run, EntryOk, Bounds.CompactTimes;
    RunEntriesOk(p, f, ops);
    Bounds.SixteenCompactionsEmpty(p.entry, Run(p, f, ops).hot);
  }
}
