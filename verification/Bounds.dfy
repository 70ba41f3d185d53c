/** Bounds and conservation over whole runs of the store, whatever names its contexts have. */
module Bounds {
  import opened Bits
  import opened Dicts
  import opened HotEntries
  import opened Types
  import opened HotTables
  import opened LockStep
  import Epochs

  // ---------------------------------------------------------------- the table's size

  ghost predicate Bounded<K(!new)>(p: StoreParams, h: Hot<K>) {
    h.table.Valid() && (p.maxEntries > 0 ==> |h.table.keys| <= p.maxEntries)
  }

  lemma TouchBounded<K(!new)>(p: StoreParams, h: Hot<K>, t: Touch<K>)
    requires Bounded(p, h)
    ensures Bounded(p, ApplyTouch(p, h, t))
  {
    hide Observed, ResetEntry, Fresh;
    if p.maxEntries > 0 && |h.table.keys| >= p.maxEntries { RemoveFirst(h.table); }
  }

  lemma {:induction false} TouchesBounded<K(!new)>(p: StoreParams, h: Hot<K>, ts: seq<Touch<K>>)
    requires Bounded(p, h)
    ensures Bounded(p, ApplyTouches(p, h, ts))
    decreases |ts|
  {
    hide ApplyTouch;
    if ts != [] {
      TouchBounded(p, h, ts[0]);
      TouchesBounded(p, ApplyTouch(p, h, ts[0]), ts[1..]);
    }
  }

  lemma {:induction false} EventsBounded<K(!new)>(p: StoreParams, f: Naming<K>, h: Hot<K>, evs: seq<Event>)
    requires Bounded(p, h) && WellFormedQueue(evs)
    ensures Bounded(p, ApplyEvents(p, f, h, evs))
  {
    hide Bounded, EventTouches;
    if evs != [] {
      EventsBounded(p, f, h, evs[..|evs| - 1]);
      TouchesBounded(p, ApplyEvents(p, f, h, evs[..|evs| - 1]), EventTouches(p, f, evs[|evs| - 1], 0));
    }
  }

  lemma {:induction false} CompactShrinks<K(!new)>(p: Params, h: Hot<K>, keys: seq<K>)
    ensures CompactFrom(p, h, keys).Valid() && |CompactFrom(p, h, keys).keys| <= |keys|
  {
    hide Survives, Decayed;
    if keys != [] { CompactShrinks(p, h, keys[..|keys| - 1]); }
  }

  /** Under first-in-first-out eviction the table never holds more than its limit. */
  lemma {:induction false} RunBounded<K(!new)>(p: StoreParams, f: Naming<K>, ops: seq<Op>)
    requires WellFormedOps(ops)
    ensures Bounded(p, Run(p, f, ops).hot)
  {
    hide ApplyEvents, Harvest;
    if ops != [] {
      RunBounded(p, f, ops[..|ops| - 1]);
      var st, op := Run(p, f, ops[..|ops| - 1]), ops[|ops| - 1];
      CompactShrinks(p.entry, st.hot, st.hot.table.keys);
      if op.Drain? {
        var evs := st.queue[..DrainCount(st.queue, op.limit)];
        EventsBounded(p, f, st.hot, evs);
        var h := ApplyEvents(p, f, st.hot, evs);
        CompactShrinks(p.entry, h, h.table.keys);
      }
    }
  }

  // ---------------------------------------------------------------- no event is lost uncounted

  function Offered(ops: seq<Op>): seq<Event> {
    if ops == [] then [] else
      Offered(ops[..|ops| - 1]) + if ops[|ops| - 1].Offer? then ops[|ops| - 1].events else []
  }

  ghost function AppliedLog<K(!new)>(p: StoreParams, f: Naming<K>, ops: seq<Op>): seq<Event>
    requires WellFormedOps(ops)
  {
    if ops == [] then [] else
      var st, op := Run(p, f, ops[..|ops| - 1]), ops[|ops| - 1];
      AppliedLog(p, f, ops[..|ops| - 1]) + if op.Drain? then st.queue[..DrainCount(st.queue, op.limit)] else []
  }

  /** `xs` is obtained from `ys` by leaving events out. */
  ghost predicate Subsequence(xs: seq<Event>, ys: seq<Event>)
    decreases |ys|
  {
    || xs == []
    || (ys != [] && ((xs[|xs| - 1] == ys[|ys| - 1] && Subsequence(xs[..|xs| - 1], ys[..|ys| - 1]))
                     || Subsequence(xs, ys[..|ys| - 1])))
  }

  lemma {:induction false} SubsequenceSnoc(xs: seq<Event>, ys: seq<Event>, e: Event)
    requires Subsequence(xs, ys)
    ensures Subsequence(xs + [e], ys + [e])
  {
    assert (xs + [e])[..|xs|] == xs && (ys + [e])[..|ys|] == ys;
  }

  lemma {:induction false} SubsequenceLonger(xs: seq<Event>, ys: seq<Event>, e: Event)
    requires Subsequence(xs, ys)
    ensures Subsequence(xs, ys + [e])
  {
    assert (ys + [e])[..|ys|] == ys;
  }

  lemma DropBeforeLast(xs: seq<Event>, i: nat)
    requires i < |xs| - 1
    ensures xs[..i] + xs[i + 1..] == (xs[..|xs| - 1][..i] + xs[..|xs| - 1][i + 1..]) + [xs[|xs| - 1]]
  {
  }

  /** Leaving one more event out. */
  lemma {:induction false} SubsequenceDrop(xs: seq<Event>, i: nat, ys: seq<Event>)
    requires i < |xs| && Subsequence(xs, ys)
    ensures Subsequence(xs[..i] + xs[i + 1..], ys)
    decreases |ys|
  {
    var rest := xs[..i] + xs[i + 1..];
    var ys' := ys[..|ys| - 1];
    assert ys == ys' + [ys[|ys| - 1]];
    if xs[|xs| - 1] == ys[|ys| - 1] && Subsequence(xs[..|xs| - 1], ys') {
      if i == |xs| - 1 {
        assert rest == xs[..|xs| - 1];
        SubsequenceLonger(rest, ys', ys[|ys| - 1]);
      } else {
        var xs' := xs[..|xs| - 1];
        SubsequenceDrop(xs', i, ys');
        DropBeforeLast(xs, i);
        SubsequenceSnoc(xs'[..i] + xs'[i + 1..], ys', xs[|xs| - 1]);
      }
    } else {
      SubsequenceDrop(xs, i, ys');
      SubsequenceLonger(rest, ys', ys[|ys| - 1]);
    }
  }

  ghost predicate IsNewest(queue: seq<Event>, offered: seq<Event>) {
    |queue| <= |offered| && queue == offered[|offered| - |queue|..]
  }

  /** One offer to a full or a not yet full queue keeps the order of events. */
  lemma OfferInOrder(log: seq<Event>, queue: seq<Event>, offered: seq<Event>, e: Event, evict: bool)
    requires Subsequence(log + queue, offered) && (evict ==> queue != [])
    ensures Subsequence(log + ((if evict then queue[1..] else queue) + [e]), offered + [e])
  {
    hide Subsequence;
    var q := if evict then queue[1..] else queue;
    if evict {
      SubsequenceDrop(log + queue, |log|, offered);
      assert (log + queue)[..|log|] == log;
      assert (log + queue)[|log| + 1..] == q;
    }
    SubsequenceSnoc(log + q, offered, e);
    assert log + (q + [e]) == log + q + [e];
  }

  lemma OfferIsNewest(queue: seq<Event>, offered: seq<Event>, e: Event, evict: bool)
    requires IsNewest(queue, offered) && (evict ==> queue != [])
    ensures IsNewest((if evict then queue[1..] else queue) + [e], offered + [e])
  {
  }

  /** One batch of offers: what was applied before, then the queue, remains a thinning of everything offered. */
  lemma {:induction false} HarvestConserves(p: StoreParams, log: seq<Event>, queue: seq<Event>, drops: nat,
                                            offered: seq<Event>, events: seq<Event>)
    requires Subsequence(log + queue, offered) && IsNewest(queue, offered)
    requires |queue| <= if p.queueCap > 0 then p.queueCap else 0
    ensures var (q, d) := Harvest(p, queue, drops, events);
            && |q| + d == |queue| + drops + |events|
            && |q| <= (if p.queueCap > 0 then p.queueCap else 0)
            && Subsequence(log + q, offered + events) && IsNewest(q, offered + events)
    decreases |events|
  {
    hide Subsequence;
    if p.queueCap <= 0 {
      assert log + queue == log;
      SubsequenceAll(log, offered, events);
    } else if events == [] {
      assert offered + events == offered;
    } else {
      var e := events[0];
      assert offered + events == offered + [e] + events[1..];
      var full := |queue| >= p.queueCap;
      OfferInOrder(log, queue, offered, e, full);
      OfferIsNewest(queue, offered, e, full);
      HarvestConserves(p, log, (if full then queue[1..] else queue) + [e], if full then drops + 1 else drops,
                       offered + [e], events[1..]);
    }
  }

  lemma {:induction false} SubsequenceAll(xs: seq<Event>, ys: seq<Event>, more: seq<Event>)
    requires Subsequence(xs, ys)
    ensures Subsequence(xs, ys + more)
    decreases |more|
  {
    if more != [] {
      SubsequenceAll(xs, ys, more[..|more| - 1]);
      SubsequenceLonger(xs, ys + more[..|more| - 1], more[|more| - 1]);
      assert ys + more == ys + more[..|more| - 1] + [more[|more| - 1]];
    } else {
      assert ys + more == ys;
    }
  }

  /** Every offered event is applied, dropped or pending; the pending ones are the newest, at most `queueCap` of them,
      and events are applied in the order they were offered. */
  lemma {:induction false} EventsConserved<K(!new)>(p: StoreParams, f: Naming<K>, ops: seq<Op>)
    requires WellFormedOps(ops)
    ensures var st := Run(p, f, ops);
            && |Offered(ops)| == st.applied + st.drops + |st.queue|
            && |AppliedLog(p, f, ops)| == st.applied
            && Subsequence(AppliedLog(p, f, ops) + st.queue, Offered(ops))
            && IsNewest(st.queue, Offered(ops))
            && |st.queue| <= (if p.queueCap > 0 then p.queueCap else 0)
  {
    hide ApplyEvents, Harvest, Compacted, BumpEpoch, Subsequence;
    if ops == [] {
      NothingThinned();
      assert AppliedLog(p, f, ops) + [] == [];
    } else {
      EventsConserved(p, f, ops[..|ops| - 1]);
      var st, op, log := Run(p, f, ops[..|ops| - 1]), ops[|ops| - 1], AppliedLog(p, f, ops[..|ops| - 1]);
      var before := Offered(ops[..|ops| - 1]);
      match op
      case Offer(events) =>
        HarvestConserves(p, log, st.queue, st.drops, before, events);
        assert log + [] == log;
      case Drain(limit) =>
        var n := DrainCount(st.queue, limit);
        assert log + st.queue == (log + st.queue[..n]) + st.queue[n..];
        assert before + [] == before;
      case _ =>
        assert log + [] == log && before + [] == before;
    }
  }

  lemma NothingThinned()
    ensures Subsequence([], [])
  {
  }

  // ---------------------------------------------------------------- compaction wears every entry down

  /** Every count in the table is below 2^k. */
  ghost predicate CountsBelow<K(!new)>(h: Hot<K>, k: nat) {
    forall key, t :: key in h.table.m && t in h.table.m[key].cands ==>
      h.table.m[key].cands[t].acc < Pow2(k) && h.table.m[key].cands[t].rej < Pow2(k)
  }

  lemma {:induction false} ShrHalves(x: nat, s: nat, k: nat)
    requires s >= 1 && x < Pow2(k + 1)
    ensures Shr(x, s) < Pow2(k)
  {
    assert Shr(x, s) == Shr(x / 2, s - 1);
    ShrSmaller(x / 2, s - 1);
  }

  lemma CompactHalves<K(!new)>(p: Params, h: Hot<K>, k: nat)
    requires p.Sane() && CountsBelow(h, k + 1)
    ensures CountsBelow(Compacted(p, h), k)
  {
    hide Pow2, Shr;
    var g := Compacted(p, h);
    forall key, t | key in g.table.m && t in g.table.m[key].cands
      ensures g.table.m[key].cands[t].acc < Pow2(k) && g.table.m[key].cands[t].rej < Pow2(k)
    {
      Epochs.CompactedEntry(p, h, h.table.keys, key);
      var c := h.table.m[key].cands[t];
      ShrHalves(c.acc, p.decayShift, k);
      ShrHalves(c.rej, p.decayShift, k);
    }
  }

  function CompactTimes<K(!new)>(p: Params, h: Hot<K>, n: nat): Hot<K>
    decreases n
  {
    if n == 0 then h else CompactTimes(p, Compacted(p, h), n - 1)
  }

  lemma {:induction false} CompactsHalve<K(!new)>(p: Params, h: Hot<K>, n: nat, k: nat)
    requires p.Sane() && CountsBelow(h, k + n)
    ensures CountsBelow(CompactTimes(p, h, n), k)
    decreases n
  {
    hide Compacted, CountsBelow;
    if n > 0 {
      CompactHalves(p, h, k + n - 1);
      CompactsHalve(p, Compacted(p, h), n - 1, k);
    }
  }

  lemma {:induction false} CompactLast<K(!new)>(p: Params, h: Hot<K>, n: nat)
    ensures CompactTimes(p, h, n + 1) == Compacted(p, CompactTimes(p, h, n))
    decreases n
  {
    hide Compacted;
    if n > 0 { CompactLast(p, Compacted(p, h), n - 1); }
  }

  /** Sixteen compactions in a row empty the table: the counters are 16 bits wide and each compaction halves them. */
  lemma SixteenCompactionsEmpty<K(!new)>(p: Params, h: Hot<K>)
    requires p.Sane() && forall key :: key in h.table.m ==> EntryOk(p, h.table.m[key])
    ensures CompactTimes(p, h, 16).table == EmptyDict()
  {
    hide Compacted, Shr;
    WordBits();
    CompactsHalve(p, h, 15, 1);
    CompactLast(p, h, 15);
    var g := CompactTimes(p, h, 15);
    assert Pow2(1) == 2;
    NothingSurvives(p, g, g.table.keys);
  }

  lemma {:induction false} NothingSurvives<K(!new)>(p: Params, h: Hot<K>, keys: seq<K>)
    requires p.Sane() && CountsBelow(h, 1)
    ensures CompactFrom(p, h, keys) == EmptyDict()
    ensures Compacted(p, h).table == CompactFrom(p, h, h.table.keys)
  {
    if keys != [] {
      NothingSurvives(p, h, keys[..|keys| - 1]);
      var key := keys[|keys| - 1];
      if key in h.table.m {
        var e := h.table.m[key];
        forall t | t in e.cands ensures Dead(Halved(p, e.cands[t])) {
          HalvedDies(e.cands[t].acc, p.decayShift);
          HalvedDies(e.cands[t].rej, p.decayShift);
        }
        assert Decayed(p, e).cands == map[];
      }
    }
  }

  lemma HalvedDies(x: nat, s: nat)
    requires s >= 1 && x < Pow2(1)
    ensures Shr(x, s) == 0
  {
    ShrHalves(x, s, 0);
  }

  /** After a compaction every entry is fresh and holds some count. */
  lemma CompactedIsLive<K(!new)>(p: Params, h: Hot<K>, key: K)
    requires key in Compacted(p, h).table.m
    ensures Compacted(p, h).IsFresh(Compacted(p, h).table.m[key])
    ensures exists t :: t in Compacted(p, h).table.m[key].cands && !Dead(Compacted(p, h).table.m[key].cands[t])
  {
    Epochs.CompactedEntry(p, h, h.table.keys, key);
    Epochs.DecayedKeepsStamp(p, h.table.m[key]);
    var d := Decayed(p, h.table.m[key]);
    var t := SomeMember(d.cands.Keys);
    assert t in d.cands && !Dead(d.cands[t]);
  }

  // ---------------------------------------------------------------- what a compaction leaves

  /** `n` is `m` divided by 2^shift, rounded down. */
  predicate Worn(n: nat, m: nat, shift: nat) {
    n * Pow2(shift) <= m < (n + 1) * Pow2(shift)
  }

  /** Counted often enough to survive one compaction. */
  predicate Counts(p: Params, c: Cand) {
    c.acc >= Pow2(p.decayShift) || c.rej >= Pow2(p.decayShift)
  }

  lemma ShrVanishes(x: nat, k: nat)
    ensures Worn(Shr(x, k), x, k) && (Shr(x, k) == 0 <==> x < Pow2(k))
  {
    hide Shr;
    ShrIsDivision(x, k);
    if Shr(x, k) >= 1 { AtLeastOne(Shr(x, k), Pow2(k)); }
  }

  lemma AtLeastOne(n: nat, m: nat)
    requires n >= 1
    ensures n * m >= m
  {
  }

  lemma DecayedIs(p: Params, e: Entry, t: int)
    ensures t in Decayed(p, e).cands <==> t in e.cands && Counts(p, e.cands[t])
    ensures t in Decayed(p, e).cands ==>
              var c, d := e.cands[t], Decayed(p, e).cands[t];
              Worn(d.acc, c.acc, p.decayShift) && Worn(d.rej, c.rej, p.decayShift) && d.q8 == c.q8
  {
    hide Shr, Pow2, Worn;
    if t in e.cands {
      ShrVanishes(e.cands[t].acc, p.decayShift);
      ShrVanishes(e.cands[t].rej, p.decayShift);
    }
  }

  lemma {:induction false} CompactFromIs<K(!new)>(p: Params, h: Hot<K>, keys: seq<K>, key: K)
    ensures key in CompactFrom(p, h, keys).m <==>
            key in keys && key in h.table.m && h.IsFresh(h.table.m[key]) && Decayed(p, h.table.m[key]).cands != map[]
    ensures key in CompactFrom(p, h, keys).m ==> CompactFrom(p, h, keys).m[key] == Decayed(p, h.table.m[key])
  {
    hide Decayed;
    if keys != [] {
      CompactFromIs(p, h, keys[..|keys| - 1], key);
      assert keys == keys[..|keys| - 1] + [keys[|keys| - 1]];
    }
  }

  /** Compaction keeps exactly the fresh entries that hold a candidate counted at least 2^shift times, with
      exactly those candidates, their counts divided by 2^shift, their probabilities and the entry's stamp
      and coverage unchanged. */
  lemma CompactionDivides<K(!new)>(p: Params, h: Hot<K>, key: K)
    requires h.table.Valid()
    ensures var m, m' := h.table.m, Compacted(p, h).table.m;
            && (key in m' <==>
                key in m && h.IsFresh(m[key]) && exists t :: t in m[key].cands && Counts(p, m[key].cands[t]))
            && (key in m' ==>
                  var e, d := m[key], m'[key];
                  && d.seg == e.seg && d.dom == e.dom && d.scope == e.scope && d.epoch == e.epoch && d.cov == e.cov
                  && forall t :: (t in d.cands <==> t in e.cands && Counts(p, e.cands[t])) &&
                       (t in d.cands ==> Worn(d.cands[t].acc, e.cands[t].acc, p.decayShift) &&
                                         Worn(d.cands[t].rej, e.cands[t].rej, p.decayShift) &&
                                         d.cands[t].q8 == e.cands[t].q8))
  {
    hide CompactFrom, Counts, Worn, LiveCands;
    CompactFromIs(p, h, h.table.keys, key);
    if key in h.table.m {
      var e := h.table.m[key];
      forall t
        ensures t in Decayed(p, e).cands <==> t in e.cands && Counts(p, e.cands[t])
        ensures t in Decayed(p, e).cands ==>
                  var c, d := e.cands[t], Decayed(p, e).cands[t];
                  Worn(d.acc, c.acc, p.decayShift) && Worn(d.rej, c.rej, p.decayShift) && d.q8 == c.q8
      {
        DecayedIs(p, e, t);
      }
      if Decayed(p, e).cands != map[] {
        var t := SomeMember(Decayed(p, e).cands.Keys);
        assert t in e.cands && Counts(p, e.cands[t]);
      }
    }
  }

  // ---------------------------------------------------------------- draining and compacting in time

  /** A drain applies as many queued events as it may, and one without limit leaves none. */
  lemma DrainApplies<K(!new)>(p: StoreParams, f: Naming<K>, ops: seq<Op>, limit: Backoff.Option<nat>)
    requires WellFormedOps(ops)
    ensures WellFormedOps(ops + [Drain(limit)])
    ensures var st, st' := Run(p, f, ops), Run(p, f, ops + [Drain(limit)]);
            var n := if limit.Some? && limit.value < |st.queue| then limit.value else |st.queue|;
            && st'.applied == st.applied + n && st'.queue == st.queue[n..]
            && AppliedLog(p, f, ops + [Drain(limit)]) == AppliedLog(p, f, ops) + st.queue[..n]
  {
    hide ApplyEvents, Compacted;
    RunSnoc(p, f, ops, Drain(limit));
    assert (ops + [Drain(limit)])[..|ops|] == ops;
  }

  /** With automatic compaction every `n` events, fewer than `n` events ever wait for one. */
  lemma {:induction false} CompactsInTime<K(!new)>(p: StoreParams, f: Naming<K>, ops: seq<Op>)
    requires WellFormedOps(ops) && p.compactEvery > 0
    ensures Run(p, f, ops).sinceCompact < p.compactEvery
  {
    hide ApplyEvents, Compacted, Harvest;
    if ops != [] { CompactsInTime(p, f, ops[..|ops| - 1]); }
  }
}
