/** In positive mode the table depends on the token and segment streams only, not on how verify steps cut them up. */
module Chunking {
  import opened Bits
  import opened Signatures
  import opened Types
  import opened HotTables
  import opened Backoff
  import opened LockStep

  /** The positive proposer's view of an outcome: everything realized counts as accepted, and no logits. */
  function Stripped(ev: Event): Event {
    var r := ev.Realized();
    var n := |r|;
    ev.(draft := r[..n - 1], acceptedLen := n - 1, bonus := r[n - 1],
        topkIds := seq(n, i => []), topkQ8s := seq(n, i => []))
  }

  lemma StrippedRealizes(ev: Event)
    ensures Stripped(ev).Realized() == ev.Realized() && Stripped(ev).WellFormed() == (ev.scopes != [])
  {
  }

  /** `ev` reports the tokens of the stream from `start` on, as one verify step of a replay does. */
  ghost predicate ReportsChunk(ev: Event, scopes: seq<Word>, toks: seq<int>, segs: seq<int>, start: nat) {
    var n := |ev.Realized()|;
    && start + n <= |toks| == |segs|
    && ev.scopes == scopes && ev.fileId == 0
    && ev.ctxTail == LastTokens(toks[..start], MAX_ORDER)
    && ev.Realized() == toks[start..start + n]
    && ev.seg == segs[start..start + n]
  }

  /** The steps report the first `end` tokens of the stream, one after the other. */
  ghost predicate ReportsStream(evs: seq<Event>, scopes: seq<Word>, toks: seq<int>, segs: seq<int>, end: nat) {
    if evs == [] then end == 0 else
      var ev := evs[|evs| - 1];
      var n := |ev.Realized()|;
      n <= end && ReportsChunk(ev, scopes, toks, segs, end - n) &&
      ReportsStream(evs[..|evs| - 1], scopes, toks, segs, end - n)
  }

  function StripAll(evs: seq<Event>): seq<Event> {
    seq(|evs|, i requires 0 <= i < |evs| => Stripped(evs[i]))
  }

  function PlainObservation(tok: int): Observation {
    Observation(tok, None, Some(([], [])))
  }

  function StreamSite(scopes: seq<Word>, toks: seq<int>, segs: seq<int>, i: nat): Site
    requires i < |toks| == |segs|
  {
    Site(toks[..i], scopes, segs[i], 0)
  }

  /** What the first `k` tokens of a stream touch, token by token. */
  ghost function StreamTouches<K(!new)>(p: StoreParams, f: Naming<K>, scopes: seq<Word>, toks: seq<int>, segs: seq<int>,
                                        k: nat): seq<Touch<K>>
    requires k <= |toks| == |segs|
  {
    if k == 0 then [] else
      StreamTouches(p, f, scopes, toks, segs, k - 1)
      + SiteTouches(p, f, StreamSite(scopes, toks, segs, k - 1), PlainObservation(toks[k - 1]))
  }

  // ---------------------------------------------------------------- eight tokens of context are enough

  ghost predicate SameTail(s: Site, t: Site) {
    && LastTokens(s.before, MAX_ORDER) == LastTokens(t.before, MAX_ORDER)
    && s.scopes == t.scopes && s.seg == t.seg && s.dom == t.dom
  }

  lemma SameContext(s: Site, t: Site, order: nat, depth: nat)
    requires SameTail(s, t) && order <= MAX_ORDER && depth < |s.scopes|
    ensures ContextAt(s, order, depth) == ContextAt(t, order, depth)
  {
    LastOfLast(s.before, order, MAX_ORDER);
    LastOfLast(t.before, order, MAX_ORDER);
  }

  lemma {:induction false} SameDepthTouches<K(!new)>(p: StoreParams, f: Naming<K>, s: Site, t: Site, o: Observation,
                                                     order: nat, depth: nat)
    requires SameTail(s, t) && order <= MAX_ORDER
    ensures DepthTouches(p, f, s, o, order, depth) == DepthTouches(p, f, t, o, order, depth)
    decreases |s.scopes| - depth
  {
    hide LastTokens;
    if depth < |s.scopes| {
      SameContext(s, t, order, depth);
      SameDepthTouches(p, f, s, t, o, order, depth + 1);
    }
  }

  lemma {:induction false} SameOrderTouches<K(!new)>(p: StoreParams, f: Naming<K>, s: Site, t: Site, o: Observation,
                                                     order: nat)
    requires SameTail(s, t)
    ensures OrderTouches(p, f, s, o, order) == OrderTouches(p, f, t, o, order)
    decreases MAX_ORDER + 1 - order
  {
    assert order <= MAX_ORDER ==> (order <= |s.before| <==> order <= |t.before|);
    if order <= MAX_ORDER && order <= |s.before| {
      SameDepthTouches(p, f, s, t, o, order, 0);
      SameOrderTouches(p, f, s, t, o, order + 1);
    }
  }

  lemma TailOfChunk(toks: seq<int>, start: nat, pos: nat)
    requires start + pos <= |toks|
    ensures LastTokens(LastTokens(toks[..start], MAX_ORDER) + toks[start..start + pos], MAX_ORDER) ==
            LastTokens(toks[..start + pos], MAX_ORDER)
  {
    assert toks[..start + pos] == toks[..start] + toks[start..start + pos];
  }

  lemma SiteInStream(ev: Event, scopes: seq<Word>, toks: seq<int>, segs: seq<int>, start: nat, pos: nat)
    requires ReportsChunk(ev, scopes, toks, segs, start) && pos < |ev.Realized()|
    ensures SameTail(SiteAt(ev, pos), StreamSite(scopes, toks, segs, start + pos))
    ensures ev.Realized()[pos] == toks[start + pos]
  {
    hide LastTokens;
    TailOfChunk(toks, start, pos);
    assert ev.Realized()[..pos] == toks[start..start + pos];
  }

  /** From its position `pos` on, a stripped step touches what the stream touches there. */
  lemma {:induction false} ChunkTouches<K(!new)>(p: StoreParams, f: Naming<K>, ev: Event, scopes: seq<Word>,
                                                 toks: seq<int>, segs: seq<int>, start: nat, pos: nat)
    requires scopes != [] && ReportsChunk(ev, scopes, toks, segs, start) && pos <= |ev.Realized()|
    requires Stripped(ev).WellFormed() && Stripped(ev).Realized() == ev.Realized()
    ensures StreamTouches(p, f, scopes, toks, segs, start + pos) + EventTouches(p, f, Stripped(ev), pos)
         == StreamTouches(p, f, scopes, toks, segs, start + |ev.Realized()|)
    decreases |ev.Realized()| - pos
  {
    hide OrderTouches, SameTail, ReportsChunk;
    var e := Stripped(ev);
    if pos < |ev.Realized()| {
      SiteInStream(ev, scopes, toks, segs, start, pos);
      StrippedAt(ev, pos);
      ChunkLengths(ev, scopes, toks, segs, start);
      SameOrderTouches(p, f, SiteAt(ev, pos), StreamSite(scopes, toks, segs, start + pos),
                       PlainObservation(toks[start + pos]), 2);
      ChunkTouches(p, f, ev, scopes, toks, segs, start, pos + 1);
      var a, b, c := StreamTouches(p, f, scopes, toks, segs, start + pos),
                     SiteTouches(p, f, SiteAt(e, pos), ObservationAt(e, pos)), EventTouches(p, f, e, pos + 1);
      assert a + (b + c) == (a + b) + c;
    }
  }

  lemma ChunkLengths(ev: Event, scopes: seq<Word>, toks: seq<int>, segs: seq<int>, start: nat)
    requires ReportsChunk(ev, scopes, toks, segs, start)
    ensures start + |ev.Realized()| <= |toks| == |segs|
  {
  }

  /** Stripping changes neither the site nor, beyond the outcome, what is observed there. */
  lemma StrippedAt(ev: Event, pos: nat)
    requires pos < |ev.Realized()| && Stripped(ev).Realized() == ev.Realized()
    ensures SiteAt(Stripped(ev), pos) == SiteAt(ev, pos)
    ensures ObservationAt(Stripped(ev), pos) == PlainObservation(ev.Realized()[pos])
  {
  }

  /** Any way of cutting the stream leads to the table that the stream builds token by token. */
  lemma {:induction false} StepsBuildStreamTable<K(!new)>(p: StoreParams, f: Naming<K>, h: Hot<K>, evs: seq<Event>,
                                                          scopes: seq<Word>, toks: seq<int>, segs: seq<int>, end: nat)
    requires scopes != [] && end <= |toks| == |segs| && ReportsStream(evs, scopes, toks, segs, end)
    ensures WellFormedQueue(StripAll(evs))
    ensures ApplyEvents(p, f, h, StripAll(evs)) == ApplyTouches(p, h, StreamTouches(p, f, scopes, toks, segs, end))
  {
    hide ReportsChunk, EventTouches, StreamTouches, Stripped, ApplyEvents, ApplyTouches, StripAll;
    if evs == [] {
      NoStreamTouches(p, f, scopes, toks, segs);
      NoEvents(p, f, h);
    } else {
      var ev, rest := evs[|evs| - 1], evs[..|evs| - 1];
      var n := |ev.Realized()|;
      StepsBuildStreamTable(p, f, h, rest, scopes, toks, segs, end - n);
      ChunkScopes(ev, scopes, toks, segs, end - n);
      StrippedRealizes(ev);
      LastStep(p, f, h, evs);
      ChunkTouches(p, f, ev, scopes, toks, segs, end - n, 0);
      ApplyTouchesConcat(p, h, StreamTouches(p, f, scopes, toks, segs, end - n), EventTouches(p, f, Stripped(ev), 0));
    }
  }

  lemma NoEvents<K(!new)>(p: StoreParams, f: Naming<K>, h: Hot<K>)
    ensures WellFormedQueue(StripAll([])) && ApplyEvents(p, f, h, StripAll([])) == h == ApplyTouches(p, h, [])
  {
  }

  lemma LastStep<K(!new)>(p: StoreParams, f: Naming<K>, h: Hot<K>, evs: seq<Event>)
    requires evs != [] && WellFormedQueue(StripAll(evs[..|evs| - 1])) && Stripped(evs[|evs| - 1]).WellFormed()
    ensures WellFormedQueue(StripAll(evs))
    ensures ApplyEvents(p, f, h, StripAll(evs)) ==
            ApplyTouches(p, ApplyEvents(p, f, h, StripAll(evs[..|evs| - 1])),
                         EventTouches(p, f, Stripped(evs[|evs| - 1]), 0))
  {
    hide Stripped, EventTouches, ApplyTouches;
    assert StripAll(evs)[..|evs| - 1] == StripAll(evs[..|evs| - 1]);
    forall i | 0 <= i < |evs| ensures StripAll(evs)[i].WellFormed() {
      if i < |evs| - 1 { assert StripAll(evs)[i] == StripAll(evs[..|evs| - 1])[i]; }
    }
  }

  lemma ChunkScopes(ev: Event, scopes: seq<Word>, toks: seq<int>, segs: seq<int>, start: nat)
    requires ReportsChunk(ev, scopes, toks, segs, start)
    ensures ev.scopes == scopes
  {
  }

  lemma NoStreamTouches<K(!new)>(p: StoreParams, f: Naming<K>, scopes: seq<Word>, toks: seq<int>, segs: seq<int>)
    requires |toks| == |segs|
    ensures StreamTouches(p, f, scopes, toks, segs, 0) == []
  {
  }

  // ---------------------------------------------------------------- through the queue

  /** Each step is offered and drained before the next one, as the simulator does. */
  function StepwiseOps(evs: seq<Event>): seq<Op> {
    if evs == [] then [] else StepwiseOps(evs[..|evs| - 1]) + [Offer([evs[|evs| - 1]]), Drain(None)]
  }

  lemma {:induction false} StepwiseRun<K(!new)>(p: StoreParams, f: Naming<K>, evs: seq<Event>)
    requires WellFormedQueue(evs) && p.queueCap >= 1 && p.compactEvery == 0
    ensures WellFormedOps(StepwiseOps(evs))
    ensures Run(p, f, StepwiseOps(evs)).queue == []
    ensures Run(p, f, StepwiseOps(evs)).hot == ApplyEvents(p, f, EmptyHot(), evs)
  {
    hide ApplyEvent, Run, Harvest;
    if evs != [] {
      var rest, ev := evs[..|evs| - 1], evs[|evs| - 1];
      StepwiseRun(p, f, rest);
      OneRound(p, f, StepwiseOps(rest), ev);
    } else {
      NoOps<K>(p, f);
    }
  }

  lemma NoOps<K(!new)>(p: StoreParams, f: Naming<K>)
    ensures Run(p, f, []) == EmptyStore()
  {
  }

  lemma OneRound<K(!new)>(p: StoreParams, f: Naming<K>, before: seq<Op>, ev: Event)
    requires WellFormedOps(before) && ev.WellFormed() && p.queueCap >= 1 && p.compactEvery == 0
    requires Run(p, f, before).queue == []
    ensures WellFormedOps(before + [Offer([ev]), Drain(None)])
    ensures Run(p, f, before + [Offer([ev]), Drain(None)]).queue == []
    ensures Run(p, f, before + [Offer([ev]), Drain(None)]).hot == ApplyEvent(p, f, Run(p, f, before).hot, ev)
  {
    hide ApplyEvent, ApplyEvents, Harvest, Run;
    RunSnoc(p, f, before, Offer([ev]));
    RunSnoc(p, f, before + [Offer([ev])], Drain(None));
    assert before + [Offer([ev]), Drain(None)] == before + [Offer([ev])] + [Drain(None)];
    OfferToEmpty(p, Run(p, f, before).drops, ev);
    var st := Run(p, f, before + [Offer([ev])]);
    assert st.queue[..1] == [ev];
    OneEvent(p, f, st.hot, ev);
  }

  lemma OfferToEmpty(p: StoreParams, drops: nat, ev: Event)
    requires p.queueCap >= 1
    ensures Harvest(p, [], drops, [ev]) == ([ev], drops)
  {
    assert Harvest(p, [ev], drops, [ev][1..]) == ([ev], drops);
    assert [] + [ev] == [ev];
  }

  lemma OneEvent<K(!new)>(p: StoreParams, f: Naming<K>, h: Hot<K>, ev: Event)
    requires ev.WellFormed()
    ensures ApplyEvents(p, f, h, [ev]) == ApplyEvent(p, f, h, ev)
  {
    assert [ev][..0] == [];
    assert ApplyEvents(p, f, h, []) == h;
  }

  /** Two replays of the same stream, cut into verify steps in any two ways, build the same table. */
  lemma ChunkingIndependent<K(!new)>(p: StoreParams, f: Naming<K>, evs: seq<Event>, evs': seq<Event>,
                                     scopes: seq<Word>, toks: seq<int>, segs: seq<int>)
    requires p.queueCap >= 1 && p.compactEvery == 0 && scopes != [] && |toks| == |segs|
    requires ReportsStream(evs, scopes, toks, segs, |toks|) && ReportsStream(evs', scopes, toks, segs, |toks|)
    ensures WellFormedOps(StepwiseOps(StripAll(evs))) && WellFormedOps(StepwiseOps(StripAll(evs')))
    ensures Run(p, f, StepwiseOps(StripAll(evs))).hot == Run(p, f, StepwiseOps(StripAll(evs'))).hot
    ensures Run(p, f, StepwiseOps(StripAll(evs))).hot
         == ApplyTouches(p, EmptyHot(), StreamTouches(p, f, scopes, toks, segs, |toks|))
  {
    hide Run, ReportsStream, ApplyEvents, StreamTouches;
    StepsBuildStreamTable(p, f, EmptyHot(), evs, scopes, toks, segs, |toks|);
    StepsBuildStreamTable(p, f, EmptyHot(), evs', scopes, toks, segs, |toks|);
    StepwiseRun(p, f, StripAll(evs));
    StepwiseRun(p, f, StripAll(evs'));
  }
}
