/** A reloaded store answers like the one it was written from, for ever. */
module Reloads {
  import opened Bits
  import opened Dicts
  import opened Types
  import opened Ledgers
  import opened Answers
  import opened LedgerStores
  import opened Backoff

  /** Two stores that share no object. */
  ghost predicate Apart(a: LedgerStore, b: LedgerStore)
    reads a, b
  {
    a != b && a.entries !! b.entries && a.spanEntries !! b.spanEntries && a.arena != b.arena
  }

  /** What a reload does not restore is empty: nothing queued, no run open. */
  lemma QuietStoresAgree(a: Ledger, b: Ledger)
    requires a.store.hot == b.store.hot && a.spans.spans == b.spans.spans
    requires a.store.queue == b.store.queue == [] && a.spans.runs == b.spans.runs == EmptyDict()
    ensures Agree(a, b)
  {
  }

  /** Snapshot and load into a new store of the same parameters. */
  method Reload(a: LedgerStore) returns (b: LedgerStore)
    requires a.Valid() && a.queue == [] && a.runs == EmptyDict()
    ensures fresh(b) && fresh(b.entries) && fresh(b.spanEntries) && fresh(b.arena)
    ensures b.Valid() && b.params == a.params && Agree(a.View(), b.View())
  {
    hide *;
    a.Opened();
    var doc := a.Snapshot();
    b := new LedgerStore(a.params);
    EmptyLedgerIsQuiet();
    b.Opened();
    b.Load(doc, a.arena.blocks);
    b.Opened();
    QuietStoresAgree(a.View(), b.View());
  }

  /** Runs the same operations on both stores; each does what the value-level ledger does, and neither disturbs the
      other. */
  method PerformBoth(a: LedgerStore, b: LedgerStore, ops: seq<LedgerOp>)
    requires a.Valid() && b.Valid() && Apart(a, b) && OpsOk(ops)
    modifies a, a.entries, a.spanEntries, a.arena, b, b.entries, b.spanEntries, b.arena
    ensures a.Valid() && b.Valid() && Apart(a, b)
    ensures a.View() == LedgerRun(a.params, old(a.View()), ops) && b.View() == LedgerRun(b.params, old(b.View()), ops)
    ensures fresh(a.entries - old(a.entries)) && fresh(b.entries - old(b.entries))
  {
    hide *;
    a.Opened();
    b.Opened();
    Prefixes(ops);
    ghost var v, w := a.View(), b.View();
    NoOps(a.params, v);
    NoOps(b.params, w);
    for i := 0 to |ops|
      invariant a.Valid() && b.Valid() && Apart(a, b) && a.arena == old(a.arena) && b.arena == old(b.arena)
      invariant a.View() == LedgerRun(a.params, v, ops[..i]) && b.View() == LedgerRun(b.params, w, ops[..i])
      invariant fresh(a.entries - old(a.entries)) && fresh(b.entries - old(b.entries))
      invariant fresh(a.spanEntries - old(a.spanEntries)) && fresh(b.spanEntries - old(b.spanEntries))
    {
      OneMoreOp(a.params, v, ops, i);
      OneMoreOp(b.params, w, ops, i);
      PerformBeside(a, b, ops[i]);
      PerformBeside(b, a, ops[i]);
    }
    assert ops[..|ops|] == ops;
  }

  method PerformBeside(a: LedgerStore, b: LedgerStore, op: LedgerOp)
    requires a.Valid() && b.Valid() && Apart(a, b) && OpOk(op)
    modifies a, a.entries, a.spanEntries, a.arena
    ensures a.Valid() && b.Valid() && Apart(a, b) && Apart(b, a) && a.arena == old(a.arena)
    ensures a.View() == LedgerStep(a.params, old(a.View()), op) && b.View() == old(b.View())
    ensures fresh(a.entries - old(a.entries)) && fresh(a.spanEntries - old(a.spanEntries))
  {
    hide LedgerStep, LedgerStore.Valid, LedgerStore.View;
    a.Perform(op);
  }

  lemma Prefixes(ops: seq<LedgerOp>)
    requires OpsOk(ops)
    ensures forall i :: 0 <= i <= |ops| ==> OpsOk(ops[..i])
  {
    hide OpOk;
  }

  lemma NoOps(p: StoreParams, l: Ledger)
    requires l.Valid()
    ensures OpsOk([]) && LedgerRun(p, l, []) == l
  {
  }

  lemma OneMoreOp(p: StoreParams, l: Ledger, ops: seq<LedgerOp>, i: nat)
    requires l.Valid() && OpsOk(ops) && i < |ops|
    ensures OpsOk(ops[..i]) && OpsOk(ops[..i + 1]) && OpOk(ops[i])
    ensures LedgerRun(p, l, ops[..i + 1]) == LedgerStep(p, LedgerRun(p, l, ops[..i]), ops[i])
  {
    hide LedgerStep, OpOk;
    assert ops[..i + 1][..i] == ops[..i];
  }

  /** Without automatic compaction, a reloaded store gives the same posterior and the same span proposal as the store it
      was written from, after any further operations and for any query. */
  method ReloadedStoreAgrees(a: LedgerStore, ops: seq<LedgerOp>, sigs: seq<Word>, scopes: seq<Word>, seg: int)
    returns (r: Option<Posterior>, r': Option<Posterior>, s: Option<SpanProposal>, s': Option<SpanProposal>)
    requires a.Valid() && a.queue == [] && a.runs == EmptyDict() && OpsOk(ops)
    requires a.params.Sane() && a.params.compactEvery == 0 && a.params.TiersFit(|scopes|)
    modifies a, a.entries, a.spanEntries, a.arena
    ensures r == r' && s == s'
  {
    hide *;
    var b := Reload(a);
    assert Apart(a, b) by { FreshIsApart(a, b); }
    a.Opened();
    b.Opened();
    ghost var v, w := a.View(), b.View();
    PerformBoth(a, b, ops);
    AgreeForever(a.params, v, w, ops);
    SameEverywhere(a, b);
    SaneBackoff(a.params);
    s := a.LookupSpan(sigs, scopes, seg);
    s' := b.LookupSpan(sigs, scopes, seg);
    r, r' := LookupBoth(a, b, sigs, scopes, seg);
  }

  lemma FreshIsApart(a: LedgerStore, b: LedgerStore)
    requires a != b && a.entries !! b.entries && a.spanEntries !! b.spanEntries && a.arena != b.arena
    ensures Apart(a, b)
  {
  }

  lemma SameEverywhere(a: LedgerStore, b: LedgerStore)
    requires a.Valid() && b.Valid() && Agree(a.View(), b.View()) && Apart(a, b)
    ensures a.entries !! b.entries
    ensures a.HotOk() && b.HotOk() && a.SpansOk() && b.SpansOk()
    ensures a.HotView() == b.HotView() && a.SpanView() == b.SpanView() && a.epochs == b.epochs
  {
    hide LedgerStore.HotOk, LedgerStore.SpansOk, LedgerStore.SpanView, LedgerStore.HotView, LedgerStore.Valid,
         LedgerStore.View;
    a.Opened();
    b.Opened();
  }

  /** Equal tables, equal posteriors, although the two stores may list the candidates differently. */
  method LookupBoth(a: LedgerStore, b: LedgerStore, sigs: seq<Word>, scopes: seq<Word>, seg: int)
    returns (r: Option<Posterior>, r': Option<Posterior>)
    requires a.HotOk() && b.HotOk() && a.HotView() == b.HotView() && a.entries !! b.entries && a.params == b.params
    requires a.params.Sane() && a.params.TiersFit(|scopes|)
    modifies a.entries`src, b.entries`src
    ensures r == r'
  {
    hide *;
    r := a.Lookup(sigs, scopes, seg);
    r' := b.Lookup(sigs, scopes, seg);
    SaneBackoff(a.params);
    AnswerUnique(a.params.backoff, SigMatches(a.params, a.HotView(), sigs, scopes, seg, 0), r, r');
  }
}
