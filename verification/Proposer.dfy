/** The ledger proposer: it drafts from the store's answers and feeds verify outcomes back. */
module Proposers {
  import opened Bits
  import opened Signatures
  import opened Types
  import opened HotTables
  import opened Ledgers
  import opened Answers
  import opened LedgerStores
  import opened Drafts
  import opened Drafting
  import opened DraftLaws
  import opened Backoff
  import Chunking

  /** The store's answers around a context. */
  ghost function Asking(p: StoreParams, h: Hot<Word>, toks: seq<int>, scopes: seq<Word>, seg: int): Oracle {
    (ext: seq<int>) => Answer(p, h, toks + ext, scopes, seg)
  }

  lemma AskingIs(p: StoreParams, h: Hot<Word>, toks: seq<int>, ext: seq<int>, scopes: seq<Word>, seg: int)
    ensures Asking(p, h, toks, scopes, seg)(ext) == Answer(p, h, toks + ext, scopes, seg)
  {
  }

  /** The outcome as the proposer stores it. */
  function Kept(positive: bool, ev: Event): Event {
    if positive then Chunking.Stripped(ev) else ev
  }

  function HarvestOps(ev: Event): seq<LedgerOp> {
    [Table(LockStep.Offer([ev])), Table(LockStep.Drain(None))]
  }

  class LedgerProposer {
    const store: LedgerStore
    const positive: bool
    const draft: DraftParams
    var spanUses: nat
    var patches: nat

    constructor (params: StoreParams, positive: bool, draft: DraftParams)
      ensures fresh(store) && store.params == params && store.Valid() && store.View() == EMPTY_LEDGER
      ensures store.entries == {} && store.spanEntries == {} && fresh(store.arena)
      ensures this.positive == positive && this.draft == draft
    {
      store := new LedgerStore(params);
      this.positive, this.draft := positive, draft;
      spanUses, patches := 0, 0;
    }

    /** Everything the proposer may write to. */
    ghost function Footprint(): set<object>
      reads this, store
    {
      {this, store, store.arena} + store.entries + store.spanEntries
    }

    method Ask(sims: RollingSigStack, scopes: seq<Word>, seg: int) returns (r: Option<Posterior>)
      requires store.HotOk() && store.params.Sane() && store.params.TiersFit(|scopes|) && sims.Valid()
      modifies store.entries`src
      ensures store.HotOk() && store.HotView() == old(store.HotView())
      ensures r == Answer(store.params, store.HotView(), sims.stream, scopes, seg)
    {
      hide *;
      var sigs := sims.StackList();
      r := store.Lookup(sigs, scopes, seg);
      AnswerIs(store.params, store.HotView(), sims.stream, scopes, seg, r);
    }

    method HeavyBreaks(span: SpanProposal) returns (heavy: set<nat>)
      ensures forall off :: off in heavy <==> IsHeavy(draft, span, off)
    {
      heavy := {};
      for i := 0 to |span.breaks|
        invariant forall off :: off in heavy <==>
                  exists j :: 0 <= j < i && span.breaks[j].0 == off && span.breaks[j].1 >= draft.breakSplitMin
      {
        if span.breaks[i].1 >= draft.breakSplitMin {
          heavy := heavy + {span.breaks[i].0};
        }
      }
    }

    /** At a heavy break: the span's token, and if the budget allows, the correction beside it. */
    method Split(tree: DraftTree, sims: RollingSigStack, scopes: seq<Word>, seg: int, tok: int, parent: int,
                 budget: int, ghost ask: Oracle, ghost g: Growth)
      requires store.HotOk() && store.params.Sane() && store.params.TiersFit(|scopes|) && sims.Valid()
      requires g.nodes == tree.nodes && g.parent == parent < |tree.nodes|
      requires ask(g.ext) == Answer(store.params, store.HotView(), sims.stream, scopes, seg)
      modifies this`patches, store.entries`src, tree
      ensures store.HotOk() && store.HotView() == old(store.HotView())
      ensures tree.nodes == SplitAt(ask, g, tok, budget).nodes
    {
      hide LedgerStore.HotOk, LedgerStore.HotView, Answer, RollingSigStack.Valid, CorrectionOf;
      var _ := tree.Add(tok, parent);
      if |tree.nodes| < budget {
        var post := Ask(sims, scopes, seg);
        if post.Some? && post.value.cands != [] {
          var patch := Correction(post.value.cands);
          if patch.tok != tok {
            var _ := tree.Add(patch.tok, parent);
            patches := patches + 1;
          }
        }
      }
    }

    /** Grows the tree below its open end, and follows the added token. */
    method Follow(tree: DraftTree, sims: RollingSigStack, tok: int, parent: int) returns (parent': int)
      requires sims.Valid() && parent < |tree.nodes|
      modifies tree, sims, sims.sigs
      ensures sims.Valid() && sims.stream == old(sims.stream) + [tok]
      ensures tree.nodes == old(tree.nodes) + [DraftNode(tok, parent)] && parent' == |old(tree.nodes)|
    {
      hide RollingSigStack.Valid;
      parent' := tree.Add(tok, parent);
      sims.Push(tok);
    }

    method LayDown(span: SpanProposal, tree: DraftTree, sims: RollingSigStack, scopes: seq<Word>, seg: int, budget: int,
                   ghost ask: Oracle, ghost toks: seq<int>)
      returns (parent: int, ended: bool, ghost ext: seq<int>)
      requires store.HotOk() && store.params.Sane() && store.params.TiersFit(|scopes|) && sims.Valid()
      requires sims.stream == toks && tree.nodes == []
      requires ask == Asking(store.params, store.HotView(), toks, scopes, seg)
      modifies this`patches, store.entries`src, tree, sims, sims.sigs
      ensures store.HotOk() && store.HotView() == old(store.HotView()) && sims.Valid()
      ensures var (g, e) := SpanDraft(draft, ask, span, budget, ROOT, 0);
              ended == e && tree.nodes == g.nodes &&
              (!ended ==> g == Growth(tree.nodes, parent, ext) && sims.stream == toks + ext)
      ensures !ended ==> parent < |tree.nodes|
    {
      hide LedgerStore.HotOk, LedgerStore.HotView, Answer, RollingSigStack.Valid, CorrectionOf, IsHeavy, Asking,
           SplitAt;
      var heavy := HeavyBreaks(span);
      parent, ended, ext := -1, false, [];
      assert toks + [] == toks;
      for off: nat := 0 to |span.tokens|
        invariant store.HotOk() && store.HotView() == old(store.HotView()) && sims.Valid() && sims.stream == toks + ext
        invariant parent < |tree.nodes| && !ended
        invariant SpanDraft(draft, ask, span, budget, Growth(tree.nodes, parent, ext), off) ==
                  SpanDraft(draft, ask, span, budget, ROOT, 0)
      {
        if |tree.nodes| >= budget { break; }
        if off in heavy {
          AskingIs(store.params, store.HotView(), toks, ext, scopes, seg);
          Split(tree, sims, scopes, seg, span.tokens[off], parent, budget, ask, Growth(tree.nodes, parent, ext));
          return parent, true, ext;
        }
        parent := Follow(tree, sims, span.tokens[off], parent);
        ext := ext + [span.tokens[off]];
        assert sims.stream == toks + ext;
      }
    }

    /** Extends the open end while the expected acceptance, the evidence and the budget last. */
    method Chain(tree: DraftTree, sims: RollingSigStack, scopes: seq<Word>, seg: int, budget: int, parent0: int,
                 ghost ask: Oracle, ghost toks: seq<int>, ghost ext0: seq<int>)
      requires store.HotOk() && store.params.Sane() && store.params.TiersFit(|scopes|) && sims.Valid()
      requires sims.stream == toks + ext0 && parent0 < |tree.nodes|
      requires ask == Asking(store.params, store.HotView(), toks, scopes, seg)
      modifies this`patches, store.entries`src, tree, sims, sims.sigs
      ensures store.HotOk() && store.HotView() == old(store.HotView())
      ensures tree.nodes == Expand(draft, ask, budget, Growth(old(tree.nodes), parent0, ext0), 1.0).nodes
    {
      hide LedgerStore.HotOk, LedgerStore.HotView, Answer, RollingSigStack.Valid, CorrectionOf, Asking, Damped;
      var parent, cum := parent0, 1.0;
      ghost var ext := ext0;
      while |tree.nodes| < budget && cum >= draft.cumMin
        invariant store.HotOk() && store.HotView() == old(store.HotView()) && sims.Valid() && sims.stream == toks + ext
        invariant parent < |tree.nodes|
        invariant Expand(draft, ask, budget, Growth(tree.nodes, parent, ext), cum)
               == Expand(draft, ask, budget, Growth(old(tree.nodes), parent0, ext0), 1.0)
        decreases budget - |tree.nodes|
      {
        AskingIs(store.params, store.HotView(), toks, ext, scopes, seg);
        var post := Ask(sims, scopes, seg);
        if post.None? || post.value.cands == [] || post.value.weight < draft.wMin { break; }
        var top := post.value.cands[0];
        var next := top;
        if top.support > 0 && top.pAcc < 0.5 - draft.rejMargin {
          next := Correction(post.value.cands);
          if next.tok == top.tok {
            var _ := tree.Add(top.tok, parent);
            break;
          }
          if budget - |tree.nodes| >= 2 {
            var _ := tree.Add(top.tok, parent);
          }
          patches := patches + 1;
        }
        parent := Follow(tree, sims, next.tok, parent);
        ext := ext + [next.tok];
        assert sims.stream == toks + ext;
        cum := Damped(cum, next.pAcc);
      }
    }

    /** Drafts a tree for the context that `sigs` stands for. Reading the store changes nothing but caches. */
    method Propose(sigs: RollingSigStack, scopes: seq<Word>, seg: int, budget: int) returns (tree: DraftTree)
      requires store.HotOk() && store.SpansOk() && store.params.Sane() && store.params.TiersFit(|scopes|)
      requires sigs.Valid()
      modifies this, store.entries`src
      ensures fresh(tree) && store.HotOk() && store.HotView() == old(store.HotView())
      ensures tree.nodes == Draft(draft, Asking(store.params, store.HotView(), sigs.stream, scopes, seg),
                                  SpanAnswer(store.params, store.epochs, store.SpanView(), StackOf(sigs.stream), scopes,
                                             seg), budget)
      ensures Follows(draft, Asking(store.params, store.HotView(), sigs.stream, scopes, seg),
                      SpanAnswer(store.params, store.epochs, store.SpanView(), StackOf(sigs.stream), scopes, seg),
                      budget, tree.nodes)
      ensures GoodTree(tree.nodes) && |tree.nodes| <= if budget > 0 then budget else 0
    {
      hide LedgerStore.HotOk, LedgerStore.HotView, LedgerStore.SpansOk, LedgerStore.SpanView, Answer,
           RollingSigStack.Valid, Asking, SpanDraft, Expand, SpanAnswer, StackOf, GoodTree, Follows;
      tree := new DraftTree();
      var sims := sigs.Clone();
      ghost var ask := Asking(store.params, store.HotView(), sigs.stream, scopes, seg);
      ghost var toks, ext := sigs.stream, [];
      var parent, ended := -1, false;
      var stack := sims.StackList();
      var span := store.LookupSpan(stack, scopes, seg);
      DraftIsGood(draft, ask, span, budget);
      DraftFollows(draft, ask, span, budget);
      assert toks + [] == toks;
      if span.Some? && span.value.count >= draft.spanMinCount {
        spanUses := spanUses + 1;
        parent, ended, ext := LayDown(span.value, tree, sims, scopes, seg, budget, ask, toks);
      }
      if !ended {
        Chain(tree, sims, scopes, seg, budget, parent, ask, toks, ext);
      }
    }

    /** Stores an outcome; in positive mode only what was realized. */
    method Harvest(ev: Event)
      requires store.Valid() && ev.WellFormed()
      modifies store, store.entries, store.spanEntries, store.arena
      ensures store.Valid() && store.arena == old(store.arena)
      ensures fresh(store.entries - old(store.entries)) && fresh(store.spanEntries - old(store.spanEntries))
      ensures OpsOk(HarvestOps(Kept(positive, ev)))
      ensures store.View() == LedgerRun(store.params, old(store.View()), HarvestOps(Kept(positive, ev)))
    {
      hide *;
      KeptIsWellFormed(positive, ev);
      var kept := if positive then Chunking.Stripped(ev) else ev;
      store.Opened();
      TwoOps(store.params, store.View(), kept);
      store.Perform(Table(LockStep.Offer([kept])));
      store.Perform(Table(LockStep.Drain(None)));
    }

    method EndRequest()
      requires store.Valid()
      modifies store, store.entries, store.spanEntries, store.arena
      ensures store.Valid() && store.arena == old(store.arena)
      ensures fresh(store.entries - old(store.entries)) && fresh(store.spanEntries - old(store.spanEntries))
      ensures store.View() == LedgerStep(store.params, old(store.View()), LedgerOp.FlushRuns)
    {
      hide LedgerStep, LedgerStore.Valid, LedgerStore.View;
      store.Perform(LedgerOp.FlushRuns);
    }
  }

  lemma KeptIsWellFormed(positive: bool, ev: Event)
    requires ev.WellFormed()
    ensures Kept(positive, ev) == (if positive then Chunking.Stripped(ev) else ev) && Kept(positive, ev).WellFormed()
  {
    Chunking.StrippedRealizes(ev);
  }

  lemma TwoOps(p: StoreParams, l: Ledger, ev: Event)
    requires l.Valid() && ev.WellFormed()
    ensures var a, b := Table(LockStep.Offer([ev])), Table(LockStep.Drain(None));
            && OpOk(a) && OpOk(b) && OpsOk(HarvestOps(ev))
            && LedgerRun(p, l, HarvestOps(ev)) == LedgerStep(p, LedgerStep(p, l, a), b)
  {
    hide LedgerStep;
    var ops := HarvestOps(ev);
    assert ops[..1][..0] == [] && ops[..1] == [Table(LockStep.Offer([ev]))];
    assert LedgerRun(p, l, ops[..1]) == LedgerStep(p, LedgerRun(p, l, []), ops[0]);
  }
}
