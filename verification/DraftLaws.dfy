/** What a drafted tree consists of, read off its nodes and the store's answers along each node's own path. */
module DraftLaws {
  import opened Answers
  import opened Drafts
  import opened Backoff
  import opened Drafting

  /** The candidate that the draft goes on with: the first, or the most probable one if the first is mostly rejected. */
  function Followed(d: DraftParams, post: Posterior): PosteriorCand
    requires post.cands != []
  {
    if RejectDominant(d, post.cands[0]) then CorrectionOf(post.cands) else post.cands[0]
  }

  predicate Usable(d: DraftParams, post: Option<Posterior>) {
    post.Some? && post.value.cands != [] && post.value.weight >= d.wMin
  }

  /** The expected acceptance along a path: the acceptance, at least 5 percent, of every candidate followed after the
      first `k` tokens. */
  function Expected(d: DraftParams, ask: Oracle, k: nat, path: seq<int>): real {
    if |path| <= k then 1.0 else
      var post := ask(path[..|path| - 1]);
      if !Usable(d, post) then 0.0 else
        var acc := Followed(d, post.value).pAcc;
        Expected(d, ask, k, path[..|path| - 1]) * if acc > 0.05 then acc else 0.05
  }

  /** Node `v` hangs on the node before it, or beside the leaf that stands before it, and carries what the store's
      answer at its parent's path prescribes: the first choice, or, where that is mostly rejected, the first choice as a
      leaf and then the correction, or only the correction when the budget ends with it. */
  ghost predicate Justified(d: DraftParams, ask: Oracle, budget: int, k: nat, nodes: seq<DraftNode>, v: nat)
    requires v < |nodes|
  {
    var par := nodes[v].parent;
    var at := PathTo(nodes, par);
    && v < budget && Usable(d, ask(at)) && Expected(d, ask, k, at) >= d.cumMin
    && var top, next := ask(at).value.cands[0], CorrectionOf(ask(at).value.cands);
    if !RejectDominant(d, top) then par == v - 1 && nodes[v].tok == top.tok
    else if nodes[v].tok == top.tok then
      && par == v - 1 && (forall u :: 0 <= u < |nodes| ==> nodes[u].parent != v)
      && if next.tok == top.tok then |nodes| == v + 1
         else v + 1 < |nodes| && nodes[v + 1] == DraftNode(next.tok, par)
    else
      && nodes[v].tok == next.tok
      && ((v > k && par == v - 2 && nodes[v - 1] == DraftNode(top.tok, par)) || (par == v - 1 && v == budget - 1))
  }

  /** Nothing more could be drafted: the budget is used up; or the last node's path has too little expected acceptance,
      or no usable answer; or the last node is a mostly rejected first choice that is its own correction. */
  ghost predicate Finished(d: DraftParams, ask: Oracle, budget: int, k: nat, nodes: seq<DraftNode>) {
    var at := PathTo(nodes, |nodes| - 1);
    || |nodes| >= budget
    || Expected(d, ask, k, at) < d.cumMin
    || !Usable(d, ask(at))
    || (|nodes| > k &&
        var last := nodes[|nodes| - 1];
        var post := ask(PathTo(nodes, last.parent));
        && Usable(d, post) && RejectDominant(d, post.value.cands[0])
        && CorrectionOf(post.value.cands).tok == post.value.cands[0].tok == last.tok)
  }

  /** The first `k` nodes lay down the span, one below the other, with no heavy break among them. */
  ghost predicate SpanPart(d: DraftParams, span: SpanProposal, k: nat, nodes: seq<DraftNode>) {
    && k <= |span.tokens| && k <= |nodes|
    && forall i :: 0 <= i < k ==> nodes[i] == DraftNode(span.tokens[i], i - 1) && !IsHeavy(d, span, i)
  }

  /** At the first heavy break the span's token comes last, with the correction beside it if there is another one and
      the budget allows it. */
  ghost predicate SplitPart(d: DraftParams, ask: Oracle, span: SpanProposal, budget: int, k: nat,
                            nodes: seq<DraftNode>)
  {
    && k < |span.tokens| && k < budget && IsHeavy(d, span, k)
    && k < |nodes| && nodes[k] == DraftNode(span.tokens[k], k - 1)
    && var post := ask(span.tokens[..k]);
    if k + 1 < budget && post.Some? && post.value.cands != [] && CorrectionOf(post.value.cands).tok != span.tokens[k]
    then |nodes| == k + 2 && nodes[k + 1] == DraftNode(CorrectionOf(post.value.cands).tok, k - 1)
    else |nodes| == k + 1
  }

  ghost predicate ChainPart(d: DraftParams, ask: Oracle, budget: int, k: nat, nodes: seq<DraftNode>) {
    && k <= |nodes| && (forall v :: k <= v < |nodes| ==> Justified(d, ask, budget, k, nodes, v))
    && Finished(d, ask, budget, k, nodes)
  }

  /** The tree is what the span and the answers prescribe: the span laid down as far as the budget and the first heavy
      break allow, and, unless a heavy break ended it, the chain below. */
  ghost predicate Follows(d: DraftParams, ask: Oracle, span: Option<SpanProposal>, budget: int, nodes: seq<DraftNode>) {
    if span.Some? && span.value.count >= d.spanMinCount then
      exists k: nat ::
        && SpanPart(d, span.value, k, nodes)
        && (SplitPart(d, ask, span.value, budget, k, nodes) ||
            ((k == |span.value.tokens| || k >= budget) && ChainPart(d, ask, budget, k, nodes)))
    else ChainPart(d, ask, budget, 0, nodes)
  }

  // ---------------------------------------------------------------- paths in a growing tree

  lemma {:induction false} PathKept(nodes: seq<DraftNode>, more: seq<DraftNode>, v: int)
    requires v < |nodes| <= |more| && more[..|nodes|] == nodes
    ensures PathTo(more, v) == PathTo(nodes, v)
    decreases v
  {
    if 0 <= v {
      assert more[v] == more[..|nodes|][v];
      if nodes[v].parent < v { PathKept(nodes, more, nodes[v].parent); }
    }
  }

  /** The open end is the last node, at the end of these tokens. */
  ghost predicate OpenAt(g: Growth) {
    Topological(g.nodes) && g.parent == |g.nodes| - 1 && PathTo(g.nodes, g.parent) == g.ext
  }

  lemma ExtendedOpen(g: Growth, tok: int)
    requires OpenAt(g)
    ensures OpenAt(g.Extend(tok))
  {
    PathKept(g.nodes, g.Extend(tok).nodes, g.parent);
  }

  lemma LeafExtendedOpen(g: Growth, top: int, tok: int)
    requires OpenAt(g)
    ensures OpenAt(g.Leaf(top).Extend(tok))
  {
    PathKept(g.nodes, g.Leaf(top).Extend(tok).nodes, g.parent);
  }

  lemma OneMoreExpected(d: DraftParams, ask: Oracle, k: nat, path: seq<int>, tok: int)
    requires |path| >= k && Usable(d, ask(path))
    ensures Expected(d, ask, k, path + [tok]) ==
            Damped(Expected(d, ask, k, path), Followed(d, ask(path).value).pAcc)
  {
    assert (path + [tok])[..|path|] == path;
  }

  // ---------------------------------------------------------------- the chain

  /** What an expansion adds to a growing tree. */
  ghost predicate Expands(d: DraftParams, ask: Oracle, budget: int, k: nat, g: Growth, nodes: seq<DraftNode>) {
    && |g.nodes| <= |nodes| && nodes[..|g.nodes|] == g.nodes
    && (forall v :: |g.nodes| <= v < |nodes| ==>
          g.parent <= nodes[v].parent < v && Justified(d, ask, budget, k, nodes, v))
    && Finished(d, ask, budget, k, nodes)
  }

  lemma {:induction false} ExpandFollows(d: DraftParams, ask: Oracle, budget: int, g: Growth, cum: real, k: nat)
    requires OpenAt(g) && k <= |g.nodes| && k <= |g.ext| && cum == Expected(d, ask, k, g.ext)
    ensures Expands(d, ask, budget, k, g, Expand(d, ask, budget, g, cum).nodes)
    decreases budget - |g.nodes|
  {
    hide RejectDominant, Damped, Expected, CorrectionOf, PathTo, Justified, Finished;
    if |g.nodes| >= budget || cum < d.cumMin || !Usable(d, ask(g.ext)) {
      Stops(d, ask, budget, g, k);
    } else {
      var post := ask(g.ext).value;
      var top, next := post.cands[0], CorrectionOf(post.cands);
      if !RejectDominant(d, top) {
        ExtendedOpen(g, top.tok);
        OneMoreExpected(d, ask, k, g.ext, top.tok);
        ExpandFollows(d, ask, budget, g.Extend(top.tok), Damped(cum, top.pAcc), k);
        FirstChoice(d, ask, budget, k, g, Expand(d, ask, budget, g, cum).nodes);
      } else if next.tok == top.tok {
        LastLeaf(d, ask, budget, k, g);
      } else {
        var both := budget - |g.nodes| >= 2;
        var h := if both then g.Leaf(top.tok) else g;
        if both { LeafExtendedOpen(g, top.tok, next.tok); } else { ExtendedOpen(g, next.tok); }
        OneMoreExpected(d, ask, k, g.ext, next.tok);
        ExpandFollows(d, ask, budget, h.Extend(next.tok), Damped(cum, next.pAcc), k);
        Corrected(d, ask, budget, k, g, Expand(d, ask, budget, g, cum).nodes);
      }
    }
  }

  lemma Stops(d: DraftParams, ask: Oracle, budget: int, g: Growth, k: nat)
    requires OpenAt(g)
    requires |g.nodes| >= budget || Expected(d, ask, k, g.ext) < d.cumMin || !Usable(d, ask(g.ext))
    ensures Expands(d, ask, budget, k, g, g.nodes)
  {
  }

  lemma FirstChoice(d: DraftParams, ask: Oracle, budget: int, k: nat, g: Growth, nodes: seq<DraftNode>)
    requires OpenAt(g) && |g.nodes| < budget && Expected(d, ask, k, g.ext) >= d.cumMin && Usable(d, ask(g.ext))
    requires !RejectDominant(d, ask(g.ext).value.cands[0])
    requires Expands(d, ask, budget, k, g.Extend(ask(g.ext).value.cands[0].tok), nodes)
    ensures Expands(d, ask, budget, k, g, nodes)
  {
    hide Expected, CorrectionOf, Finished, RejectDominant;
    var tok := ask(g.ext).value.cands[0].tok;
    var h := g.Extend(tok);
    assert nodes[|g.nodes|] == nodes[..|h.nodes|][|g.nodes|];
    assert nodes[..|g.nodes|] == nodes[..|h.nodes|][..|g.nodes|];
    PathKept(g.nodes, nodes, g.parent);
    assert Justified(d, ask, budget, k, nodes, |g.nodes|);
  }

  lemma LastLeaf(d: DraftParams, ask: Oracle, budget: int, k: nat, g: Growth)
    requires OpenAt(g) && k <= |g.nodes| < budget && Expected(d, ask, k, g.ext) >= d.cumMin && Usable(d, ask(g.ext))
    requires RejectDominant(d, ask(g.ext).value.cands[0])
    requires CorrectionOf(ask(g.ext).value.cands).tok == ask(g.ext).value.cands[0].tok
    ensures Expands(d, ask, budget, k, g, g.Leaf(ask(g.ext).value.cands[0].tok).nodes)
  {
    hide Expected, CorrectionOf, RejectDominant, Justified, Finished;
    var top := ask(g.ext).value.cands[0].tok;
    var nodes := g.Leaf(top).nodes;
    PathKept(g.nodes, nodes, g.parent);
    LeafJustified(d, ask, budget, k, g, nodes);
    LeafFinishes(d, ask, budget, k, g, nodes);
  }

  lemma LeafJustified(d: DraftParams, ask: Oracle, budget: int, k: nat, g: Growth, nodes: seq<DraftNode>)
    requires OpenAt(g) && |g.nodes| < budget && Expected(d, ask, k, g.ext) >= d.cumMin && Usable(d, ask(g.ext))
    requires RejectDominant(d, ask(g.ext).value.cands[0])
    requires CorrectionOf(ask(g.ext).value.cands).tok == ask(g.ext).value.cands[0].tok
    requires nodes == g.nodes + [DraftNode(ask(g.ext).value.cands[0].tok, g.parent)] && PathTo(nodes, g.parent) == g.ext
    ensures Justified(d, ask, budget, k, nodes, |g.nodes|)
  {
    hide Expected, CorrectionOf, RejectDominant, PathTo;
    forall u | 0 <= u < |nodes| ensures nodes[u].parent != |g.nodes| {
      if u < |g.nodes| { assert nodes[u] == g.nodes[u]; }
    }
  }

  lemma LeafFinishes(d: DraftParams, ask: Oracle, budget: int, k: nat, g: Growth, nodes: seq<DraftNode>)
    requires OpenAt(g) && k <= |g.nodes| && Usable(d, ask(g.ext)) && RejectDominant(d, ask(g.ext).value.cands[0])
    requires CorrectionOf(ask(g.ext).value.cands).tok == ask(g.ext).value.cands[0].tok
    requires nodes == g.nodes + [DraftNode(ask(g.ext).value.cands[0].tok, g.parent)] && PathTo(nodes, g.parent) == g.ext
    ensures Finished(d, ask, budget, k, nodes)
  {
    hide Expected, CorrectionOf, RejectDominant, PathTo;
  }

  lemma Corrected(d: DraftParams, ask: Oracle, budget: int, k: nat, g: Growth, nodes: seq<DraftNode>)
    requires OpenAt(g) && k <= |g.nodes| < budget && Expected(d, ask, k, g.ext) >= d.cumMin && Usable(d, ask(g.ext))
    requires RejectDominant(d, ask(g.ext).value.cands[0])
    requires CorrectionOf(ask(g.ext).value.cands).tok != ask(g.ext).value.cands[0].tok
    requires var top, next := ask(g.ext).value.cands[0].tok, CorrectionOf(ask(g.ext).value.cands).tok;
             Expands(d, ask, budget, k, (if budget - |g.nodes| >= 2 then g.Leaf(top) else g).Extend(next), nodes)
    ensures Expands(d, ask, budget, k, g, nodes)
  {
    hide Expands;
    if budget - |g.nodes| >= 2 { LeafAndCorrection(d, ask, budget, k, g, nodes); }
    else { OnlyCorrection(d, ask, budget, k, g, nodes); }
  }

  lemma LeafAndCorrection(d: DraftParams, ask: Oracle, budget: int, k: nat, g: Growth, nodes: seq<DraftNode>)
    requires OpenAt(g) && k <= |g.nodes| <= budget - 2
    requires Expected(d, ask, k, g.ext) >= d.cumMin && Usable(d, ask(g.ext))
    requires RejectDominant(d, ask(g.ext).value.cands[0])
    requires CorrectionOf(ask(g.ext).value.cands).tok != ask(g.ext).value.cands[0].tok
    requires var top, next := ask(g.ext).value.cands[0].tok, CorrectionOf(ask(g.ext).value.cands).tok;
             Expands(d, ask, budget, k, g.Leaf(top).Extend(next), nodes)
    ensures Expands(d, ask, budget, k, g, nodes)
  {
    hide Expected, CorrectionOf, Finished, RejectDominant;
    var top, next := ask(g.ext).value.cands[0].tok, CorrectionOf(ask(g.ext).value.cands).tok;
    var n, h := |g.nodes|, g.Leaf(top).Extend(next);
    assert nodes[n] == nodes[..n + 2][n] && nodes[n + 1] == nodes[..n + 2][n + 1];
    assert nodes[..n] == nodes[..n + 2][..n];
    PathKept(g.nodes, nodes, g.parent);
    forall u | 0 <= u < |nodes| ensures nodes[u].parent != n {
      if u < n { assert nodes[u] == nodes[..n][u]; }
    }
    assert Justified(d, ask, budget, k, nodes, n);
    assert Justified(d, ask, budget, k, nodes, n + 1);
  }

  lemma OnlyCorrection(d: DraftParams, ask: Oracle, budget: int, k: nat, g: Growth, nodes: seq<DraftNode>)
    requires OpenAt(g) && k <= |g.nodes| == budget - 1
    requires Expected(d, ask, k, g.ext) >= d.cumMin && Usable(d, ask(g.ext))
    requires RejectDominant(d, ask(g.ext).value.cands[0])
    requires CorrectionOf(ask(g.ext).value.cands).tok != ask(g.ext).value.cands[0].tok
    requires Expands(d, ask, budget, k, g.Extend(CorrectionOf(ask(g.ext).value.cands).tok), nodes)
    ensures Expands(d, ask, budget, k, g, nodes)
  {
    hide Expected, CorrectionOf, Finished, RejectDominant;
    var n := |g.nodes|;
    assert nodes[n] == nodes[..n + 1][n];
    assert nodes[..n] == nodes[..n + 1][..n];
    PathKept(g.nodes, nodes, g.parent);
    assert Justified(d, ask, budget, k, nodes, n);
  }

  // ---------------------------------------------------------------- the span, and the whole draft

  /** The span is laid down as far as it or the budget goes, and the open end is its last node. */
  ghost predicate Laid(d: DraftParams, span: SpanProposal, budget: int, g: Growth) {
    var k := |g.nodes|;
    && SpanPart(d, span, k, g.nodes) && OpenAt(g) && g.ext == span.tokens[..k] && (k == |span.tokens| || k >= budget)
  }

  lemma {:induction false} SpanDraftFollows(d: DraftParams, ask: Oracle, span: SpanProposal, budget: int, g: Growth,
                                            off: nat)
    requires SpanPart(d, span, off, g.nodes) && |g.nodes| == off && OpenAt(g) && g.ext == span.tokens[..off]
    requires off == 0 || off <= budget
    ensures var (h, ended) := SpanDraft(d, ask, span, budget, g, off);
            && (ended ==> exists k: nat :: SpanPart(d, span, k, h.nodes) && SplitPart(d, ask, span, budget, k, h.nodes))
            && (!ended ==> Laid(d, span, budget, h))
    decreases |span.tokens| - off
  {
    hide IsHeavy, OpenAt, CorrectionOf;
    if off < |span.tokens| && off < budget {
      OpenParent(g);
      if IsHeavy(d, span, off) {
        assert SplitPart(d, ask, span, budget, off, SplitAt(ask, g, span.tokens[off], budget).nodes);
      } else {
        ExtendedOpen(g, span.tokens[off]);
        assert span.tokens[..off + 1] == span.tokens[..off] + [span.tokens[off]];
        SpanDraftFollows(d, ask, span, budget, g.Extend(span.tokens[off]), off + 1);
      }
    }
  }

  lemma OpenParent(g: Growth)
    requires OpenAt(g)
    ensures g.parent == |g.nodes| - 1
  {
  }

  lemma RootOpen(d: DraftParams, ask: Oracle)
    ensures OpenAt(ROOT) && Expected(d, ask, 0, []) == 1.0
  {
  }

  /** After the span, the expected acceptance starts at 1. */
  lemma StartExpected(d: DraftParams, ask: Oracle, path: seq<int>)
    ensures Expected(d, ask, |path|, path) == 1.0
  {
  }

  lemma SpanStays(d: DraftParams, span: SpanProposal, k: nat, nodes: seq<DraftNode>, more: seq<DraftNode>)
    requires SpanPart(d, span, k, nodes) && |nodes| == k <= |more| && more[..k] == nodes
    ensures SpanPart(d, span, k, more)
  {
    hide IsHeavy;
    assert forall i :: 0 <= i < k ==> more[i] == more[..k][i];
  }

  /** Every draft is what the span and the store's answers prescribe. */
  lemma DraftFollows(d: DraftParams, ask: Oracle, span: Option<SpanProposal>, budget: int)
    ensures Follows(d, ask, span, budget, Draft(d, ask, span, budget))
  {
    hide SpanDraft, Expand, SpanPart, SplitPart, Justified, Finished, OpenAt, Laid;
    RootOpen(d, ask);
    if span.Some? && span.value.count >= d.spanMinCount {
      NoSpanYet(d, span.value);
      SpanDraftFollows(d, ask, span.value, budget, ROOT, 0);
      var (h, ended) := SpanDraft(d, ask, span.value, budget, ROOT, 0);
      if !ended {
        var k := |h.nodes|;
        LaidIs(d, span.value, budget, h);
        StartExpected(d, ask, h.ext);
        ExpandFollows(d, ask, budget, h, 1.0, k);
        SpanStays(d, span.value, k, h.nodes, Expand(d, ask, budget, h, 1.0).nodes);
      }
    } else {
      ExpandFollows(d, ask, budget, ROOT, 1.0, 0);
    }
  }

  lemma NoSpanYet(d: DraftParams, span: SpanProposal)
    ensures SpanPart(d, span, 0, []) && span.tokens[..0] == []
  {
  }

  lemma LaidIs(d: DraftParams, span: SpanProposal, budget: int, g: Growth)
    requires Laid(d, span, budget, g)
    ensures SpanPart(d, span, |g.nodes|, g.nodes) && OpenAt(g) && |g.ext| == |g.nodes|
    ensures |g.nodes| == |span.tokens| || |g.nodes| >= budget
  {
  }
}
