/** What tree is drafted, as a function of the store's answers, and the shape that every such tree keeps. */
module Drafting {
  import opened Answers
  import opened Drafts
  import opened Backoff

  datatype DraftParams = DraftParams(cumMin: real, wMin: real, rejMargin: real, spanMinCount: nat, breakSplitMin: nat)

  // ---------------------------------------------------------------- the correction

  /** Higher target probability first, then the smaller token. */
  predicate Likelier(c: PosteriorCand, d: PosteriorCand) {
    c.pHat > d.pHat || (c.pHat == d.pHat && c.tok < d.tok)
  }

  function CorrectionOf(cands: seq<PosteriorCand>): PosteriorCand
    requires cands != []
  {
    if |cands| == 1 then cands[0] else
      var best := CorrectionOf(cands[..|cands| - 1]);
      if Likelier(cands[|cands| - 1], best) then cands[|cands| - 1] else best
  }

  /** The greedy correction is the most probable candidate; ties go to the smaller token. */
  lemma {:induction false} CorrectionIsLikeliest(cands: seq<PosteriorCand>)
    requires cands != []
    ensures CorrectionOf(cands) in cands
    ensures forall c :: c in cands ==> !Likelier(c, CorrectionOf(cands))
  {
    if |cands| > 1 {
      var init, last := cands[..|cands| - 1], cands[|cands| - 1];
      CorrectionIsLikeliest(init);
      assert cands == init + [last];
    }
  }

  method Correction(cands: seq<PosteriorCand>) returns (best: PosteriorCand)
    requires cands != []
    ensures best == CorrectionOf(cands)
  {
    best := cands[0];
    assert cands[..1] == [cands[0]];
    for i := 1 to |cands|
      invariant best == CorrectionOf(cands[..i])
    {
      assert cands[..i + 1][..i] == cands[..i];
      if Likelier(cands[i], best) {
        best := cands[i];
      }
    }
    assert cands[..|cands|] == cands;
  }

  // ---------------------------------------------------------------- the drafted tree

  /** What the store answers when the context is extended by these tokens. */
  type Oracle = seq<int> -> Option<Posterior>

  /** A growing draft: its nodes, the node to extend, and the tokens on the way there. */
  datatype Growth = Growth(nodes: seq<DraftNode>, parent: int, ext: seq<int>) {
    function Extend(tok: int): Growth {
      Growth(nodes + [DraftNode(tok, parent)], |nodes|, ext + [tok])
    }

    function Leaf(tok: int): Growth {
      this.(nodes := nodes + [DraftNode(tok, parent)])
    }
  }

  /** Offsets where earlier drafts of the span broke often enough. */
  predicate IsHeavy(d: DraftParams, span: SpanProposal, off: nat) {
    exists i :: 0 <= i < |span.breaks| && span.breaks[i].0 == off && span.breaks[i].1 >= d.breakSplitMin
  }

  /** At a heavy break the span's token and the correction become siblings, and nothing follows. */
  function SplitAt(ask: Oracle, g: Growth, tok: int, budget: int): Growth {
    var h := g.Leaf(tok);
    var post := ask(g.ext);
    if |h.nodes| < budget && post.Some? && post.value.cands != [] && CorrectionOf(post.value.cands).tok != tok
    then h.Leaf(CorrectionOf(post.value.cands).tok) else h
  }

  /** Lays a span down from offset `off` on; the flag says that a heavy break ended the draft. */
  function SpanDraft(d: DraftParams, ask: Oracle, span: SpanProposal, budget: int, g: Growth, off: nat): (Growth, bool)
    decreases |span.tokens| - off
  {
    if off >= |span.tokens| || |g.nodes| >= budget then (g, false)
    else if IsHeavy(d, span, off) then (SplitAt(ask, g, span.tokens[off], budget), true)
    else SpanDraft(d, ask, span, budget, g.Extend(span.tokens[off]), off + 1)
  }

  /** The expected acceptance after one more token, whose own probability counts for at least 5 percent. */
  function Damped(cum: real, pAcc: real): real {
    cum * if pAcc > 0.05 then pAcc else 0.05
  }

  predicate RejectDominant(d: DraftParams, top: PosteriorCand) {
    top.support > 0 && top.pAcc < 0.5 - d.rejMargin
  }

  /** Extends by the store's first choice while the expected acceptance lasts. A choice that is mostly rejected stays a
      leaf, and the draft goes on through the correction if that is another token. */
  function Expand(d: DraftParams, ask: Oracle, budget: int, g: Growth, cum: real): Growth
    decreases budget - |g.nodes|
  {
    if |g.nodes| >= budget || cum < d.cumMin then g else
      var post := ask(g.ext);
      if post.None? || post.value.cands == [] || post.value.weight < d.wMin then g else
        var top := post.value.cands[0];
        if !RejectDominant(d, top) then Expand(d, ask, budget, g.Extend(top.tok), Damped(cum, top.pAcc))
        else
          var patch := CorrectionOf(post.value.cands);
          if patch.tok == top.tok then g.Leaf(top.tok)
          else
            var h := if budget - |g.nodes| >= 2 then g.Leaf(top.tok) else g;
            Expand(d, ask, budget, h.Extend(patch.tok), Damped(cum, patch.pAcc))
  }

  const ROOT: Growth := Growth([], -1, [])

  function Draft(d: DraftParams, ask: Oracle, span: Option<SpanProposal>, budget: int): seq<DraftNode> {
    var (g, ended) := if span.Some? && span.value.count >= d.spanMinCount
                      then SpanDraft(d, ask, span.value, budget, ROOT, 0) else (ROOT, false);
    if ended then g.nodes else Expand(d, ask, budget, g, 1.0).nodes
  }

  // ---------------------------------------------------------------- every draft is a good tree

  ghost predicate GoodTree(nodes: seq<DraftNode>) {
    Topological(nodes) && SiblingDistinct(nodes) && AtMostTwoChildren(nodes)
  }

  /** A good tree whose open end has no child yet. */
  ghost predicate Growing(g: Growth) {
    GoodTree(g.nodes) && -1 <= g.parent < |g.nodes| && forall i :: 0 <= i < |g.nodes| ==> g.nodes[i].parent != g.parent
  }

  lemma ExtendGrows(g: Growth, tok: int)
    requires Growing(g)
    ensures Growing(g.Extend(tok)) && GoodTree(g.Leaf(tok).nodes)
  {
  }

  /** Two different children close the node they hang on; the draft may go on below the second. */
  lemma SplitGrows(g: Growth, tok: int, patch: int)
    requires Growing(g) && tok != patch
    ensures GoodTree(g.Leaf(tok).Leaf(patch).nodes) && Growing(g.Leaf(tok).Extend(patch))
  {
  }

  lemma {:induction false} SpanDraftGrows(d: DraftParams, ask: Oracle, span: SpanProposal, budget: nat, g: Growth,
                                          off: nat)
    requires Growing(g) && |g.nodes| <= budget
    ensures var (h, ended) := SpanDraft(d, ask, span, budget, g, off);
            |h.nodes| <= budget && GoodTree(h.nodes) && (!ended ==> Growing(h))
    decreases |span.tokens| - off
  {
    hide GoodTree, CorrectionOf, IsHeavy;
    if off < |span.tokens| && |g.nodes| < budget {
      var tok := span.tokens[off];
      ExtendGrows(g, tok);
      if IsHeavy(d, span, off) {
        var post := ask(g.ext);
        if post.Some? && post.value.cands != [] && CorrectionOf(post.value.cands).tok != tok {
          SplitGrows(g, tok, CorrectionOf(post.value.cands).tok);
        }
      } else {
        SpanDraftGrows(d, ask, span, budget, g.Extend(tok), off + 1);
      }
    }
  }

  lemma {:induction false} ExpandGrows(d: DraftParams, ask: Oracle, budget: nat, g: Growth, cum: real)
    requires Growing(g) && |g.nodes| <= budget
    ensures |Expand(d, ask, budget, g, cum).nodes| <= budget && GoodTree(Expand(d, ask, budget, g, cum).nodes)
    decreases budget - |g.nodes|
  {
    hide GoodTree, CorrectionOf, RejectDominant, Damped;
    if |g.nodes| < budget && cum >= d.cumMin {
      var post := ask(g.ext);
      if post.Some? && post.value.cands != [] && post.value.weight >= d.wMin {
        var top := post.value.cands[0];
        ExtendGrows(g, top.tok);
        if !RejectDominant(d, top) {
          ExpandGrows(d, ask, budget, g.Extend(top.tok), Damped(cum, top.pAcc));
        } else {
          var patch := CorrectionOf(post.value.cands);
          if patch.tok != top.tok {
            ExtendGrows(g, patch.tok);
            SplitGrows(g, top.tok, patch.tok);
            ExpandGrows(d, ask, budget, (if budget - |g.nodes| >= 2 then g.Leaf(top.tok) else g).Extend(patch.tok),
                        Damped(cum, patch.pAcc));
          }
        }
      }
    }
  }

  /** Whatever the store answers, the draft keeps the budget, lists parents first, and gives a node at most two
      children, with different tokens. */
  lemma DraftIsGood(d: DraftParams, ask: Oracle, span: Option<SpanProposal>, budget: int)
    ensures GoodTree(Draft(d, ask, span, budget)) && |Draft(d, ask, span, budget)| <= if budget > 0 then budget else 0
  {
    hide SpanDraft, Expand;
    assert Growing(ROOT);
    if budget > 0 {
      if span.Some? && span.value.count >= d.spanMinCount {
        SpanDraftGrows(d, ask, span.value, budget, ROOT, 0);
        var (g, ended) := SpanDraft(d, ask, span.value, budget, ROOT, 0);
        if !ended { ExpandGrows(d, ask, budget, g, 1.0); }
      } else {
        ExpandGrows(d, ask, budget, ROOT, 1.0);
      }
    } else {
      NoBudget(d, ask, span, budget);
    }
  }

  lemma NoBudget(d: DraftParams, ask: Oracle, span: Option<SpanProposal>, budget: int)
    requires budget <= 0
    ensures Draft(d, ask, span, budget) == []
  {
  }
}
