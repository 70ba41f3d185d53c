/** The replay loop itself, over any proposer.

    A step asks the proposer for a tree, lets the oracle verify it, feeds the outcome back, fires the file edits that
    were passed and moves on. `Midway` says what holds between two steps: the log so far is a replay of the trees
    proposed so far, the metrics are its tallies, the signature stack and the window of recent tokens are those of the
    stream so far, and the store of a ledger proposer has been told exactly the log's outcomes and the edits, in order.
    The objects a proposer may write to are its `Footprint`; it grows by new objects only, so that the loop's own
    objects stay out of it. Most lemmas here are the seams between these statements: they let each method be checked
    without unfolding them all. */
module Simulators {
  import opened Bits
  import opened Signatures
  import opened Types
  import opened HotTables
  import opened Drafts
  import opened Drafting
  import opened Proposers
  import opened Ledgers
  import opened LedgerStores
  import opened Replays
  import opened Backoff

  const RECENT_WINDOW: nat := 32

  /** A proposer that never drafts, the ledger proposer, or any other: whatever tree it proposes at a position
      of a request. */
  datatype Proposer = Vanilla | Ledgered(ledger: LedgerProposer) | Other(tree: (nat, nat) -> seq<DraftNode>)

  ghost predicate ProposerOk(pr: Proposer)
    reads if pr.Ledgered?
          then {pr.ledger.store, pr.ledger.store.arena} + pr.ledger.store.entries + pr.ledger.store.spanEntries
          else {}
  {
    match pr
    case Vanilla => true
    case Ledgered(l) => l.store.Valid() && l.store.params.Sane()
    case Other(tree) => forall id, p :: Topological(tree(id, p))
  }

  ghost function Footprint(pr: Proposer): set<object>
    reads if pr.Ledgered? then {pr.ledger, pr.ledger.store} else {}
  {
    if pr.Ledgered? then pr.ledger.Footprint() else {}
  }

  /** Counters of one request. */
  class RequestMetrics {
    var steps: nat
    var tokens: nat
    var draftedTokens: nat
    var draftedSteps: nat
    var segSteps: map<int, nat>
    var segTokens: map<int, nat>

    constructor ()
      ensures Tallies([], [])
    {
      steps, tokens, draftedTokens, draftedSteps := 0, 0, 0, 0;
      segSteps, segTokens := map[], map[];
    }

    /** The counters are those of this log. */
    ghost predicate Tallies(trees: seq<seq<DraftNode>>, log: seq<Event>)
      reads this
    {
      && steps == |log| && tokens == |RealizedAll(log)|
      && draftedTokens == DraftedSum(trees) && draftedSteps == DraftedSteps(trees)
      && (forall s :: Get(segSteps, s) == StepsIn(log, s)) && (forall s :: Get(segTokens, s) == TokensIn(log, s))
    }

    method Record(seg: int, ghost ev: Event, nodes: seq<DraftNode>, nReal: nat, ghost trees: seq<seq<DraftNode>>,
                  ghost log: seq<Event>)
      requires Tallies(trees, log) && nReal == |ev.Realized()| && ev.SegAt(0) == seg
      modifies this
      ensures Tallies(trees + [nodes], log + [ev])
    {
      hide RealizedAll, DraftedSum, DraftedSteps, StepsIn, TokensIn;
      forall s ensures StepsIn(log + [ev], s) == StepsIn(log, s) + (if seg == s then 1 else 0)
               ensures TokensIn(log + [ev], s) == TokensIn(log, s) + (if seg == s then nReal else 0) {
        TallySnoc(trees, log, nodes, ev, s);
      }
      TallySnoc(trees, log, nodes, ev, seg);
      steps := steps + 1;
      tokens := tokens + nReal;
      segSteps := segSteps[seg := Get(segSteps, seg) + 1];
      segTokens := segTokens[seg := Get(segTokens, seg) + nReal];
      draftedTokens := draftedTokens + |nodes|;
      draftedSteps := draftedSteps + if nodes != [] then 1 else 0;
    }
  }

  function Get(m: map<int, nat>, s: int): nat {
    if s in m then m[s] else 0
  }

  // ---------------------------------------------------------------- what a step asks of the proposer

  /** The ledger of a ledger proposer; other proposers have none that matters. */
  ghost function LedgerOf(pr: Proposer): (l: Ledger)
    requires ProposerOk(pr)
    ensures l.Valid()
    reads if pr.Ledgered?
          then {pr.ledger.store, pr.ledger.store.arena} + pr.ledger.store.entries + pr.ledger.store.spanEntries
          else {}
  {
    if pr.Ledgered? then pr.ledger.store.View() else EMPTY_LEDGER
  }

  /** A tree of this proposer: nothing, a good tree within the budget, or the given one. */
  ghost predicate Proposed(pr: Proposer, budget: int, id: nat, p: nat, nodes: seq<DraftNode>) {
    && Topological(nodes)
    && (pr.Vanilla? ==> nodes == [])
    && (pr.Ledgered? ==> GoodTree(nodes) && |nodes| <= if budget > 0 then budget else 0)
    && (pr.Other? ==> nodes == pr.tree(id, p))
  }

  method Propose(pr: Proposer, sigs: RollingSigStack, scopes: seq<Word>, seg: int, budget: int, id: nat, p: nat)
    returns (nodes: seq<DraftNode>)
    requires ProposerOk(pr) && |scopes| <= 8 && sigs.Valid()
    modifies Footprint(pr)
    ensures ProposerOk(pr) && LedgerOf(pr) == old(LedgerOf(pr)) && Footprint(pr) == old(Footprint(pr))
    ensures Proposed(pr, budget, id, p, nodes)
  {
    match pr
    case Vanilla => nodes := [];
    case Other(tree) => nodes := tree(id, p);
    case Ledgered(l) => nodes := ProposeFromLedger(l, sigs, scopes, seg, budget);
  }

  /** Proposing only reads: the store is as it was. */
  method ProposeFromLedger(l: LedgerProposer, sigs: RollingSigStack, scopes: seq<Word>, seg: int, budget: int)
    returns (nodes: seq<DraftNode>)
    requires l.store.Valid() && l.store.params.Sane() && |scopes| <= 8 && sigs.Valid()
    modifies l, l.store.entries
    ensures l.store.Valid() && l.store.View() == old(l.store.View())
    ensures GoodTree(nodes) && |nodes| <= if budget > 0 then budget else 0
  {
    hide *;
    FewTiersFit(l.store.params, |scopes|);
    l.store.Opened();
    var tree := l.Propose(sigs, scopes, seg, budget);
    l.store.Closed();
    nodes := tree.nodes;
  }

  /** Feeds the outcome back. */
  method Harvest(pr: Proposer, ev: Event)
    requires ProposerOk(pr) && ev.WellFormed()
    modifies Footprint(pr)
    ensures ProposerOk(pr) && forall o :: o in Footprint(pr) ==> o in old(Footprint(pr)) || fresh(o)
    ensures pr.Ledgered? ==> OpsOk(HarvestOps(Kept(pr.ledger.positive, ev)))
    ensures pr.Ledgered? ==>
            LedgerOf(pr) ==
            LedgerRun(pr.ledger.store.params, old(LedgerOf(pr)), HarvestOps(Kept(pr.ledger.positive, ev)))
  {
    hide LedgerStore.Valid, LedgerStore.View, Kept, HarvestOps, LedgerRun, Event.WellFormed;
    if pr.Ledgered? { pr.ledger.Harvest(ev); }
  }

  method EndRequest(pr: Proposer)
    requires ProposerOk(pr)
    modifies Footprint(pr)
    ensures ProposerOk(pr) && forall o :: o in Footprint(pr) ==> o in old(Footprint(pr)) || fresh(o)
    ensures pr.Ledgered? ==> LedgerOf(pr) == LedgerStep(pr.ledger.store.params, old(LedgerOf(pr)), LedgerOp.FlushRuns)
  {
    hide LedgerStore.Valid, LedgerStore.View, LedgerStep;
    if pr.Ledgered? { pr.ledger.EndRequest(); }
  }

  /** A file edit reaches the store of a ledger proposer; other proposers do not hear of it. */
  method Fire(pr: Proposer, scopes: seq<Word>, e: Edit)
    requires ProposerOk(pr) && |scopes| == 3
    modifies Footprint(pr)
    ensures ProposerOk(pr) && forall o :: o in Footprint(pr) ==> o in old(Footprint(pr)) || fresh(o)
    ensures OpsOk(EditOps(scopes, e))
    ensures pr.Ledgered? ==> LedgerOf(pr) == LedgerRun(pr.ledger.store.params, old(LedgerOf(pr)), EditOps(scopes, e))
  {
    hide LedgerStore.Valid, LedgerStore.View, LedgerStep;
    if e.isFileEdit && pr.Ledgered? {
      TwoBumps(pr.ledger.store.params, pr.ledger.store.View(), scopes, e);
      pr.ledger.store.Perform(Table(LockStep.Bump(scopes[0], e.fileId)));
      pr.ledger.store.Perform(Table(LockStep.Bump(scopes[1], e.fileId)));
    }
  }

  lemma TwoBumps(p: StoreParams, l: Ledger, scopes: seq<Word>, e: Edit)
    requires l.Valid() && |scopes| == 3 && e.isFileEdit
    ensures OpsOk(EditOps(scopes, e))
    ensures LedgerRun(p, l, EditOps(scopes, e)) ==
            LedgerStep(p, LedgerStep(p, l, Table(LockStep.Bump(scopes[0], e.fileId))),
                       Table(LockStep.Bump(scopes[1], e.fileId)))
  {
    hide LedgerStep;
    var ops := EditOps(scopes, e);
    assert ops[..1][..0] == [] && ops[..1] == [ops[0]];
    assert LedgerRun(p, l, ops[..1]) == LedgerStep(p, LedgerRun(p, l, []), ops[0]);
  }

  /** Fires, in order, every event that the step's end has passed. */
  method FireEdits(pr: Proposer, req: Request, i: nat, q: nat) returns (j: nat)
    requires ProposerOk(pr) && |req.scopes| == 3 && i <= |req.edits|
    modifies Footprint(pr)
    ensures ProposerOk(pr) && forall o :: o in Footprint(pr) ==> o in old(Footprint(pr)) || fresh(o)
    ensures j == NextEdit(req.edits, i, q) && OpsOk(EditsOps(req.scopes, req.edits[i..j]))
    ensures pr.Ledgered? ==>
            LedgerOf(pr) == LedgerRun(pr.ledger.store.params, old(LedgerOf(pr)), EditsOps(req.scopes, req.edits[i..j]))
  {
    hide ProposerOk, LedgerOf, Footprint, LedgerRun, EditOps, EditsOps;
    j := i;
    ghost var l := LedgerOf(pr);
    if pr.Ledgered? { NothingRun(pr.ledger.store.params, l, req.scopes, req.edits, i); }
    EditsOpsOk(req.scopes, req.edits[i..i]);
    while j < |req.edits| && req.edits[j].BumpAt() < q
      invariant i <= j <= |req.edits| && NextEdit(req.edits, j, q) == NextEdit(req.edits, i, q)
      invariant forall o :: o in Footprint(pr) ==> o in old(Footprint(pr)) || fresh(o)
      invariant ProposerOk(pr) && OpsOk(EditsOps(req.scopes, req.edits[i..j]))
      invariant pr.Ledgered? ==>
                l.Valid() && LedgerOf(pr) == LedgerRun(pr.ledger.store.params, l, EditsOps(req.scopes, req.edits[i..j]))
    {
      Fire(pr, req.scopes, req.edits[j]);
      EditsSnoc(req.scopes, req.edits, i, j);
      if pr.Ledgered? {
        LedgerRunConcat(pr.ledger.store.params, l, EditsOps(req.scopes, req.edits[i..j]),
                        EditOps(req.scopes, req.edits[j]));
      }
      j := j + 1;
      EditsOpsOk(req.scopes, req.edits[i..j]);
    }
  }

  lemma NothingRun(p: StoreParams, l: Ledger, scopes: seq<Word>, edits: seq<Edit>, i: nat)
    requires l.Valid() && |scopes| == 3 && i <= |edits|
    ensures EditsOps(scopes, edits[i..i]) == [] && LedgerRun(p, l, []) == l
  {
  }

  // ---------------------------------------------------------------- the loop

  method VerifyStep(req: Request, ids: seq<nat>, nodes: seq<DraftNode>, p: nat) returns (ev: Event)
    requires req.Ok() && ids == FileIds(req) && p < |req.tokens| && Topological(nodes)
    ensures ev == StepAt(req, nodes, p)
  {
    hide Accepted, RejectedTok, FileIds;
    AcceptedIsTruth(nodes, req.tokens, p);
    var acc, path, rejected := OracleAccept(nodes, req.tokens, p);
    var maxTake := |req.tokens| - p - 1;
    if acc > maxTake {
      acc, rejected := maxTake, None;
    }
    var bonus := req.tokens[p + acc];
    var draft := path[..acc] + if rejected.Some? then [rejected.value] else [];
    var q := p + acc + 1;
    var file := FindFile(ids, p, q);
    ev := Event(req.scopes, req.tokens[if p > MAX_ORDER then p - MAX_ORDER else 0..p], draft, acc, bonus,
                req.topkIds[p..q], req.topkQ8s[p..q], req.seg[p..q], file);
  }

  method FindFile(ids: seq<nat>, p: nat, q: nat) returns (file: nat)
    requires p <= q <= |ids|
    ensures file == FirstFile(ids[p..q])
  {
    for i := p to q
      invariant FirstFile(ids[p..q]) == FirstFile(ids[i..q])
    {
      assert ids[i..q][1..] == ids[i + 1..q];
      if ids[i] != 0 { return ids[i]; }
    }
    file := 0;
  }

  /** What a ledger proposer's store has been told by the log so far. */
  ghost predicate Told(pr: Proposer, l: Ledger, req: Request, log: seq<Event>)
    requires ProposerOk(pr)
    reads if pr.Ledgered?
          then {pr.ledger.store, pr.ledger.store.arena} + pr.ledger.store.entries + pr.ledger.store.spanEntries
          else {}
  {
    pr.Ledgered? ==> |req.scopes| == 3 && l.Valid() && OpsOk(ReplayOps(req, pr.ledger.positive, log))
                     && LedgerOf(pr) == LedgerRun(pr.ledger.store.params, l, ReplayOps(req, pr.ledger.positive, log))
  }

  /** Proposes, verifies, feeds the outcome back and fires the edits that were passed. */
  method Step(pr: Proposer, req: Request, ids: seq<nat>, sigs: RollingSigStack, budget: int, p: nat, evIdx: nat,
              ghost l: Ledger, ghost trees: seq<seq<DraftNode>>, ghost log: seq<Event>)
    returns (nodes: seq<DraftNode>, ev: Event, evIdx': nat)
    requires ProposerOk(pr) && req.Ok() && ids == FileIds(req) && p < |req.tokens| && sigs.Valid()
    requires IsReplay(req, trees, log, p) && evIdx == EditsFired(req, log) && Told(pr, l, req, log)
    modifies Footprint(pr)
    ensures ProposerOk(pr) && forall o :: o in Footprint(pr) ==> o in old(Footprint(pr)) || fresh(o)
    ensures Topological(nodes) && Proposed(pr, budget, req.id, p, nodes) && ev == StepAt(req, nodes, p)
    ensures p + ev.acceptedLen < |req.tokens| && IsReplay(req, trees + [nodes], log + [ev], p + ev.acceptedLen + 1)
    ensures evIdx' == EditsFired(req, log + [ev]) && Told(pr, l, req, log + [ev])
  {
    hide *;
    OkScopes(req);
    OpenTold(pr, l, req, log);
    nodes := Propose(pr, sigs, req.scopes, req.seg[p], budget, req.id, p);
    ProposedIsTree(pr, budget, req.id, p, nodes);
    ev := VerifyStep(req, ids, nodes, p);
    StepIsLossless(req, nodes, p);
    ReplaySnoc(req, trees, log, p, nodes);
    ReplayIsLossless(req, trees + [nodes], log + [ev], p + ev.acceptedLen + 1);
    Harvest(pr, ev);
    OneMoreFired(req, log, ev);
    evIdx' := FireEdits(pr, req, evIdx, p + ev.acceptedLen + 1);
    if pr.Ledgered? { OneMoreTold(pr.ledger.store.params, l, req, pr.ledger.positive, log, ev); }
    CloseTold(pr, l, req, log + [ev]);
  }

  lemma OkScopes(req: Request)
    requires req.Ok()
    ensures |req.scopes| == 3 && |req.seg| == |req.tokens|
  {
  }

  lemma ProposedIsTree(pr: Proposer, budget: int, id: nat, p: nat, nodes: seq<DraftNode>)
    requires Proposed(pr, budget, id, p, nodes)
    ensures Topological(nodes)
  {
  }

  lemma OpenTold(pr: Proposer, l: Ledger, req: Request, log: seq<Event>)
    requires ProposerOk(pr) && Told(pr, l, req, log)
    ensures pr.Ledgered? ==> |req.scopes| == 3 && l.Valid() && OpsOk(ReplayOps(req, pr.ledger.positive, log))
                             && LedgerOf(pr) ==
                                LedgerRun(pr.ledger.store.params, l, ReplayOps(req, pr.ledger.positive, log))
  {
  }

  lemma CloseTold(pr: Proposer, l: Ledger, req: Request, log: seq<Event>)
    requires ProposerOk(pr)
    requires pr.Ledgered? ==> |req.scopes| == 3 && l.Valid() && OpsOk(ReplayOps(req, pr.ledger.positive, log))
                              && LedgerOf(pr) ==
                                 LedgerRun(pr.ledger.store.params, l, ReplayOps(req, pr.ledger.positive, log))
    ensures Told(pr, l, req, log)
  {
  }

  lemma OneMoreFired(req: Request, log: seq<Event>, ev: Event)
    ensures EditsFired(req, log + [ev]) == NextEdit(req.edits, EditsFired(req, log), |RealizedAll(log + [ev])|)
  {
    hide NextEdit, RealizedAll;
    assert (log + [ev])[..|log|] == log;
  }

  lemma OneMoreTold(p: StoreParams, l: Ledger, req: Request, positive: bool, log: seq<Event>, ev: Event)
    requires l.Valid() && |req.scopes| == 3 && OpsOk(ReplayOps(req, positive, log)) && ev.WellFormed()
    ensures EditsFired(req, log) <= EditsFired(req, log + [ev]) <= |req.edits|
    ensures OpsOk(ReplayOps(req, positive, log + [ev])) && OpsOk(HarvestOps(Kept(positive, ev)))
    ensures OpsOk(EditsOps(req.scopes, req.edits[EditsFired(req, log)..EditsFired(req, log + [ev])]))
    ensures LedgerRun(p, l, ReplayOps(req, positive, log + [ev])) ==
            LedgerRun(p, LedgerRun(p, LedgerRun(p, l, ReplayOps(req, positive, log)), HarvestOps(Kept(positive, ev))),
                      EditsOps(req.scopes, req.edits[EditsFired(req, log)..EditsFired(req, log + [ev])]))
  {
    hide LedgerRun, EditsOps, HarvestOps, Kept, RealizedAll, NextEdit;
    assert (log + [ev])[..|log|] == log;
    OneMoreFired(req, log, ev);
    KeptIsWellFormed(positive, ev);
    TwoOps(p, l, Kept(positive, ev));
    var r, h, e := ReplayOps(req, positive, log), HarvestOps(Kept(positive, ev)),
                   EditsOps(req.scopes, req.edits[EditsFired(req, log)..EditsFired(req, log + [ev])]);
    EditsOpsOk(req.scopes, req.edits[EditsFired(req, log)..EditsFired(req, log + [ev])]);
    LedgerRunConcat(p, l, r, h);
    LedgerRunConcat(p, l, r + h, e);
  }

  ghost predicate AllProposed(pr: Proposer, budget: int, id: nat, trees: seq<seq<DraftNode>>, log: seq<Event>) {
    |trees| == |log| && forall k :: 0 <= k < |trees| ==> Proposed(pr, budget, id, |RealizedAll(log[..k])|, trees[k])
  }

  lemma OneMoreProposed(pr: Proposer, budget: int, id: nat, trees: seq<seq<DraftNode>>, log: seq<Event>,
                        nodes: seq<DraftNode>, ev: Event)
    requires AllProposed(pr, budget, id, trees, log) && Proposed(pr, budget, id, |RealizedAll(log)|, nodes)
    ensures AllProposed(pr, budget, id, trees + [nodes], log + [ev])
  {
    hide Proposed;
    forall k | 0 <= k < |trees| + 1
      ensures Proposed(pr, budget, id, |RealizedAll((log + [ev])[..k])|, (trees + [nodes])[k])
    {
      if k < |trees| { assert (log + [ev])[..k] == log[..k]; } else { assert (log + [ev])[..k] == log; }
    }
  }

  lemma NothingReplayed(pr: Proposer, budget: int, l: Ledger, req: Request)
    requires ProposerOk(pr) && req.Ok() && l == LedgerOf(pr)
    ensures IsReplay(req, [], [], 0) && EditsFired(req, []) == 0 && Told(pr, l, req, [])
    ensures AllProposed(pr, budget, req.id, [], [])
    ensures LastTokens(req.tokens[..0], RECENT_WINDOW) == []
  {
  }

  lemma WholeRequest(pr: Proposer, budget: int, req: Request, trees: seq<seq<DraftNode>>, log: seq<Event>)
    requires req.Ok() && IsReplay(req, trees, log, |req.tokens|) && AllProposed(pr, budget, req.id, trees, log)
    ensures RealizedAll(log) == req.tokens
    ensures pr.Ledgered? ==> |req.tokens| <= |log| * ((if budget > 0 then budget else 0) + 1)
    ensures pr.Vanilla? ==> |req.tokens| <= |log|
  {
    hide StepAt;
    ReplayIsLossless(req, trees, log, |req.tokens|);
    assert req.tokens[..|req.tokens|] == req.tokens;
    if pr.Ledgered? { BudgetBoundsSpeed(req, trees, log, |req.tokens|, if budget > 0 then budget else 0); }
    if pr.Vanilla? { BudgetBoundsSpeed(req, trees, log, |req.tokens|, 0); }
  }

  lemma Allocated(pr: Proposer)
    ensures forall o :: o in Footprint(pr) ==> allocated(o)
  {
  }

  lemma StepFacts(req: Request, trees: seq<seq<DraftNode>>, log: seq<Event>, nodes: seq<DraftNode>, p: nat)
    requires req.Ok() && p < |req.tokens| && Topological(nodes) && IsReplay(req, trees, log, p)
    ensures var ev := StepAt(req, nodes, p); |ev.Realized()| == ev.acceptedLen + 1 && ev.SegAt(0) == req.seg[p]
    ensures |RealizedAll(log)| == p
  {
    hide StepAt, IsReplay, RealizedAll, Topological;
    StepIsLossless(req, nodes, p);
    ReplayIsLossless(req, trees, log, p);
  }

  function LastOf(toks: seq<int>): (r: seq<int>)
    ensures r == LastTokens(toks, RECENT_WINDOW)
  {
    LastTokens(toks, RECENT_WINDOW)
  }

  /** The last tokens of the stream, as they slide along with it. */
  lemma SlideRecent(toks: seq<int>, p: nat, q: nat)
    requires p <= q <= |toks|
    ensures LastTokens(LastTokens(toks[..p], RECENT_WINDOW) + toks[p..q], RECENT_WINDOW) ==
            LastTokens(toks[..q], RECENT_WINDOW)
    ensures toks[..p] + toks[p..q] == toks[..q]
  {
  }

  /** Between two steps: everything before `p` is accounted for. */
  ghost predicate Midway(pr: Proposer, req: Request, budget: int, p: nat, evIdx: nat, recent: seq<int>,
                         sigs: RollingSigStack,
                         rm: RequestMetrics, l: Ledger, trees: seq<seq<DraftNode>>, log: seq<Event>)
    reads rm, sigs, sigs.sigs
    reads if pr.Ledgered?
          then {pr.ledger, pr.ledger.store, pr.ledger.store.arena} + pr.ledger.store.entries +
          pr.ledger.store.spanEntries else {}
  {
    && ProposerOk(pr) && req.Ok() && p <= |req.tokens| && sigs.Valid() && sigs.stream == req.tokens[..p]
    && recent == LastTokens(req.tokens[..p], RECENT_WINDOW)
    && IsReplay(req, trees, log, p) && rm.Tallies(trees, log) && AllProposed(pr, budget, req.id, trees, log)
    && evIdx == EditsFired(req, log) && Told(pr, l, req, log)
  }

  method Advance(pr: Proposer, req: Request, ids: seq<nat>, budget: int, p: nat, evIdx: nat, recent: seq<int>,
                 sigs: RollingSigStack,
                 rm: RequestMetrics, ghost l: Ledger, ghost trees: seq<seq<DraftNode>>, ghost log: seq<Event>)
    returns (p': nat, evIdx': nat, recent': seq<int>, ghost trees': seq<seq<DraftNode>>, ghost log': seq<Event>)
    requires Midway(pr, req, budget, p, evIdx, recent, sigs, rm, l, trees, log) && p < |req.tokens|
    requires ids == FileIds(req)
    requires rm !in Footprint(pr) && sigs !in Footprint(pr) && sigs.sigs !in Footprint(pr)
    modifies Footprint(pr), rm, sigs, sigs.sigs
    ensures Midway(pr, req, budget, p', evIdx', recent', sigs, rm, l, trees', log') && p < p' <= |req.tokens|
    ensures forall o :: o in Footprint(pr) ==> o in old(Footprint(pr)) || fresh(o)
  {
    hide *;
    OpenMidway(pr, req, budget, p, evIdx, recent, sigs, rm, l, trees, log);
    OkScopes(req);
    var nodes, ev;
    nodes, ev, evIdx' := Step(pr, req, ids, sigs, budget, p, evIdx, l, trees, log);
    StepFacts(req, trees, log, nodes, p);
    p' := p + ev.acceptedLen + 1;
    rm.Record(req.seg[p], ev, nodes, p' - p, trees, log);
    SlideRecent(req.tokens, p, p');
    sigs.PushMany(req.tokens[p..p']);
    recent' := LastOf(recent + req.tokens[p..p']);
    OneMoreProposed(pr, budget, req.id, trees, log, nodes, ev);
    trees', log' := trees + [nodes], log + [ev];
    CloseMidway(pr, req, budget, p', evIdx', recent', sigs, rm, l, trees', log');
  }

  lemma OpenMidway(pr: Proposer, req: Request, budget: int, p: nat, evIdx: nat, recent: seq<int>, sigs: RollingSigStack,
                   rm: RequestMetrics, l: Ledger, trees: seq<seq<DraftNode>>, log: seq<Event>)
    requires Midway(pr, req, budget, p, evIdx, recent, sigs, rm, l, trees, log)
    ensures ProposerOk(pr) && req.Ok() && p <= |req.tokens| && sigs.Valid() && sigs.stream == req.tokens[..p]
    ensures recent == LastTokens(req.tokens[..p], RECENT_WINDOW)
    ensures IsReplay(req, trees, log, p) && rm.Tallies(trees, log) && AllProposed(pr, budget, req.id, trees, log)
    ensures evIdx == EditsFired(req, log) && Told(pr, l, req, log)
  {
  }

  lemma CloseMidway(pr: Proposer, req: Request, budget: int, p: nat, evIdx: nat, recent: seq<int>,
                    sigs: RollingSigStack, rm: RequestMetrics, l: Ledger, trees: seq<seq<DraftNode>>, log: seq<Event>)
    requires ProposerOk(pr) && req.Ok() && p <= |req.tokens| && sigs.Valid() && sigs.stream == req.tokens[..p]
    requires recent == LastTokens(req.tokens[..p], RECENT_WINDOW)
    requires IsReplay(req, trees, log, p) && rm.Tallies(trees, log) && AllProposed(pr, budget, req.id, trees, log)
    requires evIdx == EditsFired(req, log) && Told(pr, l, req, log)
    ensures Midway(pr, req, budget, p, evIdx, recent, sigs, rm, l, trees, log)
  {
  }

  method Begin(req: Request, pr: Proposer, budget: int) returns (rm: RequestMetrics, sigs: RollingSigStack)
    requires ProposerOk(pr) && req.Ok()
    ensures fresh(rm) && fresh(sigs) && fresh(sigs.sigs)
    ensures rm !in Footprint(pr) && sigs !in Footprint(pr) && sigs.sigs !in Footprint(pr)
    ensures Midway(pr, req, budget, 0, 0, [], sigs, rm, LedgerOf(pr), [], [])
  {
    hide *;
    Allocated(pr);
    rm := new RequestMetrics();
    sigs := new RollingSigStack();
    NothingReplayed(pr, budget, LedgerOf(pr), req);
    CloseMidway(pr, req, budget, 0, 0, [], sigs, rm, LedgerOf(pr), [], []);
  }

  /** Replays one request. The log is a replay of the proposer's trees; the metrics are the log's; and a ledger
      proposer's store has been told exactly the log's outcomes and the file edits, in order. */
  method ReplayRequest(req: Request, pr: Proposer, budget: int)
    returns (rm: RequestMetrics, ghost trees: seq<seq<DraftNode>>, ghost log: seq<Event>)
    requires ProposerOk(pr) && req.Ok()
    modifies Footprint(pr)
    ensures ProposerOk(pr) && fresh(rm) && rm !in Footprint(pr)
    ensures forall o :: o in Footprint(pr) ==> o in old(Footprint(pr)) || fresh(o)
    ensures IsReplay(req, trees, log, |req.tokens|) && rm.Tallies(trees, log)
    ensures AllProposed(pr, budget, req.id, trees, log)
    ensures RealizedAll(log) == req.tokens
    ensures pr.Ledgered? ==> |req.tokens| <= |log| * ((if budget > 0 then budget else 0) + 1)
    ensures pr.Ledgered? ==> OpsOk(ReplayOps(req, pr.ledger.positive, log))
    ensures pr.Ledgered? ==>
              LedgerOf(pr) == LedgerStep(pr.ledger.store.params,
                                         LedgerRun(pr.ledger.store.params, old(LedgerOf(pr)),
                                                   ReplayOps(req, pr.ledger.positive, log)),
                                         LedgerOp.FlushRuns)
  {
    hide *;
    ghost var l := LedgerOf(pr);
    var sigs;
    rm, sigs := Begin(req, pr, budget);
    var recent: seq<int> := [];
    trees, log := [], [];
    var ids := MapEdits(req);
    var evIdx, p: nat := 0, 0;
    while p < |req.tokens|
      invariant Midway(pr, req, budget, p, evIdx, recent, sigs, rm, l, trees, log) && p <= |req.tokens|
      invariant forall o :: o in Footprint(pr) ==> o in old(Footprint(pr)) || fresh(o)
      invariant fresh(rm) && fresh(sigs) && fresh(sigs.sigs)
      invariant rm !in Footprint(pr) && sigs !in Footprint(pr) && sigs.sigs !in Footprint(pr)
      decreases |req.tokens| - p
    {
      p, evIdx, recent, trees, log := Advance(pr, req, ids, budget, p, evIdx, recent, sigs, rm, l, trees, log);
    }
    OpenMidway(pr, req, budget, p, evIdx, recent, sigs, rm, l, trees, log);
    WholeRequest(pr, budget, req, trees, log);
    OpenTold(pr, l, req, log);
    EndRequest(pr);
  }

  method MapEdits(req: Request) returns (ids: seq<nat>)
    requires req.Ok()
    ensures ids == FileIds(req)
  {
    ids := MapFiles(req.edits, |req.tokens|);
  }

  // ---------------------------------------------------------------- a list of requests

  /** What the metrics of finished requests say, and that nobody will write to them any more. */
  ghost predicate AllTally(out: seq<RequestMetrics>, trees: seq<seq<seq<DraftNode>>>, logs: seq<seq<Event>>)
    reads out
  {
    |out| == |trees| == |logs| && forall i :: 0 <= i < |out| ==> out[i].Tallies(trees[i], logs[i])
  }

  /** Replays the requests one after the other with the same proposer. */
  method RunReplay(reqs: seq<Request>, pr: Proposer, budget: int)
    returns (out: seq<RequestMetrics>, ghost trees: seq<seq<seq<DraftNode>>>, ghost logs: seq<seq<Event>>)
    requires ProposerOk(pr) && AllRequestsOk(reqs)
    modifies Footprint(pr)
    ensures ProposerOk(pr) && |out| == |trees| == |logs| == |reqs|
    ensures AreReplays(reqs, trees, logs) && AllTally(out, trees, logs)
    ensures forall i :: 0 <= i < |reqs| ==> AllProposed(pr, budget, reqs[i].id, trees[i], logs[i])
    ensures pr.Ledgered? ==> OpsOk(RequestsOps(reqs, pr.ledger.positive, logs))
    ensures pr.Ledgered? ==>
              LedgerOf(pr) ==
              LedgerRun(pr.ledger.store.params, old(LedgerOf(pr)), RequestsOps(reqs, pr.ledger.positive, logs))
  {
    hide ProposerOk, LedgerOf, Footprint, LedgerRun, LedgerStep, IsReplay, RequestMetrics.Tallies, AllProposed,
         ReplayOps, RequestsOps, OpsOk, Request.Ok;
    out, trees, logs := [], [], [];
    ghost var l := LedgerOf(pr);
    if pr.Ledgered? { NothingToldYet(pr.ledger.store.params, l, reqs, pr.ledger.positive); }
    for i := 0 to |reqs|
      invariant ProposerOk(pr) && forall o :: o in Footprint(pr) ==> o in old(Footprint(pr)) || fresh(o)
      invariant |out| == |trees| == |logs| == i
      invariant forall k :: 0 <= k < i ==>
                fresh(out[k]) && out[k] !in Footprint(pr) && out[k].Tallies(trees[k], logs[k])
      invariant forall k :: 0 <= k < i ==> IsReplay(reqs[k], trees[k], logs[k], |reqs[k].tokens|)
      invariant forall k :: 0 <= k < i ==> AllProposed(pr, budget, reqs[k].id, trees[k], logs[k])
      invariant pr.Ledgered? ==> ToldAll(pr.ledger.store.params, l, reqs[..i], pr.ledger.positive, logs, LedgerOf(pr))
    {
      OkScopes(reqs[i]);
      var rm;
      ghost var tree, log;
      rm, tree, log := ReplayRequest(reqs[i], pr, budget);
      if pr.Ledgered? { OneMoreRequest(pr.ledger.store.params, l, reqs, pr.ledger.positive, logs, i, log); }
      out, trees, logs := out + [rm], trees + [tree], logs + [log];
    }
    assert reqs[..|reqs|] == reqs;
  }

  ghost predicate ToldAll(p: StoreParams, l: Ledger, reqs: seq<Request>, positive: bool, logs: seq<seq<Event>>,
                          now: Ledger) {
    && AllRequestsOk(reqs) && |reqs| == |logs| && l.Valid()
    && OpsOk(RequestsOps(reqs, positive, logs)) && now == LedgerRun(p, l, RequestsOps(reqs, positive, logs))
  }

  lemma NothingToldYet(p: StoreParams, l: Ledger, reqs: seq<Request>, positive: bool)
    requires l.Valid()
    ensures ToldAll(p, l, reqs[..0], positive, [], l)
  {
  }

  lemma OneMoreRequest(p: StoreParams, l: Ledger, reqs: seq<Request>, positive: bool, logs: seq<seq<Event>>, i: nat,
                       log: seq<Event>)
    requires AllRequestsOk(reqs) && i < |reqs| && |logs| == i && l.Valid()
    requires OpsOk(RequestsOps(reqs[..i], positive, logs))
    requires |reqs[i].scopes| == 3 && OpsOk(ReplayOps(reqs[i], positive, log))
    ensures ToldAll(p, l, reqs[..i + 1], positive, logs + [log],
                    LedgerStep(p,
                               LedgerRun(p, LedgerRun(p, l, RequestsOps(reqs[..i], positive, logs)),
                                         ReplayOps(reqs[i], positive, log)),
                               LedgerOp.FlushRuns))
  {
    hide LedgerStep, ReplayOps, OpOk, Request.Ok, Ledger.Valid, LedgerRun;
    assert reqs[..i + 1][..i] == reqs[..i] && (logs + [log])[..i] == logs;
    LedgerRunConcat(p, l, RequestsOps(reqs[..i], positive, logs), ReplayOps(reqs[i], positive, log));
    FlushKeepsTable(p, l, RequestsOps(reqs[..i], positive, logs) + ReplayOps(reqs[i], positive, log));
  }

  /** Chunking independence, end to end: a fresh positive proposer that replays requests without file edits ends up with
      a hot table that the requests determine. The drafting parameters and the budget do not occur in it. */
  method PositiveReplay(reqs: seq<Request>, params: StoreParams, draft: DraftParams, budget: int)
    returns (l: LedgerProposer)
    requires AllRequestsOk(reqs) && forall i :: 0 <= i < |reqs| ==> NoFileEdits(reqs[i])
    requires params.Sane() && params.queueCap >= 1 && params.compactEvery == 0
    ensures l.store.Valid()
    ensures l.store.View().store.hot == ApplyTouches(params, EmptyHot(), RequestsTouches(params, reqs))
  {
    hide LedgerRun, ProposerOk, LedgerOf, Footprint, LedgerProposer.Footprint, LedgerStore.Valid, LedgerStore.View,
         RequestsOps, RequestsTouches, AreReplays, AllTally, AllProposed;
    l := new LedgerProposer(params, true, draft);
    var pr := Ledgered(l);
    NewProposer(l);
    EmptyLedgerIsQuiet();
    var out, trees, logs := RunReplay(reqs, pr, budget);
    ReplaysBuildStreamTable(params, EMPTY_LEDGER, reqs, trees, logs);
    FinalTable(l);
  }

  lemma NewProposer(l: LedgerProposer)
    requires l.store.Valid() && l.store.params.Sane()
    ensures ProposerOk(Ledgered(l)) && LedgerOf(Ledgered(l)) == l.store.View()
    ensures Footprint(Ledgered(l)) == {l, l.store, l.store.arena} + l.store.entries + l.store.spanEntries
  {
  }

  lemma FinalTable(l: LedgerProposer)
    requires ProposerOk(Ledgered(l))
    ensures l.store.Valid() && l.store.View() == LedgerOf(Ledgered(l))
  {
  }
}
