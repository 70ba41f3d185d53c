/** Replaying a request against an oracle that accepts what the recorded stream confirms. */
module Replays {
  import opened Bits
  import opened Signatures
  import opened Types
  import opened HotTables
  import opened Drafts
  import opened Proposers
  import opened Ledgers
  import opened Chunking
  import opened LockStep
  import opened Backoff

  /** A trace event. A negative bump position means that the epoch is bumped at the event's own position. */
  datatype Edit = Edit(pos: nat, isFileEdit: bool, fileId: nat, bumpPos: int) {
    function BumpAt(): int {
      if bumpPos >= 0 then bumpPos else pos
    }
  }

  /** A recorded request: its identifier, and the realized stream with a segment and a top-k row per position. */
  datatype Request = Request(
    id: nat, scopes: seq<Word>, tokens: seq<int>, seg: seq<int>, topkIds: seq<seq<int>>, topkQ8s: seq<seq<int>>,
    edits: seq<Edit>)
  {
    ghost predicate Ok() {
      && |scopes| == 3
      && |seg| == |topkIds| == |topkQ8s| == |tokens|
      && (forall i :: 0 <= i < |seg| ==> THINK <= seg[i] <= TEXT)
      && (forall i :: 0 <= i < |edits| ==> edits[i].isFileEdit ==> edits[i].fileId > 0)
      && (forall i, j :: 0 <= i < j < |edits| ==> edits[i].pos <= edits[j].pos)
    }
  }

  // ---------------------------------------------------------------- which file a position belongs to

  /** A position belongs to the first file edit that ends at or after it. */
  function FileOf(edits: seq<Edit>, i: nat): nat {
    if edits == [] then 0
    else if edits[0].isFileEdit && i <= edits[0].pos then edits[0].fileId
    else FileOf(edits[1..], i)
  }

  function FileIds(req: Request): (ids: seq<nat>)
    ensures |ids| == |req.tokens|
  {
    seq<nat>(|req.tokens|, (i: nat) => FileOf(req.edits, i))
  }

  method MapFiles(edits: seq<Edit>, n: nat) returns (ids: seq<nat>)
    requires forall i, j :: 0 <= i < j < |edits| ==> edits[i].pos <= edits[j].pos
    ensures |ids| == n && forall i :: 0 <= i < n ==> ids[i] == FileOf(edits, i)
  {
    ids := seq(n, _ => 0);
    var prevEnd := 0;
    for k := 0 to |edits|
      invariant |ids| == n && prevEnd >= 0
      invariant forall i :: 0 <= i < n && i < prevEnd ==> ids[i] == FileOf(edits, i)
      invariant forall i :: prevEnd <= i < n ==> ids[i] == 0 && FileOf(edits, i) == FileOf(edits[k..], i)
      invariant forall j :: k <= j < |edits| && prevEnd > 0 ==> prevEnd <= edits[j].pos + 1
    {
      assert edits[k..][1..] == edits[k + 1..];
      if edits[k].isFileEdit {
        var end := if edits[k].pos + 1 < n then edits[k].pos + 1 else n;
        var i := prevEnd;
        while i < end
          invariant prevEnd <= i && (i <= end || i == prevEnd) && |ids| == n
          invariant forall j :: 0 <= j < n && j < i ==> ids[j] == FileOf(edits, j)
          invariant forall j :: i <= j < n ==> ids[j] == 0
          decreases end - i
        {
          ids := ids[i := edits[k].fileId];
          i := i + 1;
        }
        prevEnd := edits[k].pos + 1;
      }
    }
  }

  /** The first file that a stretch of positions touches. */
  function FirstFile(ids: seq<nat>): nat {
    if ids == [] then 0 else if ids[0] != 0 then ids[0] else FirstFile(ids[1..])
  }

  // ---------------------------------------------------------------- one verify step

  /** The outcome of verifying `nodes` at position `p`. The end of the stream cuts the accepted path short, so that a
      bonus token exists, and is no rejection. */
  function StepAt(req: Request, nodes: seq<DraftNode>, p: nat): Event
    requires req.Ok() && p < |req.tokens| && Topological(nodes)
  {
    AcceptedIsTruth(nodes, req.tokens, p);
    var path := Accepted(nodes, req.tokens, p);
    var maxTake := |req.tokens| - p - 1;
    var acc := if |path| > maxTake then maxTake else |path|;
    var rejected := if |path| > maxTake then None else RejectedTok(nodes, req.tokens, p);
    var q := p + acc + 1;
    Event(req.scopes, req.tokens[if p > MAX_ORDER then p - MAX_ORDER else 0..p],
          path[..acc] + (if rejected.Some? then [rejected.value] else []), acc, req.tokens[p + acc],
          req.topkIds[p..q], req.topkQ8s[p..q], req.seg[p..q], FirstFile(FileIds(req)[p..q]))
  }

  /** Each step commits the next stretch of the stream; a rejected token is never the one that came. */
  lemma StepIsLossless(req: Request, nodes: seq<DraftNode>, p: nat)
    requires req.Ok() && p < |req.tokens| && Topological(nodes)
    ensures var ev := StepAt(req, nodes, p);
            && p + ev.acceptedLen < |req.tokens|
            && ev.Realized() == req.tokens[p..p + ev.acceptedLen + 1]
            && ev.acceptedLen <= |ev.draft| <= ev.acceptedLen + 1
            && (|ev.draft| > ev.acceptedLen ==> ev.draft[ev.acceptedLen] != ev.bonus)
            && ev.acceptedLen <= |nodes|
            && ev.WellFormed() && ev.seg == req.seg[p..p + ev.acceptedLen + 1]
  {
    hide Accepted, RejectedTok, FirstFile, FileIds;
    AcceptedIsTruth(nodes, req.tokens, p);
    var path := Accepted(nodes, req.tokens, p);
    var ev := StepAt(req, nodes, p);
    OneBeyond(path, req.tokens, p, ev.acceptedLen);
    assert ev.draft[..ev.acceptedLen] == path[..ev.acceptedLen];
    if |ev.draft| > ev.acceptedLen { RejectedIsWrong(nodes, req.tokens, p); }
  }

  lemma OneBeyond(path: seq<int>, toks: seq<int>, p: nat, n: nat)
    requires n <= |path| && p + |path| <= |toks| && p + n < |toks| && path == toks[p..p + |path|]
    ensures path[..n] + [toks[p + n]] == toks[p..p + n + 1]
  {
  }

  /** A step accepts the whole walk of the oracle, but leaves one token of the stream for the bonus; it reports a
      rejection exactly where the walk stopped above further nodes, with the first of them, and never at the end. */
  lemma StepTakesTheWalk(req: Request, nodes: seq<DraftNode>, p: nat) returns (path: seq<int>, w: int)
    requires req.Ok() && p < |req.tokens| && Topological(nodes)
    ensures StopsAt(nodes, req.tokens, p, path, w) && p + |path| <= |req.tokens|
    ensures var ev := StepAt(req, nodes, p);
            && (p + |path| == |req.tokens| ==> ev.acceptedLen == |path| - 1 && |ev.draft| == ev.acceptedLen)
            && (p + |path| < |req.tokens| ==>
                  && ev.acceptedLen == |path|
                  && (|ev.draft| == |path| <==> forall k :: 0 <= k < |nodes| ==> nodes[k].parent != w)
                  && (|ev.draft| > |path| ==>
                        exists k :: 0 <= k < |nodes| && nodes[k] == DraftNode(ev.draft[|path|], w) &&
                                    forall i :: 0 <= i < k ==> nodes[i].parent != w))
  {
    hide Accepted, RejectedTok, FirstFile, FileIds, StopsAt;
    path := Accepted(nodes, req.tokens, p);
    AcceptedIsTruth(nodes, req.tokens, p);
    w := RejectedIsFirstDrafted(nodes, req.tokens, p);
  }

  lemma {:induction false} FileOfIs(edits: seq<Edit>, i: nat)
    ensures (FileOf(edits, i) == 0 && forall k :: 0 <= k < |edits| ==> !(edits[k].isFileEdit && i <= edits[k].pos)) ||
            exists k ::
              && 0 <= k < |edits| && edits[k].isFileEdit && i <= edits[k].pos && FileOf(edits, i) == edits[k].fileId
              && forall l :: 0 <= l < k ==> !(edits[l].isFileEdit && i <= edits[l].pos)
  {
    if edits != [] && !(edits[0].isFileEdit && i <= edits[0].pos) {
      var rest := edits[1..];
      FileOfIs(rest, i);
      if k :| 0 <= k < |rest| && rest[k].isFileEdit && i <= rest[k].pos && FileOf(rest, i) == rest[k].fileId &&
              forall l :: 0 <= l < k ==> !(rest[l].isFileEdit && i <= rest[l].pos) {
        forall l | 0 <= l < k + 1 ensures !(edits[l].isFileEdit && i <= edits[l].pos) {
          if l > 0 { assert edits[l] == rest[l - 1]; }
        }
        assert edits[k + 1] == rest[k];
      } else {
        forall k | 0 <= k < |edits| ensures !(edits[k].isFileEdit && i <= edits[k].pos) {
          if k > 0 { assert edits[k] == rest[k - 1]; }
        }
      }
    }
  }

  // ---------------------------------------------------------------- a whole replay

  /** The log of verifying these trees one after the other, up to position `p` of the stream. */
  ghost predicate IsReplay(req: Request, trees: seq<seq<DraftNode>>, log: seq<Event>, p: nat)
    requires req.Ok()
  {
    |trees| == |log| &&
    if log == [] then p == 0 else
      var k := |log| - 1;
      var n := |log[k].Realized()|;
      n <= p <= |req.tokens| && Topological(trees[k]) && log[k] == StepAt(req, trees[k], p - n)
      && IsReplay(req, trees[..k], log[..k], p - n)
  }

  lemma ReplaySnoc(req: Request, trees: seq<seq<DraftNode>>, log: seq<Event>, p: nat, nodes: seq<DraftNode>)
    requires req.Ok() && IsReplay(req, trees, log, p) && p < |req.tokens| && Topological(nodes)
    ensures var ev := StepAt(req, nodes, p);
            IsReplay(req, trees + [nodes], log + [ev], p + ev.acceptedLen + 1)
  {
    hide StepAt;
    StepIsLossless(req, nodes, p);
    var ev := StepAt(req, nodes, p);
    assert (trees + [nodes])[..|log|] == trees && (log + [ev])[..|log|] == log;
  }

  function RealizedAll(log: seq<Event>): seq<int> {
    if log == [] then [] else RealizedAll(log[..|log| - 1]) + log[|log| - 1].Realized()
  }

  function AcceptedSum(log: seq<Event>): nat {
    if log == [] then 0 else AcceptedSum(log[..|log| - 1]) + log[|log| - 1].acceptedLen
  }

  function DraftedSum(trees: seq<seq<DraftNode>>): nat {
    if trees == [] then 0 else DraftedSum(trees[..|trees| - 1]) + |trees[|trees| - 1]|
  }

  /** A rejected draft token is one past the accepted prefix, and differs from what was realized there. */
  ghost predicate Honest(ev: Event) {
    && ev.acceptedLen <= |ev.draft| <= ev.acceptedLen + 1
    && (|ev.draft| > ev.acceptedLen ==> ev.draft[ev.acceptedLen] != ev.bonus)
  }

  /** Replay is lossless for any trees whatsoever: the steps spell out the stream. */
  lemma {:induction false} ReplayIsLossless(req: Request, trees: seq<seq<DraftNode>>, log: seq<Event>, p: nat)
    requires req.Ok() && IsReplay(req, trees, log, p)
    ensures p <= |req.tokens| && RealizedAll(log) == req.tokens[..p]
  {
    hide StepAt, Event.Realized;
    if log != [] {
      var k := |log| - 1;
      var start := p - |log[k].Realized()|;
      ReplayIsLossless(req, trees[..k], log[..k], start);
      StepIsLossless(req, trees[k], start);
      assert req.tokens[..p] == req.tokens[..start] + req.tokens[start..p];
    }
  }

  function RowsAll(log: seq<Event>): (seq<seq<int>>, seq<seq<int>>, seq<int>) {
    if log == [] then ([], [], []) else
      var (ids, q8s, segs) := RowsAll(log[..|log| - 1]);
      var ev := log[|log| - 1];
      (ids + ev.topkIds, q8s + ev.topkQ8s, segs + ev.seg)
  }

  /** So do the recorded rows: every position's top-k ids, codes and segment reach the store once, in order. */
  lemma {:induction false} ReplayReportsRows(req: Request, trees: seq<seq<DraftNode>>, log: seq<Event>, p: nat)
    requires req.Ok() && IsReplay(req, trees, log, p)
    ensures p <= |req.tokens| && RowsAll(log) == (req.topkIds[..p], req.topkQ8s[..p], req.seg[..p])
  {
    hide StepAt, Event.Realized;
    if log != [] {
      var k := |log| - 1;
      var start := p - |log[k].Realized()|;
      ReplayReportsRows(req, trees[..k], log[..k], start);
      StepIsLossless(req, trees[k], start);
      StepRows(req, trees[k], start);
      assert req.topkIds[..p] == req.topkIds[..start] + req.topkIds[start..p];
      assert req.topkQ8s[..p] == req.topkQ8s[..start] + req.topkQ8s[start..p];
      assert req.seg[..p] == req.seg[..start] + req.seg[start..p];
    }
  }

  lemma StepRows(req: Request, nodes: seq<DraftNode>, p: nat)
    requires req.Ok() && p < |req.tokens| && Topological(nodes)
    ensures var ev := StepAt(req, nodes, p);
            var q := p + ev.acceptedLen + 1;
            && q <= |req.tokens|
            && ev.topkIds == req.topkIds[p..q] && ev.topkQ8s == req.topkQ8s[p..q] && ev.seg == req.seg[p..q]
  {
    hide Accepted, RejectedTok, FirstFile, FileIds;
    AcceptedIsTruth(nodes, req.tokens, p);
  }

  /** Every token is an accepted one or a step's bonus, and no more are accepted than drafted. */
  lemma {:induction false} ReplayConserves(req: Request, trees: seq<seq<DraftNode>>, log: seq<Event>, p: nat)
    requires req.Ok() && IsReplay(req, trees, log, p)
    ensures AcceptedSum(log) + |log| == p && AcceptedSum(log) <= DraftedSum(trees)
  {
    hide StepAt;
    if log != [] {
      var k := |log| - 1;
      var start := p - |log[k].Realized()|;
      ReplayConserves(req, trees[..k], log[..k], start);
      StepIsLossless(req, trees[k], start);
    }
  }

  lemma {:induction false} ReplayIsHonest(req: Request, trees: seq<seq<DraftNode>>, log: seq<Event>, p: nat)
    requires req.Ok() && IsReplay(req, trees, log, p)
    ensures forall i :: 0 <= i < |log| ==> Honest(log[i]) && log[i].WellFormed()
  {
    hide StepAt, Event.Realized;
    if log != [] {
      var k := |log| - 1;
      var start := p - |log[k].Realized()|;
      ReplayIsHonest(req, trees[..k], log[..k], start);
      StepIsLossless(req, trees[k], start);
      forall i | 0 <= i < |log| ensures Honest(log[i]) && log[i].WellFormed() {
        if i < k { assert log[i] == log[..k][i]; }
      }
    }
  }

  /** With at most `budget` nodes in every tree, a replay takes at least its share of steps. */
  lemma {:induction false} BudgetBoundsSpeed(req: Request, trees: seq<seq<DraftNode>>, log: seq<Event>, p: nat,
                                             budget: nat)
    requires req.Ok() && IsReplay(req, trees, log, p) && forall i :: 0 <= i < |trees| ==> |trees[i]| <= budget
    ensures p <= |log| * (budget + 1)
  {
    hide StepAt;
    if log != [] {
      var k := |log| - 1;
      var start := p - |log[k].Realized()|;
      BudgetBoundsSpeed(req, trees[..k], log[..k], start, budget);
      StepIsLossless(req, trees[k], start);
      assert |log[k].Realized()| <= budget + 1;
      OneMoreTime(k, |log|, budget + 1);
    }
  }

  lemma OneMoreTime(k: nat, m: nat, b: nat)
    requires m == k + 1
    ensures m * b == k * b + b
  {
  }

  // ---------------------------------------------------------------- tallies by segment

  /** Steps that started in segment `s`, and the tokens they committed. */
  function StepsIn(log: seq<Event>, s: int): nat {
    if log == [] then 0 else StepsIn(log[..|log| - 1], s) + if log[|log| - 1].SegAt(0) == s then 1 else 0
  }

  function TokensIn(log: seq<Event>, s: int): nat {
    if log == [] then 0
    else TokensIn(log[..|log| - 1], s) +
         if log[|log| - 1].SegAt(0) == s then |log[|log| - 1].Realized()| else 0
  }

  function DraftedSteps(trees: seq<seq<DraftNode>>): nat {
    if trees == [] then 0 else DraftedSteps(trees[..|trees| - 1]) + if trees[|trees| - 1] != [] then 1 else 0
  }

  lemma TallySnoc(trees: seq<seq<DraftNode>>, log: seq<Event>, nodes: seq<DraftNode>, ev: Event, s: int)
    ensures RealizedAll(log + [ev]) == RealizedAll(log) + ev.Realized()
    ensures DraftedSum(trees + [nodes]) == DraftedSum(trees) + |nodes|
    ensures DraftedSteps(trees + [nodes]) == DraftedSteps(trees) + if nodes != [] then 1 else 0
    ensures StepsIn(log + [ev], s) == StepsIn(log, s) + if ev.SegAt(0) == s then 1 else 0
    ensures TokensIn(log + [ev], s) == TokensIn(log, s) + if ev.SegAt(0) == s then |ev.Realized()| else 0
  {
    assert (log + [ev])[..|log|] == log && (trees + [nodes])[..|trees|] == trees;
  }

  /** The four segments account for every step and every token. */
  lemma {:induction false} SegmentsAddUp(req: Request, trees: seq<seq<DraftNode>>, log: seq<Event>, p: nat)
    requires req.Ok() && IsReplay(req, trees, log, p)
    ensures StepsIn(log, THINK) + StepsIn(log, TOOL) + StepsIn(log, CODE) + StepsIn(log, TEXT) == |log|
    ensures TokensIn(log, THINK) + TokensIn(log, TOOL) + TokensIn(log, CODE) + TokensIn(log, TEXT) == p
  {
    hide StepAt;
    if log != [] {
      var k := |log| - 1;
      var start := p - |log[k].Realized()|;
      SegmentsAddUp(req, trees[..k], log[..k], start);
      StepIsLossless(req, trees[k], start);
      assert log[k].SegAt(0) == req.seg[start];
    }
  }

  // ---------------------------------------------------------------- what a ledger proposer's store is told

  /** The index of the first event from `i` on whose bump position is not before `q`. */
  function NextEdit(edits: seq<Edit>, i: nat, q: nat): (j: nat)
    ensures i <= j && (i <= |edits| ==> j <= |edits|)
    ensures forall k :: i <= k < j && k < |edits| ==> edits[k].BumpAt() < q
    ensures j < |edits| ==> edits[j].BumpAt() >= q
    decreases |edits| - i
  {
    if i < |edits| && edits[i].BumpAt() < q then NextEdit(edits, i + 1, q) else i
  }

  /** A file edit bumps its file in the session's and the repository's scope. */
  function EditOps(scopes: seq<Word>, e: Edit): seq<LedgerOp>
    requires |scopes| == 3
  {
    if e.isFileEdit then [Table(Bump(scopes[0], e.fileId)), Table(Bump(scopes[1], e.fileId))] else []
  }

  function EditsOps(scopes: seq<Word>, edits: seq<Edit>): seq<LedgerOp>
    requires |scopes| == 3
  {
    if edits == [] then [] else EditsOps(scopes, edits[..|edits| - 1]) + EditOps(scopes, edits[|edits| - 1])
  }

  lemma EditsSnoc(scopes: seq<Word>, edits: seq<Edit>, i: nat, j: nat)
    requires |scopes| == 3 && i <= j < |edits|
    ensures EditsOps(scopes, edits[i..j + 1]) == EditsOps(scopes, edits[i..j]) + EditOps(scopes, edits[j])
  {
    hide EditOps;
    assert edits[i..j + 1][..j - i] == edits[i..j];
  }

  lemma {:induction false} EditsOpsOk(scopes: seq<Word>, edits: seq<Edit>)
    requires |scopes| == 3
    ensures OpsOk(EditsOps(scopes, edits))
  {
    if edits != [] { EditsOpsOk(scopes, edits[..|edits| - 1]); }
  }

  function EditsFired(req: Request, log: seq<Event>): (i: nat)
    ensures i <= |req.edits|
  {
    if log == [] then 0 else NextEdit(req.edits, EditsFired(req, log[..|log| - 1]), |RealizedAll(log)|)
  }

  function ReplayOps(req: Request, positive: bool, log: seq<Event>): seq<LedgerOp>
    requires |req.scopes| == 3
  {
    if log == [] then [] else
      var before := log[..|log| - 1];
      ReplayOps(req, positive, before) + HarvestOps(Kept(positive, log[|log| - 1]))
      + EditsOps(req.scopes, req.edits[EditsFired(req, before)..EditsFired(req, log)])
  }

  // ---------------------------------------------------------------- the table a replay leaves behind

  ghost predicate NoFileEdits(req: Request) {
    forall i :: 0 <= i < |req.edits| ==> !req.edits[i].isFileEdit
  }

  lemma {:induction false} NoFiles(edits: seq<Edit>, i: nat)
    requires forall k :: 0 <= k < |edits| ==> !edits[k].isFileEdit
    ensures FileOf(edits, i) == 0
  {
    if edits != [] { NoFiles(edits[1..], i); }
  }

  lemma {:induction false} NoFirstFile(ids: seq<nat>)
    requires forall i :: 0 <= i < |ids| ==> ids[i] == 0
    ensures FirstFile(ids) == 0
  {
    if ids != [] { NoFirstFile(ids[1..]); }
  }

  lemma {:induction false} NoEditsOps(scopes: seq<Word>, edits: seq<Edit>)
    requires |scopes| == 3 && forall i :: 0 <= i < |edits| ==> !edits[i].isFileEdit
    ensures EditsOps(scopes, edits) == []
  {
    if edits != [] { NoEditsOps(scopes, edits[..|edits| - 1]); }
  }

  lemma StepReportsChunk(req: Request, nodes: seq<DraftNode>, p: nat)
    requires req.Ok() && NoFileEdits(req) && p < |req.tokens| && Topological(nodes)
    ensures ReportsChunk(StepAt(req, nodes, p), req.scopes, req.tokens, req.seg, p)
  {
    hide Accepted, RejectedTok, FirstFile;
    StepIsLossless(req, nodes, p);
    AcceptedIsTruth(nodes, req.tokens, p);
    var q := p + StepAt(req, nodes, p).acceptedLen + 1;
    forall i | 0 <= i < |req.tokens| ensures FileIds(req)[i] == 0 { NoFiles(req.edits, i); }
    NoFirstFile(FileIds(req)[p..q]);
  }

  lemma {:induction false} ReplayReportsStream(req: Request, trees: seq<seq<DraftNode>>, log: seq<Event>, p: nat)
    requires req.Ok() && NoFileEdits(req) && IsReplay(req, trees, log, p)
    ensures ReportsStream(log, req.scopes, req.tokens, req.seg, p)
  {
    hide StepAt, ReportsChunk;
    if log != [] {
      var k := |log| - 1;
      var start := p - |log[k].Realized()|;
      ReplayReportsStream(req, trees[..k], log[..k], start);
      StepIsLossless(req, trees[k], start);
      StepReportsChunk(req, trees[k], start);
    }
  }

  /** One outcome, offered to an empty queue and drained at once, is applied to the table. */
  lemma QuietRound(p: StoreParams, l: Ledger, ev: Event)
    requires l.Valid() && l.store.queue == [] && ev.WellFormed() && p.queueCap >= 1 && p.compactEvery == 0
    ensures OpsOk(HarvestOps(ev)) && LedgerRun(p, l, HarvestOps(ev)).store.queue == []
    ensures LedgerRun(p, l, HarvestOps(ev)).store.hot == ApplyEvent(p, Hash, l.store.hot, ev)
  {
    hide LedgerStep, LedgerRun, ApplyEvent, ApplyEvents, Harvest, AppliedAll;
    TwoOps(p, l, ev);
    OpIs(p, l, Table(Offer([ev])));
    OfferToEmpty(p, l.store.drops, ev);
    var mid := LedgerStep(p, l, Table(Offer([ev])));
    DrainStep(p, mid, None);
    assert mid.store.queue[..1] == [ev] && mid.store.queue[1..] == [];
    OneEvent(p, Hash, l.store.hot, ev);
  }

  /** From any ledger with nothing queued, a positive replay without file edits applies its stripped
      outcomes in order. */
  lemma {:induction false} ReplayApplies(p: StoreParams, l: Ledger, req: Request, log: seq<Event>)
    requires l.Valid() && l.store.queue == [] && p.queueCap >= 1 && p.compactEvery == 0
    requires |req.scopes| == 3 && NoFileEdits(req) && forall i :: 0 <= i < |log| ==> log[i].WellFormed()
    ensures OpsOk(ReplayOps(req, true, log)) && WellFormedQueue(StripAll(log))
    ensures LedgerRun(p, l, ReplayOps(req, true, log)).store.queue == []
    ensures LedgerRun(p, l, ReplayOps(req, true, log)).store.hot == ApplyEvents(p, Hash, l.store.hot, StripAll(log))
  {
    hide Stripped, NextEdit, EditsOps, OpOk, ApplyEvent, LedgerStep, HarvestOps, Ledger.Valid, Event.Realized,
         Event.WellFormed;
    if log != [] {
      var before, ev := log[..|log| - 1], log[|log| - 1];
      ReplayApplies(p, l, req, before);
      NoEditsOps(req.scopes, req.edits[EditsFired(req, before)..EditsFired(req, log)]);
      KeptIsWellFormed(true, ev);
      var ops := ReplayOps(req, true, before);
      QuietRound(p, LedgerRun(p, l, ops), Kept(true, ev));
      LedgerRunConcat(p, l, ops, HarvestOps(Kept(true, ev)));
      assert (ops + HarvestOps(Kept(true, ev))) + [] == ops + HarvestOps(Kept(true, ev));
      StripLast(log);
    }
  }

  lemma StripLast(log: seq<Event>)
    requires log != []
    ensures StripAll(log) == StripAll(log[..|log| - 1]) + [Stripped(log[|log| - 1])]
    ensures StripAll(log)[..|log| - 1] == StripAll(log[..|log| - 1])
  {
    hide Stripped;
  }

  /** In positive mode without file edits, what a replay adds to a table is a function of the request alone: how the
      drafts looked, what the budget was and where the verify steps fell leaves no trace. */
  lemma ReplayBuildsStreamTable(p: StoreParams, l: Ledger, req: Request, trees: seq<seq<DraftNode>>, log: seq<Event>)
    requires l.Valid() && l.store.queue == [] && p.queueCap >= 1 && p.compactEvery == 0
    requires req.Ok() && NoFileEdits(req) && IsReplay(req, trees, log, |req.tokens|)
    ensures OpsOk(ReplayOps(req, true, log)) && LedgerRun(p, l, ReplayOps(req, true, log)).store.queue == []
    ensures LedgerRun(p, l, ReplayOps(req, true, log)).store.hot ==
            ApplyTouches(p, l.store.hot, StreamTouches(p, Hash, req.scopes, req.tokens, req.seg, |req.tokens|))
  {
    hide LedgerRun, StreamTouches, ApplyTouches, ApplyEvents, ReplayOps, ReportsStream, IsReplay, StripAll;
    ReplayIsHonest(req, trees, log, |req.tokens|);
    ReplayReportsStream(req, trees, log, |req.tokens|);
    ReplayApplies(p, l, req, log);
    StepsBuildStreamTable(p, Hash, l.store.hot, log, req.scopes, req.tokens, req.seg, |req.tokens|);
  }

  // ---------------------------------------------------------------- a list of requests

  ghost predicate AllRequestsOk(reqs: seq<Request>) {
    forall i :: 0 <= i < |reqs| ==> reqs[i].Ok()
  }

  /** One replay per request, each to its end. */
  ghost predicate AreReplays(reqs: seq<Request>, trees: seq<seq<seq<DraftNode>>>, logs: seq<seq<Event>>)
    requires AllRequestsOk(reqs)
  {
    && |reqs| == |trees| == |logs|
    && forall i :: 0 <= i < |reqs| ==> IsReplay(reqs[i], trees[i], logs[i], |reqs[i].tokens|)
  }

  /** What a ledger proposer's store is told over a list of requests; the open runs are closed after each. */
  ghost function RequestsOps(reqs: seq<Request>, positive: bool, logs: seq<seq<Event>>): seq<LedgerOp>
    requires AllRequestsOk(reqs) && |reqs| == |logs|
  {
    if reqs == [] then [] else
      var n := |reqs| - 1;
      RequestsOps(reqs[..n], positive, logs[..n]) + ReplayOps(reqs[n], positive, logs[n]) + [LedgerOp.FlushRuns]
  }

  ghost function RequestsTouches(p: StoreParams, reqs: seq<Request>): seq<Touch<Word>>
    requires AllRequestsOk(reqs)
  {
    if reqs == [] then [] else
      var n := |reqs| - 1;
      RequestsTouches(p, reqs[..n])
      + StreamTouches(p, Hash, reqs[n].scopes, reqs[n].tokens, reqs[n].seg, |reqs[n].tokens|)
  }

  /** Closing runs changes neither the hot table nor the queue. */
  lemma FlushKeepsTable(p: StoreParams, l: Ledger, ops: seq<LedgerOp>)
    requires l.Valid() && OpsOk(ops)
    ensures OpsOk(ops + [LedgerOp.FlushRuns])
    ensures LedgerRun(p, l, ops + [LedgerOp.FlushRuns]) == LedgerStep(p, LedgerRun(p, l, ops), LedgerOp.FlushRuns)
    ensures LedgerRun(p, l, ops + [LedgerOp.FlushRuns]).store == LedgerRun(p, l, ops).store
  {
    hide SpansStep;
    assert (ops + [LedgerOp.FlushRuns])[..|ops|] == ops;
  }

  /** The table after a list of requests is the table before, told every stream in turn. */
  lemma {:induction false} ReplaysBuildStreamTable(p: StoreParams, l: Ledger, reqs: seq<Request>,
                                                   trees: seq<seq<seq<DraftNode>>>, logs: seq<seq<Event>>)
    requires l.Valid() && l.store.queue == [] && p.queueCap >= 1 && p.compactEvery == 0
    requires AllRequestsOk(reqs) && AreReplays(reqs, trees, logs)
    requires forall i :: 0 <= i < |reqs| ==> NoFileEdits(reqs[i])
    ensures OpsOk(RequestsOps(reqs, true, logs)) && LedgerRun(p, l, RequestsOps(reqs, true, logs)).store.queue == []
    ensures LedgerRun(p, l, RequestsOps(reqs, true, logs)).store.hot ==
            ApplyTouches(p, l.store.hot, RequestsTouches(p, reqs))
  {
    hide LedgerRun, StreamTouches, ApplyTouches, ReplayOps, IsReplay, NoFileEdits, OpOk, Request.Ok, Ledger.Valid;
    if reqs == [] {
      NothingTold(p, l);
    } else {
      var n := |reqs| - 1;
      ReplaysBuildStreamTable(p, l, reqs[..n], trees[..n], logs[..n]);
      StreamSized(reqs[n]);
      var ops := RequestsOps(reqs[..n], true, logs[..n]);
      var mid := LedgerRun(p, l, ops);
      ReplayBuildsStreamTable(p, mid, reqs[n], trees[n], logs[n]);
      LedgerRunConcat(p, l, ops, ReplayOps(reqs[n], true, logs[n]));
      FlushKeepsTable(p, l, ops + ReplayOps(reqs[n], true, logs[n]));
      ApplyTouchesConcat(p, l.store.hot, RequestsTouches(p, reqs[..n]),
                         StreamTouches(p, Hash, reqs[n].scopes, reqs[n].tokens, reqs[n].seg, |reqs[n].tokens|));
    }
  }

  lemma NothingTold(p: StoreParams, l: Ledger)
    requires l.Valid()
    ensures OpsOk([]) && LedgerRun(p, l, []) == l && ApplyTouches<Word>(p, l.store.hot, []) == l.store.hot
  {
  }

  lemma StreamSized(req: Request)
    requires req.Ok()
    ensures |req.scopes| == 3 && |req.tokens| == |req.seg|
  {
  }
}
