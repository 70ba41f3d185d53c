/** What a hot entry keeps over any sequence of updates, merges, resets and compactions. */
module EntryRuns {
  import opened Bits
  import opened HotEntries

  datatype EntryOp =
    | DoRealized(tok: int)
    | DoRejected(tok: int)
    | DoMerge(ids: seq<int>, q8s: seq<int>)
    | DoReset(epoch: nat, dom: int)
    | DoDecay

  ghost function EntryStep(p: Params, e: Entry, op: EntryOp): Entry {
    match op
    case DoRealized(tok) => Realized(p, e, tok)
    case DoRejected(tok) => Rejected(p, e, tok)
    case DoMerge(ids, q8s) => Merged(p, e, ids, q8s)
    case DoReset(epoch, dom) => ResetEntry(e, epoch, dom)
    case DoDecay => Decayed(p, e)
  }

  ghost function EntryRun(p: Params, e: Entry, ops: seq<EntryOp>): Entry {
    if ops == [] then e else EntryStep(p, EntryRun(p, e, ops[..|ops| - 1]), ops[|ops| - 1])
  }

  ghost predicate OpsOk(ops: seq<EntryOp>) {
    forall i :: 0 <= i < |ops| && ops[i].DoMerge? ==> Q8sOk(ops[i].q8s)
  }

  /** Capacity, counters, probabilities and coverage stay within their ranges over every run. */
  lemma {:induction false} RunKeepsOk(p: Params, e: Entry, ops: seq<EntryOp>)
    requires p.Sane() && EntryOk(p, e) && OpsOk(ops)
    ensures EntryOk(p, EntryRun(p, e, ops))
  {
    hide EntryOk, Realized, Rejected, Merged, Decayed;
    if ops != [] {
      var f := EntryRun(p, e, ops[..|ops| - 1]);
      RunKeepsOk(p, e, ops[..|ops| - 1]);
      match ops[|ops| - 1]
      case DoRealized(tok) => RealizedOk(p, f, tok);
      case DoRejected(tok) => RealizedOk(p, f, tok);
      case DoMerge(ids, q8s) => MergedOk(p, f, ids, q8s);
      case DoReset(epoch, dom) => ResetOk(p, f, epoch, dom);
      case DoDecay => DecayedOk(p, f);
    }
  }

  lemma ResetOk(p: Params, e: Entry, epoch: nat, dom: int)
    requires EntryOk(p, e)
    ensures EntryOk(p, ResetEntry(e, epoch, dom))
  {
  }

  // ---------------------------------------------------------------- the two counters of a candidate

  datatype Counter = Accepted | Refused

  function Tally(k: Counter, c: Cand): nat {
    if k.Accepted? then c.acc else c.rej
  }

  function CountOf(k: Counter, e: Entry, tok: int): nat {
    if tok in e.cands then Tally(k, e.cands[tok]) else 0
  }

  /** The update that this counter of `tok` counts. */
  function Counted(k: Counter, tok: int): EntryOp {
    if k.Accepted? then DoRealized(tok) else DoRejected(tok)
  }

  /** Counted updates since the last reset. */
  function UpdateCount(k: Counter, ops: seq<EntryOp>, tok: int): nat {
    if ops == [] then 0 else
      var before := UpdateCount(k, ops[..|ops| - 1], tok);
      var op := ops[|ops| - 1];
      if op.DoReset? then 0 else if op == Counted(k, tok) then before + 1 else before
  }

  lemma EnsuredCounts(p: Params, k: Counter, e: Entry, t: int, tok: int)
    ensures tok in Ensured(p, e, t).cands ==>
            Ensured(p, e, t).cands[tok] == if tok in e.cands then e.cands[tok] else NEW_CAND
    ensures CountOf(k, Ensured(p, e, t), tok) <= CountOf(k, e, tok)
    ensures tok in e.cands && tok in Ensured(p, e, t).cands ==> CountOf(k, Ensured(p, e, t), tok) == CountOf(k, e, tok)
  {
    if t !in e.cands && |e.cands| >= e.kCap && !MayGrow(p, e) {
      assert forall u :: u in WithoutWeakest(e.cands) ==> u in e.cands && WithoutWeakest(e.cands)[u] == e.cands[u];
    }
  }

  lemma CountStep(p: Params, k: Counter, e: Entry, op: EntryOp, tok: int)
    ensures op.DoReset? ==> CountOf(k, EntryStep(p, e, op), tok) == 0
    ensures CountOf(k, EntryStep(p, e, op), tok) <= CountOf(k, e, tok) + if op == Counted(k, tok) then 1 else 0
    ensures !op.DoReset? && !op.DoDecay? && (tok in e.cands ==> tok in EntryStep(p, e, op).cands) &&
            (op == Counted(k, tok) ==> CountOf(k, e, tok) < U16_MAX) ==>
              CountOf(k, EntryStep(p, e, op), tok) == CountOf(k, e, tok) + if op == Counted(k, tok) then 1 else 0
  {
    hide WithoutWeakest, Ensured, Merged;
    match op
    case DoRealized(t) =>
      EnsuredCounts(p, k, e, t, tok);
      EnsuredHas(p, e, t);
    case DoRejected(t) =>
      EnsuredCounts(p, k, e, t, tok);
      EnsuredHas(p, e, t);
    case DoMerge(ids, q8s) =>
      MergeCounts(p, k, e, ids, q8s, tok);
    case DoReset(epoch, dom) =>
    case DoDecay =>
      if tok in e.cands {
        ShrSmaller(e.cands[tok].acc, p.decayShift);
        ShrSmaller(e.cands[tok].rej, p.decayShift);
      }
  }

  lemma EnsuredHas(p: Params, e: Entry, t: int)
    ensures t in Ensured(p, e, t).cands
  {
  }

  lemma MergeCounts(p: Params, k: Counter, e: Entry, ids: seq<int>, q8s: seq<int>, tok: int)
    ensures CountOf(k, Merged(p, e, ids, q8s), tok) == CountOf(k, e, tok)
    ensures tok in e.cands ==> tok in Merged(p, e, ids, q8s).cands
  {
    if tok in e.cands {
      MergeKeepsCounts(p, e, ids, q8s, tok);
    } else if ids != [] && tok in Merged(p, e, ids, q8s).cands {
      var cov := 0.75 * e.cov + 0.25 * (Covered(e.cands, ids) as real / |ids| as real);
      ObservedNewcomers(p, e.(cov := cov, cands := FadeOthers(e.cands, ids)), ids, q8s, tok);
    }
  }

  /** Neither count ever exceeds its updates since the last reset. */
  lemma {:induction false} CountBounded(p: Params, k: Counter, e: Entry, ops: seq<EntryOp>, tok: int)
    requires tok !in e.cands
    ensures CountOf(k, EntryRun(p, e, ops), tok) <= UpdateCount(k, ops, tok)
  {
    hide EntryStep;
    if ops != [] {
      CountBounded(p, k, e, ops[..|ops| - 1], tok);
      CountStep(p, k, EntryRun(p, e, ops[..|ops| - 1]), ops[|ops| - 1], tok);
    }
  }

  /** The token is never evicted: once held, it stays, except through resets. */
  ghost predicate NeverEvicted(p: Params, e: Entry, ops: seq<EntryOp>, tok: int) {
    forall i :: 0 < i <= |ops| && !ops[i - 1].DoReset? && tok in EntryRun(p, e, ops[..i - 1]).cands
      ==> tok in EntryRun(p, e, ops[..i]).cands
  }

  /** Absent eviction, compaction and saturation they equal that number. */
  lemma {:induction false} CountExact(p: Params, k: Counter, e: Entry, ops: seq<EntryOp>, tok: int)
    requires tok !in e.cands && NeverEvicted(p, e, ops, tok)
    requires forall i :: 0 <= i < |ops| ==> !ops[i].DoDecay?
    requires forall i :: 0 <= i <= |ops| ==> UpdateCount(k, ops[..i], tok) <= U16_MAX
    ensures CountOf(k, EntryRun(p, e, ops), tok) == UpdateCount(k, ops, tok)
  {
    hide EntryStep;
    if ops != [] {
      var rest := ops[..|ops| - 1];
      assert ops[..|ops|] == ops;
      forall i | 0 <= i <= |rest| ensures rest[..i] == ops[..i] {}
      assert NeverEvicted(p, e, rest, tok) by {
        forall i | 0 < i <= |rest| && !rest[i - 1].DoReset? && tok in EntryRun(p, e, rest[..i - 1]).cands
          ensures tok in EntryRun(p, e, rest[..i]).cands
        {
          assert rest[..i] == ops[..i] && rest[..i - 1] == ops[..i - 1];
        }
      }
      CountExact(p, k, e, rest, tok);
      assert ops[..|ops| - 1] == rest && UpdateCount(k, ops[..|ops|], tok) <= U16_MAX;
      assert !ops[|ops| - 1].DoReset? && tok in EntryRun(p, e, rest).cands ==> tok in EntryRun(p, e, ops).cands;
      CountStep(p, k, EntryRun(p, e, rest), ops[|ops| - 1], tok);
    }
  }

  // ---------------------------------------------------------------- who is evicted, and when

  /** Fewest observations; among those the least probable, an unknown probability counting as the lowest of all; among
      those the largest token. */
  ghost predicate LeastValued(m: map<int, Cand>, t: int) {
    && t in m
    && forall u :: u in m && u != t ==>
         var x, y := m[t].acc + m[t].rej, m[u].acc + m[u].rej;
         var q, r := if m[t].q8 < 0 then 256 else m[t].q8, if m[u].q8 < 0 then 256 else m[u].q8;
         x <= y && (x == y ==> q >= r) && (x == y && q == r ==> t > u)
  }

  lemma WeakestIsLeastValued(m: map<int, Cand>)
    requires m != map[]
    ensures LeastValued(m, Weakest(m))
  {
    WeakestExists(m);
    assert IsWeakest(m, Weakest(m));
  }

  /** An update brings its token in, and the other candidates stay as they are unless it needs room: only a new token,
      at full capacity and where capacity may not grow, costs a candidate, and then the least valued one alone. */
  lemma UpdateEvicts(p: Params, e: Entry, tok: int, refused: bool)
    requires e.kCap >= 1
    ensures var f := if refused then Rejected(p, e, tok) else Realized(p, e, tok);
            var full := tok !in e.cands && |e.cands| >= e.kCap && (e.cov >= p.coverageTarget || e.kCap >= p.kMax);
            && tok in f.cands
            && (forall u :: u != tok && u in f.cands ==> u in e.cands && f.cands[u] == e.cands[u])
            && (!full ==> forall u :: u in e.cands ==> u in f.cands)
            && (full ==> exists w :: LeastValued(e.cands, w) && forall u :: u in e.cands ==> (u in f.cands <==> u != w))
            && (f.kCap != e.kCap ==> e.cov < p.coverageTarget && |e.cands| >= e.kCap && f.kCap <= p.kMax)
  {
    hide LeastValued;
    if e.cands != map[] { WeakestIsLeastValued(e.cands); }
    if tok !in e.cands && |e.cands| >= e.kCap && !MayGrow(p, e) {
      var w := Weakest(e.cands);
      LeastValuedHeld(e.cands, w);
      assert forall u :: u in WithoutWeakest(e.cands) <==> u in e.cands && u != w;
    }
  }

  lemma LeastValuedHeld(m: map<int, Cand>, t: int)
    requires LeastValued(m, t)
    ensures t in m
  {
  }

  // ---------------------------------------------------------------- what a top-k row does to the probabilities

  predicate Distinct(ids: seq<int>) {
    forall i, j :: 0 <= i < j < |ids| ==> ids[i] != ids[j]
  }

  lemma {:induction false} UnlistedStays(p: Params, e: Entry, ids: seq<int>, q8s: seq<int>, t: int)
    requires t in e.cands && t !in ids
    ensures t in ObserveAll(p, e, ids, q8s).cands && ObserveAll(p, e, ids, q8s).cands[t] == e.cands[t]
    decreases |ids|
  {
    if ids != [] && q8s != [] { UnlistedStays(p, Observe(p, e, ids[0], q8s[0]), ids[1..], q8s[1..], t); }
  }

  /** A known probability moves a quarter of the way to the observed one, rounded down, an unknown one becomes it. */
  predicate MovedTowards(old_: int, new_: int, q: int) {
    if old_ < 0 then new_ == q
    else (old_ <= new_ <= q || q <= new_ <= old_) && 4 * new_ <= 3 * old_ + q < 4 * new_ + 4
  }

  lemma {:induction false} ListedMoves(p: Params, e: Entry, ids: seq<int>, q8s: seq<int>, i: nat)
    requires Distinct(ids) && i < |ids| && i < |q8s| && q8s[i] >= 0
    ensures var f, t := ObserveAll(p, e, ids, q8s), ids[i];
            && (t in e.cands ==> t in f.cands && MovedTowards(e.cands[t].q8, f.cands[t].q8, q8s[i]))
            && (t !in e.cands && t in f.cands ==> f.cands[t] == Cand(0, 0, q8s[i]))
    decreases |ids|
  {
    var t, f := ids[i], Observe(p, e, ids[0], q8s[0]);
    if i > 0 {
      assert ids[1..][i - 1] == t && q8s[1..][i - 1] == q8s[i];
      ListedMoves(p, f, ids[1..], q8s[1..], i - 1);
    } else {
      assert t !in ids[1..];
      if t in f.cands {
        UnlistedStays(p, f, ids[1..], q8s[1..], t);
      } else if t in ObserveAll(p, f, ids[1..], q8s[1..]).cands {
        StillAbsent(p, f, ids[1..], q8s[1..], t);
      }
    }
  }

  lemma {:induction false} StillAbsent(p: Params, e: Entry, ids: seq<int>, q8s: seq<int>, t: int)
    requires t !in e.cands && t !in ids
    ensures t !in ObserveAll(p, e, ids, q8s).cands
    decreases |ids|
  {
    if ids != [] && q8s != [] { StillAbsent(p, Observe(p, e, ids[0], q8s[0]), ids[1..], q8s[1..], t); }
  }

  /** After a top-k row of distinct tokens: a listed candidate's probability has moved towards the row's, a
      candidate left out has become no more probable, by at most 16 codes, and a newcomer carries the row's
      probability and no counts. */
  lemma RowMovesProbabilities(p: Params, e: Entry, ids: seq<int>, q8s: seq<int>, t: int)
    requires Distinct(ids) && ids != [] && Q8sOk(q8s) && (t in e.cands ==> e.cands[t].q8 <= 255)
    ensures var f := Merged(p, e, ids, q8s);
            && (t in e.cands && t !in ids ==>
                  t in f.cands && e.cands[t].q8 <= f.cands[t].q8 &&
                  f.cands[t].q8 == if e.cands[t].q8 < 0 then e.cands[t].q8
                                   else if e.cands[t].q8 + 16 <= 255 then e.cands[t].q8 + 16 else 255)
            && (t !in e.cands && t !in ids ==> t !in f.cands)
    ensures var f := Merged(p, e, ids, q8s);
            forall i :: 0 <= i < |ids| && i < |q8s| && ids[i] == t ==>
              && (t in e.cands ==> t in f.cands && MovedTowards(e.cands[t].q8, f.cands[t].q8, q8s[i]))
              && (t !in e.cands && t in f.cands ==> f.cands[t] == Cand(0, 0, q8s[i]))
  {
    hide ObserveAll;
    var g := e.(cov := 0.75 * e.cov + 0.25 * (Covered(e.cands, ids) as real / |ids| as real),
                cands := FadeOthers(e.cands, ids));
    if t !in ids {
      if t in e.cands { UnlistedStays(p, g, ids, q8s, t); } else { StillAbsent(p, g, ids, q8s, t); }
    }
    forall i | 0 <= i < |ids| && i < |q8s| && ids[i] == t
      ensures var f := Merged(p, e, ids, q8s);
              && (t in e.cands ==> t in f.cands && MovedTowards(e.cands[t].q8, f.cands[t].q8, q8s[i]))
              && (t !in e.cands && t in f.cands ==> f.cands[t] == Cand(0, 0, q8s[i]))
    {
      ListedMoves(p, g, ids, q8s, i);
    }
  }

  lemma {:induction false} CoveredIs(m: map<int, Cand>, ids: seq<int>)
    requires Distinct(ids)
    ensures Covered(m, ids) == |set t | t in ids && t in m|
  {
    var all := set t | t in ids && t in m;
    if ids != [] {
      var rest := set t | t in ids[1..] && t in m;
      assert forall i :: 0 <= i < |ids| - 1 ==> ids[1..][i] == ids[i + 1];
      CoveredIs(m, ids[1..]);
      assert ids[0] !in ids[1..];
      assert all == if ids[0] in m then rest + {ids[0]} else rest;
    }
  }

  lemma {:induction false} ObserveKeepsCoverage(p: Params, e: Entry, ids: seq<int>, q8s: seq<int>)
    ensures ObserveAll(p, e, ids, q8s).cov == e.cov && ObserveAll(p, e, ids, q8s).kCap >= e.kCap
    decreases |ids|
  {
    if ids != [] && q8s != [] { ObserveKeepsCoverage(p, Observe(p, e, ids[0], q8s[0]), ids[1..], q8s[1..]); }
  }

  lemma {:induction false} ObserveAdmits(p: Params, e: Entry, ids: seq<int>, q8s: seq<int>, i: nat)
    requires |e.cands| + |ids| <= e.kCap && i < |ids| && i < |q8s|
    ensures ids[i] in ObserveAll(p, e, ids, q8s).cands
    decreases |ids|
  {
    var f := Observe(p, e, ids[0], q8s[0]);
    assert |f.cands| <= |e.cands| + 1 by {
      if ids[0] in e.cands { assert f.cands.Keys == e.cands.Keys; }
      else { assert f.cands.Keys == e.cands.Keys + {ids[0]}; }
    }
    if i > 0 {
      assert ids[1..][i - 1] == ids[i];
      ObserveAdmits(p, f, ids[1..], q8s[1..], i - 1);
    } else {
      ObserveKeepsCounts(p, f, ids[1..], q8s[1..], ids[0]);
    }
  }

  /** Coverage moves a quarter of the way to the share of the row that the entry held, and where there is room every
      token with a code is taken in. */
  lemma RowMovesCoverage(p: Params, e: Entry, ids: seq<int>, q8s: seq<int>)
    requires Distinct(ids) && ids != []
    ensures var f, held := Merged(p, e, ids, q8s), |set t | t in ids && t in e.cands|;
            && 4.0 * f.cov == 3.0 * e.cov + held as real / |ids| as real
            && (|e.cands| + |ids| <= e.kCap ==> forall i :: 0 <= i < |ids| && i < |q8s| ==> ids[i] in f.cands)
  {
    CoveredIs(e.cands, ids);
    var g := e.(cov := 0.75 * e.cov + 0.25 * (Covered(e.cands, ids) as real / |ids| as real),
                cands := FadeOthers(e.cands, ids));
    ObserveKeepsCoverage(p, g, ids, q8s);
    assert g.cands.Keys == e.cands.Keys;
    if |e.cands| + |ids| <= e.kCap {
      forall i | 0 <= i < |ids| && i < |q8s| ensures ids[i] in ObserveAll(p, g, ids, q8s).cands {
        ObserveAdmits(p, g, ids, q8s, i);
      }
    }
  }
}
