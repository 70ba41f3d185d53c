/** The blend of back-off sources into one posterior, in exact real arithmetic.

    Every source with evidence adds a weighted share to the slot of each of its candidates. A `Board` holds the slots
    and the two sums of weights, and nothing of the order in which they were filled; frequencies, acceptance and
    probability are read off it, and `IsBlend` says which posterior belongs to it. `Blend` computes one, and
    `OrderIndependent` shows that there is only one. Products and quotients of reals get lemmas of their own (`Spread`,
    `Cancel`, `Quotient`, `CrossMultiply`), which keeps every other proof free of them. */
module Backoff {

  import Signatures

  datatype Option<+T> = None | Some(value: T)

  /** `prob` is the q8 codec's probability and `round1` rounds to one decimal; both may be any functions here. */
  datatype BackoffParams = BackoffParams(
    orderDecay: real, scopeDecay: real, countPrior: real, betaA: real, betaB: real,
    maxCands: nat, annoPrior: real, pHatMinOrder: int, prob: int -> real, round1: real -> real)
  {
    ghost predicate Sane() {
      && orderDecay > 0.0 && scopeDecay > 0.0 && countPrior > 0.0
      && betaA > 0.0 && betaB > 0.0 && annoPrior > 0.0
      && forall q :: prob(q) > 0.0
    }
  }

  datatype Cand = Cand(tok: int, acc: nat, rej: nat, q8: int)

  /** Where a context matched, and the statistics found there; a total of -1 asks for recomputation. */
  datatype Source = Source(matchLen: nat, scopeDepth: nat, cands: seq<Cand>, total: int, totalAcc: int)

  datatype PosteriorCand = PosteriorCand(tok: int, pAcc: real, pHat: real, support: nat)

  datatype Posterior = Posterior(cands: seq<PosteriorCand>, weight: real, bestOrder: int)

  // ---------------------------------------------------------------- sums

  function CountSum(cands: seq<Cand>): nat {
    if cands == [] then 0 else cands[0].acc + cands[0].rej + CountSum(cands[1..])
  }

  function AccSum(cands: seq<Cand>): nat {
    if cands == [] then 0 else cands[0].acc + AccSum(cands[1..])
  }

  function ProbSum(p: BackoffParams, cands: seq<Cand>): real {
    if cands == [] then 0.0 else p.prob(cands[0].q8) + ProbSum(p, cands[1..])
  }

  function TotalCount(s: Source): nat {
    if s.total >= 0 then s.total else CountSum(s.cands)
  }

  function TotalAcc(s: Source): int {
    if s.totalAcc >= 0 then s.totalAcc else AccSum(s.cands)
  }

  ghost predicate DistinctToks(cands: seq<Cand>) {
    forall i, j :: 0 <= i < j < |cands| ==> cands[i].tok != cands[j].tok
  }

  ghost predicate ValidSource(s: Source) {
    && s.matchLen <= Signatures.MAX_ORDER && s.scopeDepth < 8
    && DistinctToks(s.cands)
    && (s.total >= 0 ==> s.total == CountSum(s.cands))
    && (s.totalAcc >= 0 ==> s.totalAcc == AccSum(s.cands))
  }

  ghost predicate ValidSources(ss: seq<Source>) {
    forall i :: 0 <= i < |ss| ==> ValidSource(ss[i])
  }

  // ---------------------------------------------------------------- the interpolation weight

  function Power(r: real, n: nat): real {
    if n == 0 then 1.0 else r * Power(r, n - 1)
  }

  /** The share of the evidence that survives shrinkage towards `prior` pseudo-observations. */
  function Shrink(count: nat, prior: real): real
    requires prior > 0.0
  {
    count as real / (count as real + prior)
  }

  function Lam(p: BackoffParams, matchLen: nat, scopeDepth: nat, count: nat): real
    requires p.countPrior > 0.0 && matchLen <= Signatures.MAX_ORDER
  {
    Power(p.orderDecay, Signatures.MAX_ORDER - matchLen) * Power(p.scopeDecay, scopeDepth) * Shrink(count, p.countPrior)
  }

  lemma {:induction false} PowerPositive(r: real, n: nat)
    requires r > 0.0
    ensures Power(r, n) > 0.0
  {
    if n > 0 { PowerPositive(r, n - 1); }
  }

  lemma {:induction false} PowerFalls(r: real, m: nat, n: nat)
    requires 0.0 < r <= 1.0 && m <= n
    ensures Power(r, n) <= Power(r, m)
  {
    if m < n {
      PowerFalls(r, m, n - 1);
      PowerPositive(r, n - 1);
    }
  }

  lemma Quotient(a: real, b: real)
    requires b > 0.0
    ensures a / b * b == a
    ensures a > 0.0 ==> a / b > 0.0
    ensures a >= 0.0 ==> a / b >= 0.0
    ensures a < b ==> a / b < 1.0
    ensures a == b ==> a / b == 1.0
    ensures a <= b ==> a / b <= 1.0
  {
    var q := a / b;
    assert q * b == a;
    SignOfProduct(q, b);
    SignOfProduct(q - 1.0, b);
    assert (q - 1.0) * b == a - b;
  }

  lemma SignOfProduct(q: real, b: real)
    requires b > 0.0
    ensures q * b > 0.0 <==> q > 0.0
    ensures q * b == 0.0 <==> q == 0.0
  {
  }

  lemma Regroup3(x: real, b: real, d: real)
    ensures (x * b) * d == x * (b * d) == (x * d) * b
  {
  }

  lemma Spread(x: real, y: real, m: real)
    ensures (x + y) * m == x * m + y * m && (x - y) * m == x * m - y * m
  {
  }

  lemma Cancel(x: real, y: real, m: real)
    requires m > 0.0
    ensures x * m <= y * m <==> x <= y
    ensures x * m == y * m <==> x == y
  {
    Spread(x, y, m);
    SignOfProduct(x - y, m);
  }

  lemma CrossMultiply(a: real, b: real, c: real, d: real)
    requires b > 0.0 && d > 0.0 && a * d <= c * b
    ensures a / b <= c / d
  {
    var x, y := a / b, c / d;
    Quotient(a, b);
    Quotient(c, d);
    Regroup3(x, b, d);
    Regroup3(y, d, b);
    Regroup3(y, b, d);
    SignOfProduct(b, d);
    Cancel(x, y, b * d);
  }

  /** What a count lacks to full confidence is the prior's own share. */
  lemma ShrinkComplement(n: nat, prior: real)
    requires prior > 0.0
    ensures Shrink(n, prior) == 1.0 - prior / (n as real + prior)
  {
    var a, s := n as real, n as real + prior;
    Quotient(a, s);
    Quotient(prior, s);
    Spread(a / s, prior / s, s);
    Cancel(a / s + prior / s, 1.0, s);
  }

  lemma ShrinkMonotone(m: nat, n: nat, prior: real)
    requires m <= n && prior > 0.0
    ensures 0.0 <= Shrink(m, prior) <= Shrink(n, prior) < 1.0
    ensures m > 0 ==> Shrink(m, prior) > 0.0
  {
    var a, b := m as real + prior, n as real + prior;
    Quotient(m as real, a);
    Quotient(n as real, b);
    ShrinkComplement(m, prior);
    ShrinkComplement(n, prior);
    ProductMonotone(prior, prior, a, b);
    CrossMultiply(prior, b, prior, a);
  }

  /** A longer match, a more specific scope and more evidence each weigh at least as much. */
  lemma LamMonotone(p: BackoffParams, l: nat, l': nat, d: nat, d': nat, c: nat, c': nat)
    requires p.Sane() && p.orderDecay <= 1.0 && p.scopeDecay <= 1.0
    requires l <= l' <= Signatures.MAX_ORDER && d' <= d && c <= c'
    ensures 0.0 <= Lam(p, l, d, c) <= Lam(p, l', d', c')
  {
    hide Shrink, Power;
    var x, x' := Power(p.orderDecay, Signatures.MAX_ORDER - l), Power(p.orderDecay, Signatures.MAX_ORDER - l');
    var y, y' := Power(p.scopeDecay, d), Power(p.scopeDecay, d');
    PowerPositive(p.orderDecay, Signatures.MAX_ORDER - l);
    PowerPositive(p.scopeDecay, d);
    PowerFalls(p.orderDecay, Signatures.MAX_ORDER - l', Signatures.MAX_ORDER - l);
    PowerFalls(p.scopeDecay, d', d);
    ShrinkMonotone(c, c', p.countPrior);
    ProductMonotone(x, x', y, y');
    ProductMonotone(x * y, x' * y', Shrink(c, p.countPrior), Shrink(c', p.countPrior));
  }

  lemma ProductMonotone(a: real, a': real, b: real, b': real)
    requires 0.0 <= a <= a' && 0.0 <= b <= b'
    ensures 0.0 <= a * b <= a' * b'
  {
    NonNegative(a, b);
    NonNegative(a' - a, b);
    NonNegative(b' - b, a');
    Spread(a', a, b);
    Spread(b', b, a');
  }

  lemma NonNegative(x: real, y: real)
    requires x >= 0.0 && y >= 0.0
    ensures x * y >= 0.0
  {
    if y > 0.0 { SignOfProduct(x, y); }
  }

  // ---------------------------------------------------------------- what one token collects

  /** A token's accumulators: weighted frequency, annotated acceptance, annotated probability, annotated weight,
      support. */
  datatype Slot = Slot(wf: real, wa: real, wph: real, wt: real, sup: nat)

  const EMPTY_SLOT: Slot := Slot(0.0, 0.0, 0.0, 0.0, 0)

  function Join(x: Slot, y: Slot): Slot {
    Slot(x.wf + y.wf, x.wa + y.wa, x.wph + y.wph, x.wt + y.wt, if x.sup > y.sup then x.sup else y.sup)
  }

  lemma JoinLaws(x: Slot, y: Slot, z: Slot)
    ensures Join(x, y) == Join(y, x) && Join(Join(x, y), z) == Join(x, Join(y, z))
    ensures Join(x, EMPTY_SLOT) == x
  {
  }

  function Weight(p: BackoffParams, s: Source): real
    requires p.countPrior > 0.0 && s.matchLen <= Signatures.MAX_ORDER
  {
    Lam(p, s.matchLen, s.scopeDepth, TotalCount(s))
  }

  /** Only sources of a long enough match may annotate. */
  function HiWeight(p: BackoffParams, s: Source): real
    requires p.countPrior > 0.0 && s.matchLen <= Signatures.MAX_ORDER
  {
    if Weight(p, s) > 0.0 && s.matchLen >= p.pHatMinOrder then Weight(p, s) else 0.0
  }

  function FreqDen(p: BackoffParams, s: Source): real {
    TotalAcc(s) as real + (if |s.cands| > 1 then |s.cands| else 1) as real * p.betaA
  }

  function ProbDen(p: BackoffParams, s: Source): real {
    var z := ProbSum(p, s.cands);
    if z == 0.0 then 1.0 else z
  }

  /** The part `a` of `d` of the weight `w`. */
  function Share(w: real, a: real, d: real): real
    requires d > 0.0
  {
    w * (a / d)
  }

  function CandSlot(p: BackoffParams, s: Source, c: Cand): Slot
    requires p.Sane() && ValidSource(s)
  {
    DensPositive(p, s);
    var a, r := c.acc as real, c.rej as real;
    Slot(Share(Weight(p, s), a + p.betaA, FreqDen(p, s)),
         Share(HiWeight(p, s), a + p.betaA, a + r + p.betaA + p.betaB),
         Share(HiWeight(p, s), p.prob(c.q8), ProbDen(p, s)),
         HiWeight(p, s),
         c.acc + c.rej)
  }

  lemma {:induction false} ProbSumPositive(p: BackoffParams, cands: seq<Cand>)
    requires p.Sane()
    ensures ProbSum(p, cands) >= 0.0 && (cands != [] ==> ProbSum(p, cands) > 0.0)
  {
    if cands != [] { ProbSumPositive(p, cands[1..]); }
  }

  lemma DensPositive(p: BackoffParams, s: Source)
    requires p.Sane() && ValidSource(s)
    ensures FreqDen(p, s) > 0.0 && ProbDen(p, s) > 0.0
  {
    ProbSumPositive(p, s.cands);
    var k := (if |s.cands| > 1 then |s.cands| else 1) as real;
    assert k * p.betaA > 0.0;
  }

  lemma WeightSign(p: BackoffParams, s: Source)
    requires p.Sane() && s.matchLen <= Signatures.MAX_ORDER
    ensures 0.0 <= HiWeight(p, s) <= Weight(p, s)
    ensures Weight(p, s) > 0.0 <==> TotalCount(s) > 0
  {
    hide Power, Shrink;
    PowerPositive(p.orderDecay, Signatures.MAX_ORDER - s.matchLen);
    PowerPositive(p.scopeDecay, s.scopeDepth);
    ShrinkMonotone(TotalCount(s), TotalCount(s), p.countPrior);
    var x, y, z := Power(p.orderDecay, Signatures.MAX_ORDER - s.matchLen), Power(p.scopeDecay, s.scopeDepth),
                   Shrink(TotalCount(s), p.countPrior);
    SignOfProduct(x, y);
    SignOfProduct(z, x * y);
    if TotalCount(s) == 0 { NoEvidence(p.countPrior); }
  }

  lemma NoEvidence(prior: real)
    requires prior > 0.0
    ensures Shrink(0, prior) == 0.0
  {
  }

  function CandSlots(p: BackoffParams, s: Source, cands: seq<Cand>, tok: int): Slot
    requires p.Sane() && ValidSource(s)
  {
    if cands == [] then EMPTY_SLOT
    else if cands[0].tok == tok then Join(CandSlot(p, s, cands[0]), CandSlots(p, s, cands[1..], tok))
    else CandSlots(p, s, cands[1..], tok)
  }

  function SourceSlot(p: BackoffParams, s: Source, tok: int): Slot
    requires p.Sane() && ValidSource(s)
  {
    if Weight(p, s) > 0.0 then CandSlots(p, s, s.cands, tok) else EMPTY_SLOT
  }

  function SlotOf(p: BackoffParams, ss: seq<Source>, tok: int): Slot
    requires p.Sane() && ValidSources(ss)
  {
    if ss == [] then EMPTY_SLOT else Join(SourceSlot(p, ss[0], tok), SlotOf(p, ss[1..], tok))
  }

  function Toks(cands: seq<Cand>): set<int> {
    set i | 0 <= i < |cands| :: cands[i].tok
  }

  function SourceToks(p: BackoffParams, s: Source): set<int>
    requires p.Sane() && ValidSource(s)
  {
    if Weight(p, s) > 0.0 then Toks(s.cands) else {}
  }

  function TokSet(p: BackoffParams, ss: seq<Source>): set<int>
    requires p.Sane() && ValidSources(ss)
  {
    if ss == [] then {} else SourceToks(p, ss[0]) + TokSet(p, ss[1..])
  }

  function WeightSum(p: BackoffParams, ss: seq<Source>): real
    requires p.Sane() && ValidSources(ss)
  {
    if ss == [] then 0.0 else Weight(p, ss[0]) + WeightSum(p, ss[1..])
  }

  function HiWeightSum(p: BackoffParams, ss: seq<Source>): real
    requires p.Sane() && ValidSources(ss)
  {
    if ss == [] then 0.0 else HiWeight(p, ss[0]) + HiWeightSum(p, ss[1..])
  }

  function SlotMap(p: BackoffParams, ss: seq<Source>): map<int, Slot>
    requires p.Sane() && ValidSources(ss)
  {
    map t | t in TokSet(p, ss) :: SlotOf(p, ss, t)
  }

  // ---------------------------------------------------------------- from accumulators to candidates

  /** Everything the ranking and the probabilities are computed from; no order of sources or candidates is
      left in it. */
  datatype Board = Board(slots: map<int, Slot>, wSum: real, wHi: real, annoPrior: real, round1: real -> real) {
    ghost predicate Sane() {
      wSum > 0.0 && wHi >= 0.0 && annoPrior > 0.0 && slots != map[]
    }

    function Gate(): real
      requires wHi >= 0.0 && annoPrior > 0.0
    {
      wHi / (wHi + annoPrior)
    }

    function Uniform(): real
      requires slots != map[]
    {
      1.0 / |slots| as real
    }

    function PAcc(t: int): real
      requires Sane() && t in slots
    {
      0.5 + if slots[t].wt > 0.0 then Gate() * (slots[t].wa / slots[t].wt - 0.5) else 0.0
    }

    function PHat(t: int): real
      requires Sane() && t in slots
    {
      Uniform() + if wHi > 0.0 then Gate() * (slots[t].wph / wHi - Uniform()) else 0.0
    }

    function Freq(t: int): real
      requires Sane() && t in slots
    {
      slots[t].wf / wSum
    }

    function Score(t: int): real
      requires Sane() && t in slots
    {
      Freq(t) * (|slots| as real * PHat(t))
    }

    /** Ranking order: rounded relative score, then support, then the smaller token. */
    predicate Before(sMax: real, t: int, u: int)
      requires Sane() && t in slots && u in slots && sMax != 0.0
    {
      var x, y := round1(Score(t) / sMax), round1(Score(u) / sMax);
      x > y || (x == y && (slots[t].sup > slots[u].sup || (slots[t].sup == slots[u].sup && t < u)))
    }
  }

  function BoardOf(p: BackoffParams, ss: seq<Source>): Board
    requires p.Sane() && ValidSources(ss)
  {
    Board(SlotMap(p, ss), WeightSum(p, ss), HiWeightSum(p, ss), p.annoPrior, p.round1)
  }

  ghost predicate Lists(toks: seq<int>, all: set<int>) {
    && (forall i, j :: 0 <= i < j < |toks| ==> toks[i] != toks[j])
    && (forall i :: 0 <= i < |toks| ==> toks[i] in all)
    && (forall t :: t in all ==> t in toks)
  }

  /** `sMax` is the highest score, or 1 when that is 0. */
  ghost predicate IsTopScore(b: Board, sMax: real)
    requires b.Sane()
  {
    exists t :: t in b.slots && (forall u :: u in b.slots ==> b.Score(u) <= b.Score(t))
             && sMax == if b.Score(t) == 0.0 then 1.0 else b.Score(t)
  }

  ghost predicate IsRanking(b: Board, sMax: real, toks: seq<int>)
    requires b.Sane() && sMax != 0.0
  {
    && Lists(toks, b.slots.Keys)
    && forall i, j :: 0 <= i < j < |toks| ==> b.Before(sMax, toks[i], toks[j])
  }

  function PHatSum(b: Board, toks: seq<int>): real
    requires b.Sane() && forall t :: t in toks ==> t in b.slots
  {
    if toks == [] then 0.0 else b.PHat(toks[0]) + PHatSum(b, toks[1..])
  }

  function FreqSum(b: Board, toks: seq<int>): real
    requires b.Sane() && forall t :: t in toks ==> t in b.slots
  {
    if toks == [] then 0.0 else b.Freq(toks[0]) + FreqSum(b, toks[1..])
  }

  function BestOrder(ss: seq<Source>): int
    requires ss != []
  {
    if |ss| == 1 then ss[0].matchLen
    else if ss[0].matchLen > BestOrder(ss[1..]) then ss[0].matchLen else BestOrder(ss[1..])
  }

  ghost predicate IsPosterior(p: BackoffParams, ss: seq<Source>, sMax: real, toks: seq<int>, post: Posterior)
    requires p.Sane() && ValidSources(ss) && ss != [] && BoardOf(p, ss).Sane()
    requires forall t :: t in toks ==> t in BoardOf(p, ss).slots
  {
    var b := BoardOf(p, ss);
    var k := if |toks| < p.maxCands then |toks| else p.maxCands;
    var z := PHatSum(b, toks[..k]);
    && post.weight == b.wSum
    && post.bestOrder == BestOrder(ss)
    && |post.cands| == k
    && forall i :: 0 <= i < k ==>
         post.cands[i] ==
         PosteriorCand(toks[i], b.PAcc(toks[i]), b.PHat(toks[i]) / (if z > 1.0 then z else 1.0), b.slots[toks[i]].sup)
  }

  /** What a blend is, independently of how it is accumulated. */
  ghost predicate IsBlend(p: BackoffParams, ss: seq<Source>, r: Option<Posterior>)
    requires p.Sane() && ValidSources(ss)
  {
    if !BoardOf(p, ss).Sane() || ss == [] then r == None
    else r.Some? && exists sMax, toks ::
           && sMax != 0.0 && IsTopScore(BoardOf(p, ss), sMax) && IsRanking(BoardOf(p, ss), sMax, toks)
           && IsPosterior(p, ss, sMax, toks, r.value)
  }

  // ---------------------------------------------------------------- appending and reordering

  lemma {:induction false} SlotOfAppend(p: BackoffParams, ss: seq<Source>, s: Source, tok: int)
    requires p.Sane() && ValidSources(ss) && ValidSource(s)
    ensures ValidSources(ss + [s])
    ensures SlotOf(p, ss + [s], tok) == Join(SlotOf(p, ss, tok), SourceSlot(p, s, tok))
  {
    hide SourceSlot;
    var x := SourceSlot(p, s, tok);
    if ss == [] {
      JoinLaws(x, EMPTY_SLOT, x);
    } else {
      assert (ss + [s])[1..] == ss[1..] + [s];
      SlotOfAppend(p, ss[1..], s, tok);
      JoinLaws(SourceSlot(p, ss[0], tok), SlotOf(p, ss[1..], tok), x);
    }
  }

  lemma {:induction false} SumsAppend(p: BackoffParams, ss: seq<Source>, s: Source)
    requires p.Sane() && ValidSources(ss) && ValidSource(s)
    ensures ValidSources(ss + [s])
    ensures WeightSum(p, ss + [s]) == WeightSum(p, ss) + Weight(p, s)
    ensures HiWeightSum(p, ss + [s]) == HiWeightSum(p, ss) + HiWeight(p, s)
    ensures TokSet(p, ss + [s]) == TokSet(p, ss) + SourceToks(p, s)
  {
    hide Weight, HiWeight, SourceToks;
    if ss != [] {
      assert (ss + [s])[1..] == ss[1..] + [s];
      SumsAppend(p, ss[1..], s);
    }
  }

  ghost predicate Reordered(s: Source, t: Source) {
    && s.matchLen == t.matchLen && s.scopeDepth == t.scopeDepth
    && multiset(s.cands) == multiset(t.cands)
  }

  /** The candidate at position `j` may be taken out first. */
  lemma {:induction false} PullOutCand(p: BackoffParams, s: Source, cands: seq<Cand>, j: nat, tok: int)
    requires p.Sane() && ValidSource(s) && j < |cands|
    ensures var rest := cands[..j] + cands[j + 1..];
            && CountSum(cands) == cands[j].acc + cands[j].rej + CountSum(rest)
            && AccSum(cands) == cands[j].acc + AccSum(rest)
            && ProbSum(p, cands) == p.prob(cands[j].q8) + ProbSum(p, rest)
            && CandSlots(p, s, cands, tok) ==
                 if cands[j].tok == tok then Join(CandSlot(p, s, cands[j]), CandSlots(p, s, rest, tok))
                 else CandSlots(p, s, rest, tok)
    decreases j
  {
    hide CandSlot;
    var rest := cands[..j] + cands[j + 1..];
    if j == 0 {
      assert rest == cands[1..];
    } else {
      PullOutCand(p, s, cands[1..], j - 1, tok);
      assert rest[1..] == cands[1..][..j - 1] + cands[1..][j..];
      var x, y, z := CandSlot(p, s, cands[0]), CandSlot(p, s, cands[j]), CandSlots(p, s, rest[1..], tok);
      JoinLaws(x, y, z);
      JoinLaws(y, x, z);
    }
  }

  lemma {:induction false} ReorderCands(p: BackoffParams, s: Source, xs: seq<Cand>, ys: seq<Cand>, tok: int)
    requires p.Sane() && ValidSource(s) && multiset(xs) == multiset(ys)
    ensures CountSum(xs) == CountSum(ys) && AccSum(xs) == AccSum(ys) && ProbSum(p, xs) == ProbSum(p, ys)
    ensures CandSlots(p, s, xs, tok) == CandSlots(p, s, ys, tok)
    ensures |xs| == |ys| && Toks(xs) == Toks(ys)
  {
    hide CandSlot;
    MultisetToks(xs, ys);
    if xs == [] {
      assert ys == [] by { assert |multiset(ys)| == 0; }
    } else {
      var c := xs[0];
      assert c in multiset(ys);
      var j :| 0 <= j < |ys| && ys[j] == c;
      var rest := ys[..j] + ys[j + 1..];
      TakeOut(xs, ys, j);
      ReorderCands(p, s, xs[1..], rest, tok);
      PullOutCand(p, s, ys, j, tok);
    }
  }

  lemma TakeOut<T>(xs: seq<T>, ys: seq<T>, j: nat)
    requires multiset(xs) == multiset(ys) && xs != [] && j < |ys| && ys[j] == xs[0]
    ensures multiset(xs[1..]) == multiset(ys[..j] + ys[j + 1..])
  {
    assert xs == [xs[0]] + xs[1..];
    assert ys == ys[..j] + ([ys[j]] + ys[j + 1..]);
    assert multiset(xs) == multiset{xs[0]} + multiset(xs[1..]);
    assert multiset(ys) == multiset(ys[..j]) + (multiset{ys[j]} + multiset(ys[j + 1..]));
    assert multiset(ys[..j] + ys[j + 1..]) == multiset(ys) - multiset{ys[j]};
  }

  lemma MultisetToks(xs: seq<Cand>, ys: seq<Cand>)
    requires multiset(xs) == multiset(ys)
    ensures |xs| == |ys| && Toks(xs) == Toks(ys)
  {
    assert |multiset(xs)| == |xs| && |multiset(ys)| == |ys|;
    forall t | t in Toks(xs) ensures t in Toks(ys) {
      var i :| 0 <= i < |xs| && xs[i].tok == t;
      assert xs[i] in multiset(ys);
      var j :| 0 <= j < |ys| && ys[j] == xs[i];
    }
    forall t | t in Toks(ys) ensures t in Toks(xs) {
      var i :| 0 <= i < |ys| && ys[i].tok == t;
      assert ys[i] in multiset(xs);
      var j :| 0 <= j < |xs| && xs[j] == ys[i];
    }
  }

  /** A source means the same whatever the order of its candidates. */
  lemma ReorderSource(p: BackoffParams, s: Source, t: Source, tok: int)
    requires p.Sane() && ValidSource(s) && ValidSource(t) && Reordered(s, t)
    ensures Weight(p, s) == Weight(p, t) && HiWeight(p, s) == HiWeight(p, t)
    ensures SourceToks(p, s) == SourceToks(p, t)
    ensures SourceSlot(p, s, tok) == SourceSlot(p, t, tok)
  {
    hide Lam;
    ReorderCands(p, s, s.cands, t.cands, tok);
    SameCandSlot(p, s, t, t.cands, tok);
  }

  lemma {:induction false} SameCandSlot(p: BackoffParams, s: Source, t: Source, cands: seq<Cand>, tok: int)
    requires p.Sane() && ValidSource(s) && ValidSource(t)
    requires Weight(p, s) == Weight(p, t) && HiWeight(p, s) == HiWeight(p, t)
    requires FreqDen(p, s) == FreqDen(p, t) && ProbDen(p, s) == ProbDen(p, t)
    ensures CandSlots(p, s, cands, tok) == CandSlots(p, t, cands, tok)
  {
    hide CandSlot, ValidSource;
    if cands != [] {
      SameSlotOfCand(p, s, t, cands[0]);
      SameCandSlot(p, s, t, cands[1..], tok);
    }
  }

  lemma SameSlotOfCand(p: BackoffParams, s: Source, t: Source, c: Cand)
    requires p.Sane() && ValidSource(s) && ValidSource(t)
    requires Weight(p, s) == Weight(p, t) && HiWeight(p, s) == HiWeight(p, t)
    requires FreqDen(p, s) == FreqDen(p, t) && ProbDen(p, s) == ProbDen(p, t)
    ensures CandSlot(p, s, c) == CandSlot(p, t, c)
  {
    hide Weight, HiWeight, FreqDen, ProbDen;
    DensPositive(p, s);
    DensPositive(p, t);
  }

  lemma {:induction false} PullOutSource(p: BackoffParams, ss: seq<Source>, j: nat, tok: int)
    requires p.Sane() && ValidSources(ss) && j < |ss|
    ensures var rest := ss[..j] + ss[j + 1..];
            && ValidSources(rest)
            && WeightSum(p, ss) == Weight(p, ss[j]) + WeightSum(p, rest)
            && HiWeightSum(p, ss) == HiWeight(p, ss[j]) + HiWeightSum(p, rest)
            && TokSet(p, ss) == SourceToks(p, ss[j]) + TokSet(p, rest)
            && SlotOf(p, ss, tok) == Join(SourceSlot(p, ss[j], tok), SlotOf(p, rest, tok))
            && (rest != [] ==>
                BestOrder(ss) == if ss[j].matchLen > BestOrder(rest) then ss[j].matchLen else BestOrder(rest))
    decreases j
  {
    hide Weight, HiWeight, SourceToks, SourceSlot, ValidSource;
    var rest := ss[..j] + ss[j + 1..];
    if j == 0 {
      assert rest == ss[1..];
    } else {
      PullOutSource(p, ss[1..], j - 1, tok);
      assert rest[1..] == ss[1..][..j - 1] + ss[1..][j..];
      var x, y, z := SourceSlot(p, ss[0], tok), SourceSlot(p, ss[j], tok), SlotOf(p, rest[1..], tok);
      JoinLaws(x, y, z);
      JoinLaws(y, x, z);
    }
  }

  lemma {:induction false} ReorderSources(p: BackoffParams, xs: seq<Source>, ys: seq<Source>, tok: int)
    requires p.Sane() && ValidSources(xs) && ValidSources(ys) && multiset(xs) == multiset(ys)
    ensures WeightSum(p, xs) == WeightSum(p, ys) && HiWeightSum(p, xs) == HiWeightSum(p, ys)
    ensures TokSet(p, xs) == TokSet(p, ys) && SlotOf(p, xs, tok) == SlotOf(p, ys, tok)
    ensures |xs| == |ys| && (xs != [] ==> BestOrder(xs) == BestOrder(ys))
  {
    hide Weight, HiWeight, SourceToks, SourceSlot, ValidSource;
    assert |multiset(xs)| == |xs| && |multiset(ys)| == |ys|;
    if xs != [] {
      var s := xs[0];
      assert s in multiset(ys);
      var j :| 0 <= j < |ys| && ys[j] == s;
      var rest := ys[..j] + ys[j + 1..];
      TakeOut(xs, ys, j);
      PullOutSource(p, ys, j, tok);
      ReorderSources(p, xs[1..], rest, tok);
      if rest == [] { assert ys == [s] && xs == [s]; }
    }
  }

  lemma {:induction false} ReorderEachSource(p: BackoffParams, xs: seq<Source>, ys: seq<Source>, tok: int)
    requires p.Sane() && ValidSources(xs) && ValidSources(ys) && |xs| == |ys|
    requires forall i :: 0 <= i < |xs| ==> Reordered(xs[i], ys[i])
    ensures WeightSum(p, xs) == WeightSum(p, ys) && HiWeightSum(p, xs) == HiWeightSum(p, ys)
    ensures TokSet(p, xs) == TokSet(p, ys) && SlotOf(p, xs, tok) == SlotOf(p, ys, tok)
    ensures xs != [] ==> BestOrder(xs) == BestOrder(ys)
  {
    hide Weight, HiWeight, SourceToks, SourceSlot, ValidSource;
    if xs != [] {
      ReorderSource(p, xs[0], ys[0], tok);
      ReorderEachSource(p, xs[1..], ys[1..], tok);
    }
  }

  /** Two strict rankings of the same tokens are the same list. */
  lemma RankingUnique(b: Board, sMax: real, xs: seq<int>, ys: seq<int>, i: nat)
    requires b.Sane() && sMax != 0.0 && IsRanking(b, sMax, xs) && IsRanking(b, sMax, ys)
    requires i <= |xs| && i <= |ys|
    ensures xs[..i] == ys[..i]
    ensures |xs| == |ys|
  {
    SameLength(xs, ys, b.slots.Keys);
    if i > 0 {
      RankingUnique(b, sMax, xs, ys, i - 1);
      var x, y := xs[i - 1], ys[i - 1];
      assert xs[i - 1] in b.slots && ys[i - 1] in b.slots;
      var j :| 0 <= j < |ys| && ys[j] == x;
      var k :| 0 <= k < |xs| && xs[k] == y;
      assert x == y;
      assert xs[..i] == xs[..i - 1] + [x] && ys[..i] == ys[..i - 1] + [y];
    }
  }

  lemma ListsNothing(toks: seq<int>, all: set<int>)
    requires Lists(toks, all) && toks == []
    ensures all == {}
  {
    assert forall t :: t in all ==> t in toks;
  }

  lemma {:induction false} ListLength(toks: seq<int>, all: set<int>)
    requires Lists(toks, all)
    ensures |toks| == |all|
  {
    if toks == [] {
      ListsNothing(toks, all);
    } else {
      assert all == (all - {toks[0]}) + {toks[0]};
      ListLength(toks[1..], all - {toks[0]});
    }
  }

  lemma SameLength(xs: seq<int>, ys: seq<int>, all: set<int>)
    requires Lists(xs, all) && Lists(ys, all)
    ensures |xs| == |ys| == |all|
  {
    ListLength(xs, all);
    ListLength(ys, all);
  }

  /** The same sources in any order, with their candidates in any order, blend to the same posterior. */
  lemma OrderIndependent(p: BackoffParams, xs: seq<Source>, ys: seq<Source>, zs: seq<Source>,
                         r: Option<Posterior>, r': Option<Posterior>)
    requires p.Sane() && ValidSources(xs) && ValidSources(ys) && ValidSources(zs)
    requires |xs| == |ys| && forall i :: 0 <= i < |xs| ==> Reordered(xs[i], ys[i])
    requires multiset(ys) == multiset(zs)
    requires IsBlend(p, xs, r) && IsBlend(p, zs, r')
    ensures r == r'
  {
    hide IsTopScore, TokSet, SlotOf, WeightSum, HiWeightSum, BestOrder, ValidSource;
    forall t ensures SlotOf(p, xs, t) == SlotOf(p, zs, t) {
      ReorderEachSource(p, xs, ys, t);
      ReorderSources(p, ys, zs, t);
    }
    ReorderEachSource(p, xs, ys, 0);
    ReorderSources(p, ys, zs, 0);
    assert BoardOf(p, xs) == BoardOf(p, zs);
    SameBoardSameBlend(p, xs, zs, r, r');
  }

  lemma SameBoardSameBlend(p: BackoffParams, xs: seq<Source>, zs: seq<Source>, r: Option<Posterior>,
                           r': Option<Posterior>)
    requires p.Sane() && ValidSources(xs) && ValidSources(zs)
    requires BoardOf(p, xs) == BoardOf(p, zs) && |xs| == |zs| && (xs != [] ==> BestOrder(xs) == BestOrder(zs))
    requires IsBlend(p, xs, r) && IsBlend(p, zs, r')
    ensures r == r'
  {
    hide IsTopScore, BoardOf, BestOrder, ValidSources;
    if r.Some? {
      var b := BoardOf(p, xs);
      var sMax, toks :| sMax != 0.0 && IsTopScore(b, sMax) && IsRanking(b, sMax, toks)
        && IsPosterior(p, xs, sMax, toks, r.value);
      var sMax', toks' :| sMax' != 0.0 && IsTopScore(b, sMax') && IsRanking(b, sMax', toks')
        && IsPosterior(p, zs, sMax', toks', r'.value);
      TopScoreUnique(b, sMax, sMax');
      RankingUnique(b, sMax, toks, toks', 0);
      RankingUnique(b, sMax, toks, toks', |toks|);
      assert toks[..|toks|] == toks && toks'[..|toks|] == toks';
      assert r.value.cands == r'.value.cands;
    }
  }

  lemma TopScoreUnique(b: Board, x: real, y: real)
    requires b.Sane() && IsTopScore(b, x) && IsTopScore(b, y)
    ensures x == y
  {
  }

  // ---------------------------------------------------------------- conservation

  function CandsOver(p: BackoffParams, s: Source, cands: seq<Cand>, toks: seq<int>): Slot
    requires p.Sane() && ValidSource(s)
  {
    if toks == [] then EMPTY_SLOT else Join(CandSlots(p, s, cands, toks[0]), CandsOver(p, s, cands, toks[1..]))
  }

  function SlotsOver(p: BackoffParams, ss: seq<Source>, toks: seq<int>): Slot
    requires p.Sane() && ValidSources(ss)
  {
    if toks == [] then EMPTY_SLOT else Join(SlotOf(p, ss, toks[0]), SlotsOver(p, ss, toks[1..]))
  }

  function AllCands(p: BackoffParams, s: Source, cands: seq<Cand>): Slot
    requires p.Sane() && ValidSource(s)
  {
    if cands == [] then EMPTY_SLOT else Join(CandSlot(p, s, cands[0]), AllCands(p, s, cands[1..]))
  }

  ghost predicate NoRepeats(toks: seq<int>) {
    forall i, j :: 0 <= i < j < |toks| ==> toks[i] != toks[j]
  }

  lemma {:induction false} NothingOver(p: BackoffParams, s: Source, toks: seq<int>)
    requires p.Sane() && ValidSource(s)
    ensures CandsOver(p, s, [], toks) == EMPTY_SLOT
  {
    if toks != [] { NothingOver(p, s, toks[1..]); }
  }

  /** Taking one candidate off changes the sum over the tokens by that candidate's share, once. */
  lemma {:induction false} OneCandOver(p: BackoffParams, s: Source, cands: seq<Cand>, toks: seq<int>)
    requires p.Sane() && ValidSource(s) && cands != [] && NoRepeats(toks)
    ensures CandsOver(p, s, cands, toks) ==
            if cands[0].tok in toks then Join(CandSlot(p, s, cands[0]), CandsOver(p, s, cands[1..], toks))
            else CandsOver(p, s, cands[1..], toks)
  {
    hide CandSlot, Join;
    if toks != [] {
      OneCandOver(p, s, cands, toks[1..]);
      var x, y, z :=
        CandSlot(p, s, cands[0]), CandSlots(p, s, cands[1..], toks[0]), CandsOver(p, s, cands[1..], toks[1..]);
      JoinLaws(x, y, z);
      JoinLaws(y, x, z);
    }
  }

  /** Summed over tokens, a source's shares are the sum over its candidates. */
  lemma {:induction false} CandsAreCovered(p: BackoffParams, s: Source, cands: seq<Cand>, toks: seq<int>)
    requires p.Sane() && ValidSource(s) && NoRepeats(toks) && DistinctToks(cands)
    requires forall i :: 0 <= i < |cands| ==> cands[i].tok in toks
    ensures CandsOver(p, s, cands, toks) == AllCands(p, s, cands)
  {
    hide CandSlot;
    if cands == [] {
      NothingOver(p, s, toks);
    } else {
      OneCandOver(p, s, cands, toks);
      CandsAreCovered(p, s, cands[1..], toks);
    }
  }

  lemma Distribute(a: real, b: real, c: real, d: real)
    requires d > 0.0
    ensures Share(a, b, d) + Share(a, c, d) == Share(a, b + c, d)
  {
    Quotient(b, d);
    Quotient(c, d);
    Quotient(b + c, d);
    Spread(b / d, c / d, d);
    Cancel(b / d + c / d, (b + c) / d, d);
    Spread(b / d, c / d, a);
  }

  lemma NoShare(w: real, a: real, d: real)
    requires d > 0.0 && a == 0.0
    ensures Share(w, a, d) == 0.0
  {
    Quotient(a, d);
    SignOfProduct(a / d, d);
  }

  lemma WholeShare(w: real, d: real)
    requires d > 0.0
    ensures Share(w, d, d) == w
  {
    Quotient(d, d);
  }

  /** A source's candidates share out its weight in proportion to their smoothed counts and probabilities. */
  lemma {:induction false} AllCandsShares(p: BackoffParams, s: Source, cands: seq<Cand>)
    requires p.Sane() && ValidSource(s)
    requires FreqDen(p, s) > 0.0 && ProbDen(p, s) > 0.0
    ensures AllCands(p, s, cands).wf ==
            Share(Weight(p, s), AccSum(cands) as real + |cands| as real * p.betaA, FreqDen(p, s))
    ensures AllCands(p, s, cands).wph == Share(HiWeight(p, s), ProbSum(p, cands), ProbDen(p, s))
  {
    hide Weight, HiWeight, FreqDen, ProbDen, Share;
    var w, h, d, z := Weight(p, s), HiWeight(p, s), FreqDen(p, s), ProbDen(p, s);
    if cands != [] {
      var c, rest := cands[0], cands[1..];
      var x, y := CandSlot(p, s, c), AllCands(p, s, rest);
      assert AllCands(p, s, cands) == Join(x, y);
      AllCandsShares(p, s, rest);
      OneMoreBeta(c.acc, AccSum(rest), AccSum(cands), |rest|, |cands|, p.betaA);
      JoinShares(w, c.acc as real + p.betaA, AccSum(rest) as real + |rest| as real * p.betaA,
                 AccSum(cands) as real + |cands| as real * p.betaA, d);
      JoinShares(h, p.prob(c.q8), ProbSum(p, rest), ProbSum(p, cands), z);
    } else {
      NoBeta(|cands|, p.betaA);
      NoShare(w, AccSum(cands) as real + |cands| as real * p.betaA, d);
      NoShare(h, ProbSum(p, cands), z);
    }
  }

  lemma JoinShares(w: real, a: real, b: real, sum: real, d: real)
    requires d > 0.0 && sum == a + b
    ensures Share(w, a, d) + Share(w, b, d) == Share(w, sum, d)
  {
    Distribute(w, a, b, d);
  }

  lemma NoBeta(n: nat, beta: real)
    requires n == 0
    ensures n as real * beta == 0.0
  {
  }

  lemma OneMoreBeta(a: nat, b: nat, sum: nat, n: nat, m: nat, beta: real)
    requires sum == a + b && m == n + 1
    ensures (a as real + beta) + (b as real + n as real * beta) == sum as real + m as real * beta
  {
    Spread(n as real, 1.0, beta);
  }

  /** The shares of a source with positive weight add up to that weight. */
  lemma SourceConserves(p: BackoffParams, s: Source)
    requires p.Sane() && ValidSource(s) && Weight(p, s) > 0.0
    ensures s.cands != []
    ensures AllCands(p, s, s.cands).wf == Weight(p, s) && AllCands(p, s, s.cands).wph == HiWeight(p, s)
  {
    hide Weight, HiWeight, AllCands;
    WeightSign(p, s);
    DensPositive(p, s);
    ProbSumPositive(p, s.cands);
    AllCandsShares(p, s, s.cands);
    WholeShare(Weight(p, s), FreqDen(p, s));
    WholeShare(HiWeight(p, s), ProbDen(p, s));
    assert AccSum(s.cands) as real + |s.cands| as real * p.betaA == FreqDen(p, s);
  }

  lemma HiWeightOfNothing(p: BackoffParams, s: Source)
    requires p.Sane() && s.matchLen <= Signatures.MAX_ORDER && Weight(p, s) == 0.0
    ensures HiWeight(p, s) == 0.0
  {
  }

  lemma {:induction false} NoSlotsOver(p: BackoffParams, toks: seq<int>)
    requires p.Sane()
    ensures SlotsOver(p, [], toks) == EMPTY_SLOT
  {
    if toks != [] { NoSlotsOver(p, toks[1..]); }
  }

  lemma {:induction false} OneSourceOver(p: BackoffParams, ss: seq<Source>, toks: seq<int>)
    requires p.Sane() && ValidSources(ss) && ss != []
    ensures SlotsOver(p, ss, toks) ==
            Join(if Weight(p, ss[0]) > 0.0 then CandsOver(p, ss[0], ss[0].cands, toks) else EMPTY_SLOT,
                 SlotsOver(p, ss[1..], toks))
  {
    hide Weight, CandSlots;
    if toks != [] {
      OneSourceOver(p, ss, toks[1..]);
      var a, b := SourceSlot(p, ss[0], toks[0]), SlotOf(p, ss[1..], toks[0]);
      var c := if Weight(p, ss[0]) > 0.0 then CandsOver(p, ss[0], ss[0].cands, toks[1..]) else EMPTY_SLOT;
      var d := SlotsOver(p, ss[1..], toks[1..]);
      JoinLaws(a, b, Join(c, d)); JoinLaws(b, c, d); JoinLaws(c, b, d); JoinLaws(a, c, Join(b, d));
      JoinLaws(EMPTY_SLOT, EMPTY_SLOT, d);
    }
  }

  /** Summed over all tokens, the weighted frequencies give the total weight, the weighted probabilities the annotated
      one. */
  lemma {:induction false} WeightIsConserved(p: BackoffParams, ss: seq<Source>, toks: seq<int>)
    requires p.Sane() && ValidSources(ss) && NoRepeats(toks)
    requires forall t :: t in TokSet(p, ss) ==> t in toks
    ensures SlotsOver(p, ss, toks).wf == WeightSum(p, ss) && SlotsOver(p, ss, toks).wph == HiWeightSum(p, ss)
  {
    hide Weight, HiWeight, CandsOver, AllCands, SlotOf, SlotsOver;
    if ss == [] {
      NoSlotsOver(p, toks);
    } else {
      OneSourceOver(p, ss, toks);
      WeightIsConserved(p, ss[1..], toks);
      WeightSign(p, ss[0]);
      if Weight(p, ss[0]) == 0.0 { HiWeightOfNothing(p, ss[0]); }
      if Weight(p, ss[0]) > 0.0 {
        SourceConserves(p, ss[0]);
        forall i | 0 <= i < |ss[0].cands| ensures ss[0].cands[i].tok in toks {
          assert ss[0].cands[i].tok in Toks(ss[0].cands);
        }
        CandsAreCovered(p, ss[0], ss[0].cands, toks);
      }
    }
  }

  /** The sums over the board, in terms of the accumulators. */
  lemma {:induction false} BoardSums(p: BackoffParams, ss: seq<Source>, toks: seq<int>)
    requires p.Sane() && ValidSources(ss) && BoardOf(p, ss).Sane()
    requires forall t :: t in toks ==> t in TokSet(p, ss)
    ensures FreqSum(BoardOf(p, ss), toks) == Share(1.0, SlotsOver(p, ss, toks).wf, BoardOf(p, ss).wSum)
    ensures PHatSum(BoardOf(p, ss), toks) == GatedSum(BoardOf(p, ss), SlotsOver(p, ss, toks).wph, |toks| as real)
  {
    hide SlotOf, TokSet, WeightSum, HiWeightSum, ValidSources, GatedSum;
    var b := BoardOf(p, ss);
    if toks == [] {
      NoGatedSum(b);
      NoShare(1.0, 0.0, b.wSum);
    } else {
      BoardSums(p, ss, toks[1..]);
      var x, y := SlotOf(p, ss, toks[0]), SlotsOver(p, ss, toks[1..]);
      assert b.slots[toks[0]] == x;
      Distribute(1.0, x.wf, y.wf, b.wSum);
      OneMoreGated(b, toks[0], y.wph, |toks| as real);
    }
  }

  /** `n` gated probabilities whose accumulators add up to `wph`. */
  function GatedSum(b: Board, wph: real, n: real): real
    requires b.Sane()
  {
    n * b.Uniform() + if b.wHi > 0.0 then b.Gate() * (wph / b.wHi - n * b.Uniform()) else 0.0
  }

  lemma NoGatedSum(b: Board)
    requires b.Sane()
    ensures GatedSum(b, 0.0, 0.0) == 0.0
  {
    if b.wHi > 0.0 { NoShare(1.0, 0.0, b.wHi); }
  }

  lemma OneMoreGated(b: Board, t: int, wph: real, n: real)
    requires b.Sane() && t in b.slots
    ensures b.PHat(t) + GatedSum(b, wph, n - 1.0) == GatedSum(b, b.slots[t].wph + wph, n)
  {
    var u, g, x, y := b.Uniform(), b.Gate(), b.slots[t].wph, wph;
    if b.wHi > 0.0 {
      Distribute(1.0, x, y, b.wHi);
      GatherGate(g, x / b.wHi, y / b.wHi, u, n);
    } else {
      GatherGate(0.0, 0.0, 0.0, u, n);
    }
  }

  lemma GatherGate(g: real, x: real, y: real, u: real, n: real)
    ensures u + g * (x - u) + ((n - 1.0) * u + g * (y - (n - 1.0) * u)) == n * u + g * (x + y - n * u)
  {
  }

  /** Before truncation, frequencies and gated probabilities are distributions over the tokens. */
  lemma BlendConserves(p: BackoffParams, ss: seq<Source>, toks: seq<int>)
    requires p.Sane() && ValidSources(ss) && BoardOf(p, ss).Sane()
    requires Lists(toks, TokSet(p, ss))
    ensures FreqSum(BoardOf(p, ss), toks) == 1.0
    ensures PHatSum(BoardOf(p, ss), toks) == 1.0
  {
    hide SlotOf, TokSet, WeightSum, HiWeightSum, ValidSources, SlotsOver;
    var b := BoardOf(p, ss);
    WeightIsConserved(p, ss, toks);
    BoardSums(p, ss, toks);
    assert b.slots.Keys == TokSet(p, ss);
    ListLength(toks, TokSet(p, ss));
    Quotient(b.wSum, b.wSum);
    WholeGatedSum(b, |toks|);
  }

  lemma WholeGatedSum(b: Board, n: nat)
    requires b.Sane() && n == |b.slots|
    ensures GatedSum(b, b.wHi, n as real) == 1.0
  {
    Quotient(1.0, n as real);
    var u := b.Uniform();
    assert u == 1.0 / n as real;
    assert n as real * u == 1.0;
    if b.wHi > 0.0 { Quotient(b.wHi, b.wHi); }
  }

  // ---------------------------------------------------------------- bounds

  /** Every accumulator is a weighted sum: the frequency is positive, and the acceptance lies between 0 and
      the weight. */
  ghost predicate SoundSlot(x: Slot) {
    && x.wf >= 0.0 && x.wph >= 0.0 && x.wt >= 0.0
    && (x.wt == 0.0 ==> x.wa == 0.0)
    && (x.wt > 0.0 ==> 0.0 < x.wa < x.wt)
  }

  lemma JoinSound(x: Slot, y: Slot)
    requires SoundSlot(x) && SoundSlot(y)
    ensures SoundSlot(Join(x, y))
    ensures Join(x, y).wf >= x.wf && Join(x, y).wf >= y.wf && Join(x, y).sup >= x.sup && Join(x, y).sup >= y.sup
  {
  }

  lemma WeightedFraction(w: real, a: real, b: real)
    requires w >= 0.0 && a > 0.0 && b > 0.0
    ensures w > 0.0 ==> 0.0 < Share(w, a, b)
    ensures w == 0.0 ==> Share(w, a, b) == 0.0
    ensures a < b && w > 0.0 ==> Share(w, a, b) < w
  {
    Quotient(a, b);
    SignOfProduct(a / b, if w > 0.0 then w else 1.0);
    SignOfProduct(1.0 - a / b, if w > 0.0 then w else 1.0);
  }

  lemma CandSlotSound(p: BackoffParams, s: Source, c: Cand)
    requires p.Sane() && ValidSource(s)
    ensures SoundSlot(CandSlot(p, s, c))
    ensures Weight(p, s) > 0.0 ==> CandSlot(p, s, c).wf > 0.0
  {
    hide Weight, HiWeight, FreqDen, ProbDen, Share;
    DensPositive(p, s);
    WeightNonNegative(p, s);
    WeightedFraction(Weight(p, s), c.acc as real + p.betaA, FreqDen(p, s));
    WeightedFraction(HiWeight(p, s), c.acc as real + p.betaA, c.acc as real + c.rej as real + p.betaA + p.betaB);
    WeightedFraction(HiWeight(p, s), p.prob(c.q8), ProbDen(p, s));
  }

  lemma WeightNonNegative(p: BackoffParams, s: Source)
    requires p.Sane() && ValidSource(s)
    ensures 0.0 <= HiWeight(p, s) <= Weight(p, s)
  {
    WeightSign(p, s);
  }

  lemma {:induction false} CandSlotsSound(p: BackoffParams, s: Source, cands: seq<Cand>, tok: int)
    requires p.Sane() && ValidSource(s)
    ensures SoundSlot(CandSlots(p, s, cands, tok))
    ensures tok in Toks(cands) && Weight(p, s) > 0.0 ==> CandSlots(p, s, cands, tok).wf > 0.0
  {
    hide CandSlot, Join, Weight, SoundSlot;
    if cands != [] {
      CandSlotsSound(p, s, cands[1..], tok);
      CandSlotSound(p, s, cands[0]);
      JoinSound(CandSlot(p, s, cands[0]), CandSlots(p, s, cands[1..], tok));
      if tok in Toks(cands) && cands[0].tok != tok {
        var i :| 0 <= i < |cands| && cands[i].tok == tok;
        assert cands[1..][i - 1].tok == tok;
      }
    } else {
      EmptySound();
    }
  }

  lemma EmptySound()
    ensures SoundSlot(EMPTY_SLOT)
  {
  }

  lemma {:induction false} SlotOfSound(p: BackoffParams, ss: seq<Source>, tok: int)
    requires p.Sane() && ValidSources(ss)
    ensures SoundSlot(SlotOf(p, ss, tok))
    ensures tok in TokSet(p, ss) ==> SlotOf(p, ss, tok).wf > 0.0
  {
    hide CandSlots, Join, Weight, SoundSlot, Toks;
    EmptySound();
    if ss != [] {
      SlotOfSound(p, ss[1..], tok);
      CandSlotsSound(p, ss[0], ss[0].cands, tok);
      JoinSound(SourceSlot(p, ss[0], tok), SlotOf(p, ss[1..], tok));
    }
  }

  lemma {:induction false} SumsSound(p: BackoffParams, ss: seq<Source>)
    requires p.Sane() && ValidSources(ss)
    ensures 0.0 <= HiWeightSum(p, ss) <= WeightSum(p, ss)
    ensures WeightSum(p, ss) > 0.0 <==> exists i :: 0 <= i < |ss| && TotalCount(ss[i]) > 0
    ensures WeightSum(p, ss) > 0.0 ==> TokSet(p, ss) != {}
  {
    hide Weight, HiWeight;
    if ss != [] {
      SumsSound(p, ss[1..]);
      WeightSign(p, ss[0]);
      if WeightSum(p, ss[1..]) > 0.0 {
        var i :| 0 <= i < |ss[1..]| && TotalCount(ss[1..][i]) > 0;
        assert TotalCount(ss[i + 1]) > 0;
      }
      if TotalCount(ss[0]) > 0 {
        assert ss[0].cands[0].tok in Toks(ss[0].cands);
      }
      if j :| 0 <= j < |ss| && TotalCount(ss[j]) > 0 {
        if j > 0 { assert TotalCount(ss[1..][j - 1]) > 0; }
      }
    }
  }

  /** The blend yields a posterior exactly when some source has a positive count. */
  lemma BlendsIffEvidence(p: BackoffParams, ss: seq<Source>, r: Option<Posterior>)
    requires p.Sane() && ValidSources(ss) && IsBlend(p, ss, r)
    ensures r.Some? <==> exists i :: 0 <= i < |ss| && TotalCount(ss[i]) > 0
  {
    hide IsPosterior, IsRanking, IsTopScore;
    SumsSound(p, ss);
    assert SlotMap(p, ss).Keys == TokSet(p, ss);
  }

  /** Acceptance estimates lie strictly between 0 and 1, probabilities are positive, and so are scores. */
  lemma BoardBounds(p: BackoffParams, ss: seq<Source>, t: int)
    requires p.Sane() && ValidSources(ss) && BoardOf(p, ss).Sane() && t in BoardOf(p, ss).slots
    ensures 0.0 < BoardOf(p, ss).PAcc(t) < 1.0
    ensures 0.0 < BoardOf(p, ss).PHat(t)
    ensures 0.0 < BoardOf(p, ss).Score(t)
  {
    hide SlotOf, TokSet, WeightSum, HiWeightSum, ValidSources;
    var b := BoardOf(p, ss);
    SlotOfSound(p, ss, t);
    var x := b.slots[t];
    assert x == SlotOf(p, ss, t);
    Quotient(b.wHi, b.wHi + b.annoPrior);
    var g := b.Gate();
    var u := b.Uniform();
    Quotient(1.0, |b.slots| as real);
    if x.wt > 0.0 {
      Quotient(x.wa, x.wt);
      Contract(g, x.wa / x.wt);
    }
    if b.wHi > 0.0 {
      Quotient(x.wph, b.wHi);
      GateMixes(g, u, x.wph / b.wHi);
    }
    Quotient(x.wf, b.wSum);
    SignOfProduct(|b.slots| as real, b.PHat(t));
    SignOfProduct(b.Freq(t), |b.slots| as real * b.PHat(t));
  }

  lemma Contract(g: real, x: real)
    requires 0.0 <= g < 1.0 && 0.0 < x < 1.0
    ensures 0.0 < 0.5 + g * (x - 0.5) < 1.0
  {
    var d := if x >= 0.5 then x - 0.5 else 0.5 - x;
    ProductMonotone(g, 1.0, d, d);
    assert g * (x - 0.5) == if x >= 0.5 then g * d else -(g * d);
  }

  lemma GateMixes(g: real, u: real, y: real)
    requires 0.0 <= g < 1.0 && u > 0.0 && y >= 0.0
    ensures u + g * (y - u) > 0.0
  {
    assert u + g * (y - u) == (1.0 - g) * u + g * y;
    SignOfProduct(1.0 - g, u);
  }

  lemma {:induction false} PHatSumPrefix(b: Board, toks: seq<int>, k: nat)
    requires b.Sane() && k <= |toks| && forall t :: t in toks ==> t in b.slots && b.PHat(t) > 0.0
    ensures 0.0 <= PHatSum(b, toks[..k]) <= PHatSum(b, toks)
  {
    if k > 0 {
      PHatSumPrefix(b, toks[1..], k - 1);
      assert toks[..k][1..] == toks[1..][..k - 1];
    } else {
      PHatSumPositive(b, toks);
    }
  }

  lemma {:induction false} PHatSumPositive(b: Board, toks: seq<int>)
    requires b.Sane() && forall t :: t in toks ==> t in b.slots && b.PHat(t) > 0.0
    ensures PHatSum(b, toks) >= 0.0
  {
    if toks != [] { PHatSumPositive(b, toks[1..]); }
  }

  function FinalSum(cands: seq<PosteriorCand>): real {
    if cands == [] then 0.0 else cands[0].pHat + FinalSum(cands[1..])
  }

  lemma {:induction false} FinalSumIs(b: Board, toks: seq<int>, cands: seq<PosteriorCand>)
    requires b.Sane() && |toks| == |cands| && forall t :: t in toks ==> t in b.slots
    requires forall i :: 0 <= i < |toks| ==> cands[i].pHat == b.PHat(toks[i])
    ensures FinalSum(cands) == PHatSum(b, toks)
  {
    if toks != [] { FinalSumIs(b, toks[1..], cands[1..]); }
  }

  /** A posterior's candidates: distinct, at most `maxCands`, probable, and together at most a distribution. */
  lemma BlendIsSound(p: BackoffParams, ss: seq<Source>, r: Option<Posterior>)
    requires p.Sane() && ValidSources(ss) && IsBlend(p, ss, r) && r.Some?
    ensures |r.value.cands| <= p.maxCands
    ensures p.maxCands > 0 ==> r.value.cands != []
    ensures forall i, j :: 0 <= i < j < |r.value.cands| ==> r.value.cands[i].tok != r.value.cands[j].tok
    ensures forall c :: c in r.value.cands ==> 0.0 < c.pAcc < 1.0 && 0.0 < c.pHat
    ensures FinalSum(r.value.cands) <= 1.0
    ensures |TokSet(p, ss)| <= p.maxCands ==> FinalSum(r.value.cands) == 1.0
  {
    hide IsTopScore, BoardOf, TokSet, ValidSources, BestOrder, FinalSum, PHatSum;
    var b := BoardOf(p, ss);
    var sMax, toks :| sMax != 0.0 && IsTopScore(b, sMax) && IsRanking(b, sMax, toks)
      && IsPosterior(p, ss, sMax, toks, r.value);
    var k := |r.value.cands|;
    TruncationIsSound(p, ss, toks, k);
    assert forall i :: 0 <= i < k ==> toks[i] in toks;
    forall i | 0 <= i < k ensures r.value.cands[i].pHat == b.PHat(toks[i]) && 0.0 < r.value.cands[i].pAcc < 1.0 {
      assert b.PHat(toks[i]) / 1.0 == b.PHat(toks[i]);
    }
    FinalSumIs(b, toks[..k], r.value.cands);
  }

  /** Cutting a ranking off after `k` tokens leaves at most a distribution. */
  lemma TruncationIsSound(p: BackoffParams, ss: seq<Source>, toks: seq<int>, k: nat)
    requires p.Sane() && ValidSources(ss) && BoardOf(p, ss).Sane() && Lists(toks, BoardOf(p, ss).slots.Keys)
    requires k <= |toks|
    ensures forall t :: t in toks ==>
            t in BoardOf(p, ss).slots && 0.0 < BoardOf(p, ss).PAcc(t) < 1.0 && BoardOf(p, ss).PHat(t) > 0.0
    ensures PHatSum(BoardOf(p, ss), toks[..k]) <= 1.0
    ensures k == |toks| ==> PHatSum(BoardOf(p, ss), toks[..k]) == 1.0
    ensures |toks| == |TokSet(p, ss)| > 0
  {
    hide SlotOf, TokSet, WeightSum, HiWeightSum, ValidSources;
    var b := BoardOf(p, ss);
    assert b.slots.Keys == TokSet(p, ss);
    forall t | t in toks ensures t in b.slots && 0.0 < b.PAcc(t) < 1.0 && b.PHat(t) > 0.0 {
      BoardBounds(p, ss, t);
    }
    BlendConserves(p, ss, toks);
    ListLength(toks, TokSet(p, ss));
    PHatSumPrefix(b, toks, k);
    if k == |toks| { assert toks[..k] == toks; }
  }

  // ---------------------------------------------------------------- the blend itself

  function GetSlot(slots: map<int, Slot>, t: int): Slot {
    if t in slots then slots[t] else EMPTY_SLOT
  }

  lemma {:induction false} CandSlotsAppend(p: BackoffParams, s: Source, cands: seq<Cand>, c: Cand, tok: int)
    requires p.Sane() && ValidSource(s)
    ensures CandSlots(p, s, cands + [c], tok) ==
            if c.tok == tok then Join(CandSlots(p, s, cands, tok), CandSlot(p, s, c)) else CandSlots(p, s, cands, tok)
  {
    hide CandSlot, Join;
    if cands == [] {
      JoinLaws(CandSlot(p, s, c), EMPTY_SLOT, EMPTY_SLOT);
    } else {
      assert (cands + [c])[1..] == cands[1..] + [c];
      CandSlotsAppend(p, s, cands[1..], c, tok);
      JoinLaws(CandSlot(p, s, cands[0]), CandSlots(p, s, cands[1..], tok), CandSlot(p, s, c));
    }
  }

  /** Adds one source's candidates to the accumulators; `order` is the dict's insertion order. */
  method AddSource(p: BackoffParams, s: Source, slots: map<int, Slot>, order: seq<int>)
    returns (slots': map<int, Slot>, order': seq<int>)
    requires p.Sane() && ValidSource(s) && Lists(order, slots.Keys)
    ensures slots'.Keys == slots.Keys + Toks(s.cands)
    ensures forall t :: t in slots' ==> slots'[t] == Join(GetSlot(slots, t), CandSlots(p, s, s.cands, t))
    ensures Lists(order', slots'.Keys)
  {
    hide CandSlot, ValidSource, Join;
    slots', order' := slots, order;
    NothingAdded(p, s, slots);
    for j := 0 to |s.cands|
      invariant slots'.Keys == slots.Keys + Toks(s.cands[..j])
      invariant forall t :: t in slots' ==> slots'[t] == Join(GetSlot(slots, t), CandSlots(p, s, s.cands[..j], t))
      invariant Lists(order', slots'.Keys)
    {
      var c := s.cands[j];
      CandAdded(p, s, slots, slots', s.cands[..j], c);
      assert s.cands[..j + 1] == s.cands[..j] + [c];
      if c.tok !in slots' {
        order' := order' + [c.tok];
      }
      slots' := slots'[c.tok := Join(GetSlot(slots', c.tok), CandSlot(p, s, c))];
    }
    assert s.cands[..|s.cands|] == s.cands;
  }

  lemma NothingAdded(p: BackoffParams, s: Source, slots: map<int, Slot>)
    requires p.Sane() && ValidSource(s)
    ensures Toks([]) == {}
    ensures forall t :: t in slots ==> slots[t] == Join(GetSlot(slots, t), CandSlots(p, s, [], t))
  {
    forall t | t in slots ensures slots[t] == Join(GetSlot(slots, t), CandSlots(p, s, [], t)) {
      JoinLaws(slots[t], slots[t], slots[t]);
    }
  }

  lemma CandAdded(p: BackoffParams, s: Source, slots: map<int, Slot>, mid: map<int, Slot>, cands: seq<Cand>, c: Cand)
    requires p.Sane() && ValidSource(s)
    requires mid.Keys == slots.Keys + Toks(cands)
    requires forall t :: t in mid ==> mid[t] == Join(GetSlot(slots, t), CandSlots(p, s, cands, t))
    ensures Toks(cands + [c]) == Toks(cands) + {c.tok}
    ensures forall t :: t in mid && t != c.tok ==> mid[t] == Join(GetSlot(slots, t), CandSlots(p, s, cands + [c], t))
    ensures Join(GetSlot(mid, c.tok), CandSlot(p, s, c)) ==
            Join(GetSlot(slots, c.tok), CandSlots(p, s, cands + [c], c.tok))
  {
    hide CandSlot, ValidSource, Join;
    ToksAppend(cands, c);
    forall t ensures CandSlots(p, s, cands + [c], t) ==
                     if c.tok == t then Join(CandSlots(p, s, cands, t), CandSlot(p, s, c))
                     else CandSlots(p, s, cands, t)
    {
      CandSlotsAppend(p, s, cands, c, t);
    }
    var x := CandSlot(p, s, c);
    JoinLaws(GetSlot(slots, c.tok), CandSlots(p, s, cands, c.tok), x);
    if c.tok !in mid {
      NoSlotYet(p, s, cands, c.tok);
      JoinLaws(EMPTY_SLOT, x, x);
      JoinLaws(x, x, x);
    }
  }

  lemma {:induction false} NoSlotYet(p: BackoffParams, s: Source, cands: seq<Cand>, tok: int)
    requires p.Sane() && ValidSource(s) && tok !in Toks(cands)
    ensures CandSlots(p, s, cands, tok) == EMPTY_SLOT
  {
    if cands != [] {
      assert cands[0].tok in Toks(cands);
      forall t | t in Toks(cands[1..]) ensures t in Toks(cands) {
        var i :| 0 <= i < |cands[1..]| && cands[1..][i].tok == t;
        assert cands[i + 1].tok == t;
      }
      NoSlotYet(p, s, cands[1..], tok);
    }
  }

  lemma ToksAppend(cands: seq<Cand>, c: Cand)
    ensures Toks(cands + [c]) == Toks(cands) + {c.tok}
  {
    var all := cands + [c];
    forall t | t in Toks(cands) ensures t in Toks(all) {
      var i :| 0 <= i < |cands| && cands[i].tok == t;
      assert all[i].tok == t;
    }
    assert all[|cands|].tok == c.tok;
  }

  function InsertRanked(b: Board, sMax: real, ranked: seq<int>, t: int): seq<int>
    requires b.Sane() && sMax != 0.0 && t in b.slots && forall u :: u in ranked ==> u in b.slots
  {
    if ranked == [] || b.Before(sMax, t, ranked[0]) then [t] + ranked
    else [ranked[0]] + InsertRanked(b, sMax, ranked[1..], t)
  }

  ghost predicate Ranked(b: Board, sMax: real, ranked: seq<int>)
    requires b.Sane() && sMax != 0.0
  {
    && (forall u :: u in ranked ==> u in b.slots)
    && forall i, j :: 0 <= i < j < |ranked| ==> b.Before(sMax, ranked[i], ranked[j])
  }

  lemma {:induction false} InsertRankedIsRight(b: Board, sMax: real, ranked: seq<int>, t: int)
    requires b.Sane() && sMax != 0.0 && t in b.slots && Ranked(b, sMax, ranked) && t !in ranked
    ensures forall u :: u in InsertRanked(b, sMax, ranked, t) <==> u in ranked || u == t
    ensures Ranked(b, sMax, InsertRanked(b, sMax, ranked, t))
  {
    if ranked == [] || b.Before(sMax, t, ranked[0]) {
      forall j | 0 <= j < |ranked| ensures b.Before(sMax, t, ranked[j]) {
        assert ranked[0] in ranked && ranked[j] in ranked;
        if j > 0 { assert b.Before(sMax, ranked[0], ranked[j]); }
      }
      assert forall u :: u in [t] + ranked <==> u == t || u in ranked;
    } else {
      var rest := ranked[1..];
      assert ranked == [ranked[0]] + rest;
      assert forall u :: u in rest ==> u in ranked;
      assert ranked[0] in ranked && b.Before(sMax, ranked[0], t);
      InsertRankedIsRight(b, sMax, rest, t);
      var o := InsertRanked(b, sMax, rest, t);
      forall j | 0 <= j < |o| ensures b.Before(sMax, ranked[0], o[j]) {
        assert o[j] in o;
        if o[j] != t {
          var i :| 0 <= i < |rest| && rest[i] == o[j];
          assert b.Before(sMax, ranked[0], ranked[i + 1]);
        }
      }
      forall u ensures u in [ranked[0]] + o <==> u in ranked || u == t {
        assert u in [ranked[0]] + o <==> u == ranked[0] || u in o;
      }
    }
  }

  method Rank(b: Board, sMax: real, order: seq<int>) returns (ranked: seq<int>)
    requires b.Sane() && sMax != 0.0 && Lists(order, b.slots.Keys)
    ensures IsRanking(b, sMax, ranked)
  {
    hide InsertRanked;
    ranked := [];
    for i := 0 to |order|
      invariant Ranked(b, sMax, ranked)
      invariant forall u :: u in ranked <==> u in order[..i]
    {
      InsertRankedIsRight(b, sMax, ranked, order[i]);
      ranked := InsertRanked(b, sMax, ranked, order[i]);
      assert order[..i + 1] == order[..i] + [order[i]];
    }
    assert order[..|order|] == order;
    forall i, j | 0 <= i < j < |ranked| ensures ranked[i] != ranked[j] {
      assert b.Before(sMax, ranked[i], ranked[j]);
    }
    forall t | t in b.slots ensures t in ranked { assert t in order; }
    forall i | 0 <= i < |ranked| ensures ranked[i] in b.slots { assert ranked[i] in ranked; }
  }

  method TopScore(b: Board, order: seq<int>) returns (sMax: real)
    requires b.Sane() && Lists(order, b.slots.Keys)
    ensures sMax != 0.0 && IsTopScore(b, sMax)
  {
    SomeListed(order, b.slots.Keys);
    ghost var best := order[0];
    sMax := b.Score(order[0]);
    for i := 1 to |order|
      invariant best in b.slots && sMax == b.Score(best)
      invariant forall j :: 0 <= j < i ==> b.Score(order[j]) <= sMax
    {
      if b.Score(order[i]) > sMax {
        best := order[i];
        sMax := b.Score(order[i]);
      }
    }
    forall u | u in b.slots ensures b.Score(u) <= b.Score(best) {
      assert u in order;
    }
    if sMax == 0.0 { sMax := 1.0; }
  }

  lemma SomeListed(order: seq<int>, all: set<int>)
    requires Lists(order, all) && all != {}
    ensures order != []
  {
    ListLength(order, all);
  }

  /** Accumulates all sources into one board, skipping those of no weight. */
  method Accumulate(p: BackoffParams, sources: seq<Source>, wSum: real) returns (b: Board, order: seq<int>)
    requires p.Sane() && ValidSources(sources) && wSum == WeightSum(p, sources)
    ensures b == BoardOf(p, sources) && Lists(order, b.slots.Keys)
  {
    hide CandSlots, Weight, HiWeight, Toks, Join;
    var slots: map<int, Slot> := map[];
    order := [];
    var wHi := 0.0;
    for i := 0 to |sources|
      invariant ValidSources(sources[..i])
      invariant slots == SlotMap(p, sources[..i]) && Lists(order, slots.Keys)
      invariant wHi == HiWeightSum(p, sources[..i])
    {
      var s := sources[i];
      assert ValidSource(s);
      assert sources[..i + 1] == sources[..i] + [s];
      SumsAppend(p, sources[..i], s);
      WeightNonNegative(p, s);
      wHi := wHi + HiWeight(p, s);
      if Weight(p, s) > 0.0 {
        ghost var before := slots;
        slots, order := AddSource(p, s, slots, order);
        SlotsAppend(p, sources[..i], s, before, slots);
      } else {
        SlotsSkip(p, sources[..i], s);
      }
    }
    assert sources[..|sources|] == sources;
    b := Board(slots, wSum, wHi, p.annoPrior, p.round1);
  }

  lemma {:induction false} NoSlotOf(p: BackoffParams, ss: seq<Source>, tok: int)
    requires p.Sane() && ValidSources(ss) && tok !in TokSet(p, ss)
    ensures SlotOf(p, ss, tok) == EMPTY_SLOT
  {
    hide CandSlots, Weight, Toks;
    if ss != [] {
      NoSlotOf(p, ss[1..], tok);
      if Weight(p, ss[0]) > 0.0 { NoSlotYet(p, ss[0], ss[0].cands, tok); }
    }
  }

  lemma SlotsAppend(p: BackoffParams, ss: seq<Source>, s: Source, slots: map<int, Slot>, slots': map<int, Slot>)
    requires p.Sane() && ValidSources(ss) && ValidSource(s) && Weight(p, s) > 0.0
    requires slots == SlotMap(p, ss)
    requires slots'.Keys == slots.Keys + Toks(s.cands)
    requires forall t :: t in slots' ==> slots'[t] == Join(GetSlot(slots, t), CandSlots(p, s, s.cands, t))
    ensures ValidSources(ss + [s])
    ensures slots' == SlotMap(p, ss + [s])
  {
    hide CandSlots, Weight, Toks, Join, SlotOf, TokSet;
    SumsAppend(p, ss, s);
    forall t | t in slots' ensures slots'[t] == SlotOf(p, ss + [s], t) {
      SlotOfAppend(p, ss, s, t);
      if t !in slots { NoSlotOf(p, ss, t); }
    }
  }

  lemma SlotsSkip(p: BackoffParams, ss: seq<Source>, s: Source)
    requires p.Sane() && ValidSources(ss) && ValidSource(s) && Weight(p, s) <= 0.0
    ensures ValidSources(ss + [s])
    ensures SlotMap(p, ss) == SlotMap(p, ss + [s])
  {
    hide CandSlots, Weight, Toks, Join, SlotOf, TokSet;
    SumsAppend(p, ss, s);
    forall t | t in TokSet(p, ss) ensures SlotOf(p, ss + [s], t) == SlotOf(p, ss, t) {
      SlotOfAppend(p, ss, s, t);
      JoinLaws(SlotOf(p, ss, t), EMPTY_SLOT, EMPTY_SLOT);
    }
  }

  method Truncate(b: Board, ranked: seq<int>, maxCands: nat) returns (cands: seq<PosteriorCand>)
    requires b.Sane() && forall t :: t in ranked ==> t in b.slots
    ensures |cands| == if |ranked| < maxCands then |ranked| else maxCands
    ensures var z := PHatSum(b, ranked[..|cands|]);
            forall i :: 0 <= i < |cands| ==>
              cands[i] ==
              PosteriorCand(ranked[i], b.PAcc(ranked[i]), b.PHat(ranked[i]) / (if z > 1.0 then z else 1.0),
                            b.slots[ranked[i]].sup)
  {
    var k := if |ranked| < maxCands then |ranked| else maxCands;
    var z := 0.0;
    var i := k;
    assert ranked[k..k] == [];
    while i > 0
      invariant 0 <= i <= k
      invariant z == PHatSum(b, ranked[i..k])
    {
      i := i - 1;
      assert ranked[i..k] == [ranked[i]] + ranked[i + 1..k];
      z := b.PHat(ranked[i]) + z;
    }
    assert ranked[0..k] == ranked[..k];
    var scale := if z > 1.0 then z else 1.0;
    cands := [];
    for j := 0 to k
      invariant |cands| == j
      invariant forall i :: 0 <= i < j ==>
                  cands[i] ==
                  PosteriorCand(ranked[i], b.PAcc(ranked[i]), b.PHat(ranked[i]) / scale, b.slots[ranked[i]].sup)
    {
      var t := ranked[j];
      cands := cands + [PosteriorCand(t, b.PAcc(t), b.PHat(t) / scale, b.slots[t].sup)];
    }
  }

  method Blend(p: BackoffParams, sources: seq<Source>) returns (r: Option<Posterior>)
    requires p.Sane() && ValidSources(sources)
    ensures IsBlend(p, sources, r)
  {
    hide SlotMap, HiWeightSum, Weight, IsTopScore, TokSet;
    if sources == [] { return None; }
    var wSum := 0.0;
    var bestOrder := sources[0].matchLen;
    for i := 0 to |sources|
      invariant ValidSources(sources[..i])
      invariant wSum == WeightSum(p, sources[..i])
      invariant i > 0 ==> bestOrder == BestOrder(sources[..i])
      invariant i == 0 ==> bestOrder == sources[0].matchLen
    {
      assert sources[..i + 1] == sources[..i] + [sources[i]];
      assert ValidSource(sources[i]);
      SumsAppend(p, sources[..i], sources[i]);
      BestOrderAppend(sources[..i], sources[i]);
      wSum := wSum + Weight(p, sources[i]);
      if sources[i].matchLen > bestOrder { bestOrder := sources[i].matchLen; }
    }
    assert sources[..|sources|] == sources;
    SumsSound(p, sources);
    if wSum <= 0.0 { return None; }
    var b, order := Accumulate(p, sources, wSum);
    if b.slots == map[] { return None; }
    var sMax := TopScore(b, order);
    var ranked := Rank(b, sMax, order);
    var cands := Truncate(b, ranked, p.maxCands);
    r := Some(Posterior(cands, wSum, bestOrder));
    assert IsPosterior(p, sources, sMax, ranked, r.value);
  }

  lemma {:induction false} BestOrderAppend(ss: seq<Source>, s: Source)
    ensures ss == [] ==> BestOrder(ss + [s]) == s.matchLen
    ensures ss != [] ==> BestOrder(ss + [s]) == if s.matchLen > BestOrder(ss) then s.matchLen else BestOrder(ss)
  {
    if |ss| >= 1 {
      assert (ss + [s])[1..] == ss[1..] + [s];
      BestOrderAppend(ss[1..], s);
    }
  }
}
