/** What a posterior says about a token, in the counts of the sources that hold it.

    The acceptance estimate is followed through one more observation of a token: it changes the token's rate, the weight
    of its source, the average over all sources and the gate. The source's pull on the token (`Lean`) gains at least
    half of the added weight exactly when the observation fits the source (`LeanGain`), and a pull that gains that much
    moves the estimate the right way next to any other sources (`MovesUp`). Where it gains less, enough copies of a
    one-sided source outweigh it (`Outweigh`). The remaining laws compare the estimate with one half and with the rates
    of the sources, and derive support, probabilities and ranking from the counts. */
module BlendLaws {
  import opened Backoff

  // ---------------------------------------------------------------- what one source says about one token

  /** Candidate `j` of the source is this token. */
  predicate Holds(s: Source, j: nat, t: int) {
    j < |s.cands| && s.cands[j].tok == t
  }

  /** Whether a source has evidence, and whether it is trusted to tell accepted from rejected. */
  predicate Counting(s: Source) {
    TotalCount(s) > 0
  }

  predicate Annotates(p: BackoffParams, s: Source) {
    Counting(s) && s.matchLen >= p.pHatMinOrder
  }

  /** The smoothed number of observations, and of acceptances beyond rejections. */
  function Observed(p: BackoffParams, c: Cand): real {
    c.acc as real + c.rej as real + p.betaA + p.betaB
  }

  function Margin(p: BackoffParams, c: Cand): real {
    (c.acc as real + p.betaA) - (c.rej as real + p.betaB)
  }

  lemma HeldSlot(p: BackoffParams, s: Source, j: nat, t: int)
    requires p.Sane() && ValidSource(s) && Holds(s, j, t)
    ensures SourceSlot(p, s, t) == if Counting(s) then CandSlot(p, s, s.cands[j]) else EMPTY_SLOT
    ensures t in Toks(s.cands)
  {
    hide CandSlot, Weight;
    var rest := s.cands[..j] + s.cands[j + 1..];
    PullOutCand(p, s, s.cands, j, t);
    forall i | 0 <= i < |rest| ensures rest[i].tok != t {
      assert rest[i] == if i < j then s.cands[i] else s.cands[i + 1];
    }
    NoSlotYet(p, s, rest, t);
    JoinLaws(CandSlot(p, s, s.cands[j]), EMPTY_SLOT, EMPTY_SLOT);
    WeightSign(p, s);
  }

  lemma UnheldSlot(p: BackoffParams, s: Source, t: int)
    requires p.Sane() && ValidSource(s) && forall j :: !Holds(s, j, t)
    ensures SourceSlot(p, s, t) == EMPTY_SLOT && t !in Toks(s.cands)
  {
    hide Weight;
    forall i | 0 <= i < |s.cands| ensures s.cands[i].tok != t { assert !Holds(s, i, t); }
    NoSlotYet(p, s, s.cands, t);
  }

  lemma NoWeight(p: BackoffParams, s: Source)
    requires p.Sane() && ValidSource(s)
    ensures HiWeight(p, s) >= 0.0 && (HiWeight(p, s) > 0.0 <==> Annotates(p, s))
    ensures Weight(p, s) >= 0.0 && (Weight(p, s) > 0.0 <==> Counting(s))
  {
    hide Lam;
    WeightSign(p, s);
  }

  /** How far the source pulls the token's acceptance away from one half. */
  function Lean(p: BackoffParams, s: Source, c: Cand): real
    requires p.Sane() && ValidSource(s)
  {
    Share(HiWeight(p, s), c.acc as real + p.betaA, Observed(p, c)) - HiWeight(p, s) / 2.0
  }

  lemma HeldLean(p: BackoffParams, s: Source, j: nat, t: int)
    requires p.Sane() && ValidSource(s) && Holds(s, j, t)
    ensures var x := SourceSlot(p, s, t);
            x.wt == HiWeight(p, s) && x.wa - x.wt / 2.0 == Lean(p, s, s.cands[j])
  {
    hide Weight, Share, FreqDen, ProbDen;
    HeldSlot(p, s, j, t);
    NoWeight(p, s);
    if !Counting(s) { NoShareOfNothing(s.cands[j].acc as real + p.betaA, Observed(p, s.cands[j])); }
  }

  lemma NoShareOfNothing(a: real, d: real)
    requires d > 0.0
    ensures Share(0.0, a, d) == 0.0
  {
  }

  // ---------------------------------------------------------------- a posterior reads the board

  /** The token's accumulators decide its estimates; nothing is lost when the probabilities are normalized again. */
  lemma PosteriorIs(p: BackoffParams, ss: seq<Source>, r: Option<Posterior>, i: nat)
    requires p.Sane() && ValidSources(ss) && IsBlend(p, ss, r) && r.Some? && i < |r.value.cands|
    ensures BoardOf(p, ss).Sane() && r.value.cands[i].tok in BoardOf(p, ss).slots
    ensures var c, b := r.value.cands[i], BoardOf(p, ss);
            c.pAcc == b.PAcc(c.tok) && c.pHat == b.PHat(c.tok) && c.support == SlotOf(p, ss, c.tok).sup
  {
    hide IsTopScore, TokSet, ValidSources, BestOrder, PHatSum, WeightSum, HiWeightSum, SlotOf;
    var b := BoardOf(p, ss);
    var sMax, toks :| sMax != 0.0 && IsTopScore(b, sMax) && IsRanking(b, sMax, toks)
      && IsPosterior(p, ss, sMax, toks, r.value);
    TruncationIsSound(p, ss, toks, |r.value.cands|);
    assert toks[i] in toks;
    assert b.PHat(toks[i]) / 1.0 == b.PHat(toks[i]);
  }

  // ---------------------------------------------------------------- one more observation of a token

  /** The source after one more acceptance, or one more rejection, of its candidate `j`. */
  function Raised(s: Source, j: nat, refused: bool): Source
    requires j < |s.cands|
  {
    var c := s.cands[j];
    var d := if refused then c.(rej := c.rej + 1) else c.(acc := c.acc + 1);
    s.(cands := s.cands[j := d],
       total := if s.total >= 0 then s.total + 1 else s.total,
       totalAcc := if s.totalAcc >= 0 && !refused then s.totalAcc + 1 else s.totalAcc)
  }

  lemma RaisedValid(p: BackoffParams, s: Source, j: nat, refused: bool)
    requires p.Sane() && ValidSource(s) && j < |s.cands|
    ensures ValidSource(Raised(s, j, refused))
    ensures TotalCount(Raised(s, j, refused)) == TotalCount(s) + 1
  {
    var r := Raised(s, j, refused);
    assert r.cands[..j] == s.cands[..j] && r.cands[j + 1..] == s.cands[j + 1..];
    RaisedSums(p, s, s.cands, j);
    RaisedSums(p, s, r.cands, j);
  }

  lemma RaisedSums(p: BackoffParams, s: Source, cands: seq<Cand>, j: nat)
    requires p.Sane() && ValidSource(s) && j < |cands|
    ensures CountSum(cands) == cands[j].acc + cands[j].rej + CountSum(cands[..j] + cands[j + 1..])
    ensures AccSum(cands) == cands[j].acc + AccSum(cands[..j] + cands[j + 1..])
  {
    PullOutCand(p, s, cands, j, 0);
  }

  /** The observation is worth more than the weight that comes with it: a condition on the source's counts alone. */
  ghost predicate Fits(p: BackoffParams, s: Source, c: Cand) {
    var n := TotalCount(s) as real;
    p.countPrior * Observed(p, c) <= n * (n + 1.0 + p.countPrior)
  }

  /** Where priors are small, as the default ones are, it holds in every source that has evidence at all. */
  lemma SmallPriorsFit(p: BackoffParams, s: Source, j: nat)
    requires p.Sane() && ValidSource(s) && j < |s.cands| && Counting(s)
    requires p.countPrior * (p.betaA + p.betaB) <= 2.0
    ensures Fits(p, s, s.cands[j])
  {
    hide ValidSource, TotalCount;
    var c := s.cands[j];
    HeldWithin(p, s, j);
    SmallEnough(TotalCount(s) as real, (c.acc + c.rej) as real, p.betaA + p.betaB, p.countPrior);
    assert Observed(p, c) == (c.acc + c.rej) as real + (p.betaA + p.betaB);
  }

  lemma HeldWithin(p: BackoffParams, s: Source, j: nat)
    requires p.Sane() && ValidSource(s) && j < |s.cands|
    ensures s.cands[j].acc + s.cands[j].rej <= TotalCount(s)
  {
    RaisedSums(p, s, s.cands, j);
  }

  lemma SmallEnough(n: real, m: real, b: real, k: real)
    requires 0.0 <= m <= n && n >= 1.0 && k > 0.0 && k * b <= 2.0
    ensures k * (m + b) <= n * (n + 1.0 + k)
  {
    NonNegative(n - m, k);
    NonNegative(n - 1.0, n + 2.0);
    calc {
      k * (m + b);
      k * m + k * b;
    <=
      k * m + 2.0;
    <= { assert (n - m) * k == k * n - k * m; }
      k * n + 2.0;
    <= { assert (n - 1.0) * (n + 2.0) == n * (n + 1.0) - 2.0; }
      k * n + n * (n + 1.0);
      n * (n + 1.0 + k);
    }
  }

  lemma QuotientGap(n: real, k: real)
    requires n >= 0.0 && k > 0.0
    ensures var x, y := n + k, n + 1.0 + k;
            x * y > 0.0 && (n / x) * (x * y) == n * y && ((n + 1.0) / y - n / x) * (x * y) == k
  {
    var x, y := n + k, n + 1.0 + k;
    var u, v := n / x, (n + 1.0) / y;
    SignOfProduct(x, y);
    Quotient(n, x);
    Quotient(n + 1.0, y);
    Regroup3(u, x, y);
    Regroup3(v, y, x);
    Spread(v, u, x * y);
    GainOver(n, k);
  }

  lemma GainOver(n: real, k: real)
    ensures (n + 1.0) * (n + k) - n * (n + 1.0 + k) == k
  {
  }

  /** The weight grows by at most the `obs`-th part of itself exactly when the observation fits. */
  lemma WeightGain(n: real, k: real, obs: real, c: real)
    requires n >= 0.0 && k > 0.0 && c > 0.0 && obs > 0.0
    ensures var w, w' := c * (n / (n + k)), c * ((n + 1.0) / (n + 1.0 + k));
            w < w' && (obs * (w' - w) <= w <==> k * obs <= n * (n + 1.0 + k))
  {
    QuotientGap(n, k);
    GainAgainst(n / (n + k), (n + 1.0) / (n + 1.0 + k), (n + k) * (n + 1.0 + k), n * (n + 1.0 + k), k, obs, c);
  }

  lemma GainAgainst(u: real, v: real, q: real, m: real, k: real, obs: real, c: real)
    requires q > 0.0 && c > 0.0 && k > 0.0 && u * q == m && (v - u) * q == k
    ensures c * u < c * v && (obs * (c * v - c * u) <= c * u <==> k * obs <= m)
  {
    SignOfProduct(v - u, q);
    SignOfProduct(v - u, c);
    Spread(v, u, c);
    var g := c * v - c * u;
    Regroup3(c, u, q);
    Regroup3(c, v - u, q);
    assert (c * u) * q == m * c && g * q == k * c;
    Regroup3(obs, g, q);
    Cancel(obs * g, c * u, q);
    Regroup3(obs, k, c);
    Cancel(k * obs, m, c);
  }

  lemma WeightIs(p: BackoffParams, s: Source)
    requires p.Sane() && ValidSource(s)
    ensures var x, n := Power(p.orderDecay, Signatures.MAX_ORDER - s.matchLen) * Power(p.scopeDecay, s.scopeDepth),
                        TotalCount(s) as real;
            x > 0.0 && Weight(p, s) == x * (n / (n + p.countPrior))
  {
    hide Power;
    PowerPositive(p.orderDecay, Signatures.MAX_ORDER - s.matchLen);
    PowerPositive(p.scopeDecay, s.scopeDepth);
    SignOfProduct(Power(p.orderDecay, Signatures.MAX_ORDER - s.matchLen), Power(p.scopeDecay, s.scopeDepth));
  }

  lemma FitsIs(p: BackoffParams, s: Source, c: Cand)
    ensures var n := TotalCount(s) as real;
            Fits(p, s, c) <==> p.countPrior * Observed(p, c) <= n * (n + 1.0 + p.countPrior)
  {
  }

  lemma ObservedPositive(p: BackoffParams, c: Cand)
    requires p.Sane()
    ensures Observed(p, c) > 0.0
  {
  }

  lemma WeightRises(p: BackoffParams, s: Source, r: Source, c: Cand)
    requires p.Sane() && ValidSource(s) && ValidSource(r) && s.matchLen == r.matchLen && s.scopeDepth == r.scopeDepth
    requires TotalCount(r) == TotalCount(s) + 1
    ensures var w, w' := Weight(p, s), Weight(p, r);
            0.0 <= w < w' && (Observed(p, c) * (w' - w) <= w <==> Fits(p, s, c))
  {
    hide Power, Weight, CountSum, AccSum, DistinctToks, Observed, Fits;
    FitsIs(p, s, c);
    ObservedPositive(p, c);
    WeightIs(p, s);
    WeightIs(p, r);
    var x := Power(p.orderDecay, Signatures.MAX_ORDER - s.matchLen) * Power(p.scopeDecay, s.scopeDepth);
    WeightGain(TotalCount(s) as real, p.countPrior, Observed(p, c), x);
    NoWeight(p, s);
  }

  /** How one more observation, worth `d` against one half before and `e` after, moves a pull of weight `w`. */
  lemma PullGain(w: real, v: real, obs: real, d: real, e: real)
    requires 0.0 <= w < v && obs > 0.0
    requires obs * (e - d) == 0.5 - e && -0.5 < d < e < 0.5
    ensures v * e - w * d >= (v - w) / 2.0 <==> obs * (v - w) <= w
  {
    var g := v - w;
    Spread(w, g, e);
    Spread(e, d, w);
    assert v * e - w * d == g * e + w * (e - d);
    Regroup3(g, obs, e - d);
    assert (obs * g) * (e - d) == g * (0.5 - e);
    Spread(0.5, e, g);
    Cancel(obs * g, w, e - d);
  }

  lemma RateGain(a: real, b: real, obs: real, refused: bool)
    requires a > 0.0 && b > 0.0 && obs == a + b
    ensures var d, e := a / obs - 0.5, (if refused then a else a + 1.0) / (obs + 1.0) - 0.5;
            && -0.5 < d < 0.5 && -0.5 < e < 0.5
            && (!refused ==> d < e && obs * (e - d) == 0.5 - e)
            && (refused ==> e < d && obs * (d - e) == e + 0.5)
  {
    var x, y := a / obs, (if refused then a else a + 1.0) / (obs + 1.0);
    Quotient(a, obs);
    Quotient(if refused then a else a + 1.0, obs + 1.0);
    Spread(obs, 1.0, y);
    Spread(y, x, obs);
    assert obs * (y - x) == if refused then -y else 1.0 - y;
    SignOfProduct(y - x, obs);
  }

  /** What the observation changes in the source's pull on its token, against the weight it adds. */
  lemma LeanGain(p: BackoffParams, s: Source, j: nat, refused: bool)
    requires p.Sane() && ValidSource(s) && j < |s.cands| && s.matchLen >= p.pHatMinOrder
    requires ValidSource(Raised(s, j, refused)) && TotalCount(Raised(s, j, refused)) == TotalCount(s) + 1
    ensures var r := Raised(s, j, refused);
            var c, d, gain := s.cands[j], r.cands[j], HiWeight(p, r) - HiWeight(p, s);
            && gain > 0.0
            && (!refused ==> (Lean(p, r, d) - Lean(p, s, c) >= gain / 2.0 <==> Fits(p, s, c)))
            && (refused ==> (Lean(p, r, d) - Lean(p, s, c) <= -(gain / 2.0) <==> Fits(p, s, c)))
  {
    hide Weight, Fits, DistinctToks, TotalCount, CountSum, AccSum, Share;
    var r := Raised(s, j, refused);
    var c, d := s.cands[j], r.cands[j];
    WeightRises(p, s, r, c);
    AnnotatingWeight(p, s);
    AnnotatingWeight(p, r);
    PullsGain(Weight(p, s), Weight(p, r), c.acc as real + p.betaA, c.rej as real + p.betaB, Observed(p, c),
              d.acc as real + p.betaA, Observed(p, d), refused);
  }

  lemma AnnotatingWeight(p: BackoffParams, s: Source)
    requires p.Sane() && ValidSource(s) && s.matchLen >= p.pHatMinOrder
    ensures HiWeight(p, s) == Weight(p, s)
  {
    hide Weight;
    NoWeight(p, s);
  }

  lemma PullsGain(w: real, v: real, a: real, b: real, obs: real, a': real, obs': real, refused: bool)
    requires 0.0 <= w < v && a > 0.0 && b > 0.0 && obs == a + b && obs' == obs + 1.0
    requires a' == if refused then a else a + 1.0
    ensures var x, y := Share(w, a, obs) - w / 2.0, Share(v, a', obs') - v / 2.0;
            && (!refused ==> (y - x >= (v - w) / 2.0 <==> obs * (v - w) <= w))
            && (refused ==> (y - x <= -((v - w) / 2.0) <==> obs * (v - w) <= w))
  {
    hide Share;
    RateGain(a, b, obs, refused);
    LeanIs(w, a, obs);
    LeanIs(v, a', obs');
    var x, y := a / obs - 0.5, a' / obs' - 0.5;
    if refused {
      PullGain(w, v, obs, -x, -y);
      assert v * -y == -(v * y) && w * -x == -(w * x);
    } else {
      PullGain(w, v, obs, x, y);
    }
  }

  lemma LeanIs(w: real, a: real, obs: real)
    requires obs > 0.0
    ensures Share(w, a, obs) - w / 2.0 == w * (a / obs - 0.5)
  {
    Spread(a / obs, 0.5, w);
  }

  // ---------------------------------------------------------------- how the whole blend moves

  /** The pull on a token, of all its sources together. */
  function Pull(p: BackoffParams, ss: seq<Source>, t: int): real
    requires p.Sane() && ValidSources(ss)
  {
    SlotOf(p, ss, t).wa - SlotOf(p, ss, t).wt / 2.0
  }

  /** The acceptance estimate of a token on the board of these sources. */
  function Acceptance(p: BackoffParams, ss: seq<Source>, t: int): real
    requires p.Sane() && ValidSources(ss) && BoardOf(p, ss).Sane() && t in BoardOf(p, ss).slots
  {
    BoardOf(p, ss).PAcc(t)
  }

  function Gated(w: real, prior: real, pull: real, wt: real): real
    requires w >= 0.0 && prior > 0.0 && wt > 0.0
  {
    (w / (w + prior)) * (pull / wt)
  }

  lemma AcceptanceIs(p: BackoffParams, ss: seq<Source>, t: int)
    requires p.Sane() && ValidSources(ss) && BoardOf(p, ss).Sane() && t in BoardOf(p, ss).slots
    ensures var x, w := SlotOf(p, ss, t), HiWeightSum(p, ss);
            && w >= 0.0 && x.wt >= 0.0
            && (x.wt == 0.0 ==> Acceptance(p, ss, t) == 0.5 && Pull(p, ss, t) == 0.0)
            && (x.wt > 0.0 ==>
                  && -(x.wt / 2.0) < Pull(p, ss, t) < x.wt / 2.0
                  && Acceptance(p, ss, t) == 0.5 + Gated(w, p.annoPrior, Pull(p, ss, t), x.wt))
  {
    hide SlotOf, TokSet, WeightSum, HiWeightSum, ValidSources;
    SlotOfSound(p, ss, t);
    SumsSound(p, ss);
    var x := SlotOf(p, ss, t);
    assert BoardOf(p, ss).slots[t] == x;
    if x.wt > 0.0 {
      Quotient(x.wa, x.wt);
      Quotient(Pull(p, ss, t), x.wt);
      Spread(x.wa / x.wt, 0.5, x.wt);
      Cancel(x.wa / x.wt - 0.5, Pull(p, ss, t) / x.wt, x.wt);
    }
  }

  /** A token's annotated weight is part of all annotated weight. */
  lemma {:induction false} WeightWithin(p: BackoffParams, ss: seq<Source>, t: int)
    requires p.Sane() && ValidSources(ss)
    ensures 0.0 <= SlotOf(p, ss, t).wt <= HiWeightSum(p, ss)
  {
    hide HiWeight, SourceSlot, ValidSource;
    if ss != [] {
      WeightWithin(p, ss[1..], t);
      SourceWeightWithin(p, ss[0], t);
    }
  }

  lemma SourceWeightWithin(p: BackoffParams, s: Source, t: int)
    requires p.Sane() && ValidSource(s)
    ensures 0.0 <= SourceSlot(p, s, t).wt <= HiWeight(p, s)
  {
    hide HiWeight, SourceSlot, ValidSource;
    NoWeight(p, s);
    if j: nat :| Holds(s, j, t) { HeldLean(p, s, j, t); } else { UnheldSlot(p, s, t); }
  }

  lemma StrictCross(a: real, b: real, c: real, d: real)
    requires b > 0.0 && d > 0.0 && a * d < c * b
    ensures a / b < c / d
  {
    var x, y := a / b, c / d;
    Quotient(a, b);
    Quotient(c, d);
    Regroup3(x, b, d);
    Regroup3(y, d, b);
    Regroup3(y, b, d);
    SignOfProduct(b, d);
    Cancel(x, y, b * d);
    Cancel(y, x, b * d);
  }

  /** A fraction of a fraction, the other way round. */
  lemma SwapQuotients(w: real, x: real, a: real, y: real)
    requires x > 0.0 && y > 0.0
    ensures (w / x) * (a / y) == (w / y) * (a / x)
  {
    Quotient(w, x);
    Quotient(w, y);
    Quotient(a, x);
    Quotient(a, y);
    SignOfProduct(x, y);
    FractionProduct(w / x, x, a / y, y);
    FractionProduct(w / y, y, a / x, x);
    Cancel((w / x) * (a / y), (w / y) * (a / x), x * y);
  }

  lemma FractionProduct(q: real, x: real, r: real, y: real)
    ensures (q * r) * (x * y) == (q * x) * (r * y)
  {
  }

  /** More weight that pulls up by at least half of itself moves the estimate up. */
  lemma MovesUp(w: real, prior: real, pull: real, wt: real, gain: real, pull': real)
    requires 0.0 < wt <= w && prior > 0.0 && gain > 0.0
    requires -(wt / 2.0) < pull < wt / 2.0 && pull' >= pull + gain / 2.0
    ensures Gated(w, prior, pull, wt) < Gated(w + gain, prior, pull', wt + gain)
  {
    if pull >= 0.0 {
      PullsMore(w, prior, pull, wt, gain, pull');
    } else if pull' >= 0.0 {
      TurnsUp(w, prior, pull, wt, gain, pull');
    } else {
      PullsLess(w, prior, -pull, wt, gain, -pull');
      NegatedGate(w, prior, pull, wt);
      NegatedGate(w + gain, prior, pull', wt + gain);
    }
  }

  lemma PullsMore(w: real, prior: real, pull: real, wt: real, gain: real, pull': real)
    requires 0.0 < wt <= w && prior > 0.0 && gain > 0.0
    requires 0.0 <= pull < wt / 2.0 && pull' >= pull + gain / 2.0
    ensures Gated(w, prior, pull, wt) < Gated(w + gain, prior, pull', wt + gain)
  {
    Quotient(w, w + prior);
    Quotient(pull, wt);
    GateOpens(w, prior, gain);
    RatioRises(pull, wt, gain, pull');
    StrictProduct(w / (w + prior), (w + gain) / (w + gain + prior), pull / wt, pull' / (wt + gain));
  }

  lemma TurnsUp(w: real, prior: real, pull: real, wt: real, gain: real, pull': real)
    requires 0.0 < wt <= w && prior > 0.0 && gain > 0.0 && pull < 0.0 <= pull'
    ensures Gated(w, prior, pull, wt) < 0.0 <= Gated(w + gain, prior, pull', wt + gain)
  {
    Quotient(w, w + prior);
    Quotient(w + gain, w + gain + prior);
    Quotient(pull', wt + gain);
    NonNegative((w + gain) / (w + gain + prior), pull' / (wt + gain));
    NegativeProduct(w / (w + prior), pull, wt);
  }

  lemma GateOpens(w: real, prior: real, gain: real)
    requires w > 0.0 && prior > 0.0 && gain > 0.0
    ensures w / (w + prior) <= (w + gain) / (w + gain + prior)
  {
    SignOfProduct(gain, prior);
    assert (w + gain) * (w + prior) - w * (w + gain + prior) == gain * prior;
    CrossMultiply(w, w + prior, w + gain, w + gain + prior);
  }

  lemma RatioRises(pull: real, wt: real, gain: real, pull': real)
    requires wt > 0.0 && gain > 0.0 && pull < wt / 2.0 && pull' >= pull + gain / 2.0
    ensures pull / wt < pull' / (wt + gain)
  {
    NonNegative(pull' - (pull + gain / 2.0), wt);
    SignOfProduct(wt / 2.0 - pull, gain);
    assert pull' * wt - pull * (wt + gain) == (pull' - (pull + gain / 2.0)) * wt + (wt / 2.0 - pull) * gain;
    StrictCross(pull, wt, pull', wt + gain);
  }

  lemma StrictProduct(g: real, g': real, q: real, q': real)
    requires 0.0 < g <= g' && 0.0 <= q < q'
    ensures g * q < g' * q'
  {
    SignOfProduct(q' - q, g);
    Spread(q', q, g);
    NonNegative(g' - g, q');
    Spread(g', g, q');
  }

  lemma NegativeProduct(g: real, pull: real, wt: real)
    requires g > 0.0 && wt > 0.0 && pull < 0.0
    ensures g * (pull / wt) < 0.0
  {
    Quotient(-pull, wt);
    Quotient(pull, wt);
    SignOfProduct(pull / wt, wt);
    SignOfProduct(-(pull / wt), g);
  }

  lemma NegatedGate(w: real, prior: real, pull: real, wt: real)
    requires w >= 0.0 && prior > 0.0 && wt > 0.0
    ensures Gated(w, prior, -pull, wt) == -Gated(w, prior, pull, wt)
  {
    Quotient(pull, wt);
    Quotient(-pull, wt);
    Spread(pull / wt, (-pull) / wt, wt);
    SignOfProduct(pull / wt + (-pull) / wt, wt);
    var g, q := w / (w + prior), pull / wt;
    assert (-pull) / wt == -q;
    assert g * -q == -(g * q);
  }

  /** A smaller pull down on more weight weighs less. */
  lemma PullsLess(w: real, prior: real, pull: real, wt: real, gain: real, pull': real)
    requires 0.0 < wt <= w && prior > 0.0 && gain > 0.0 && 0.0 < pull' <= pull - gain / 2.0
    ensures Gated(w + gain, prior, pull', wt + gain) < Gated(w, prior, pull, wt)
  {
    SwapQuotients(w, w + prior, pull, wt);
    SwapQuotients(w + gain, w + gain + prior, pull', wt + gain);
    ShareFalls(w, wt, gain);
    PullFalls(pull, w + prior, gain, pull');
    assert w + gain + prior == w + prior + gain;
    StrictProduct((w + gain) / (wt + gain), w / wt, pull' / (w + gain + prior), pull / (w + prior));
  }

  lemma ShareFalls(w: real, wt: real, gain: real)
    requires 0.0 < wt <= w && gain > 0.0
    ensures 0.0 < (w + gain) / (wt + gain) <= w / wt
  {
    NonNegative(w - wt, gain);
    assert w * (wt + gain) - (w + gain) * wt == (w - wt) * gain;
    CrossMultiply(w + gain, wt + gain, w, wt);
    Quotient(w + gain, wt + gain);
  }

  lemma PullFalls(pull: real, all: real, gain: real, pull': real)
    requires 0.0 < pull' <= pull && all > 0.0 && gain > 0.0
    ensures 0.0 < pull' / (all + gain) < pull / all
  {
    NonNegative(pull - pull', all);
    SignOfProduct(pull, gain);
    assert pull * (all + gain) - pull' * all == (pull - pull') * all + pull * gain;
    StrictCross(pull', all + gain, pull, all);
    Quotient(pull', all + gain);
  }

  /** The sources after one more observation of candidate `j` of source `k`. */
  function RaisedIn(ss: seq<Source>, k: nat, j: nat, refused: bool): seq<Source>
    requires k < |ss| && j < |ss[k].cands|
  {
    ss[k := Raised(ss[k], j, refused)]
  }

  lemma RaisedSlots(p: BackoffParams, ss: seq<Source>, k: nat, j: nat, refused: bool)
    requires p.Sane() && ValidSources(ss) && k < |ss| && j < |ss[k].cands|
    ensures ValidSources(RaisedIn(ss, k, j, refused)) && ValidSource(Raised(ss[k], j, refused))
    ensures TotalCount(Raised(ss[k], j, refused)) == TotalCount(ss[k]) + 1
    ensures var t, s, r, all := ss[k].cands[j].tok, ss[k], Raised(ss[k], j, refused), RaisedIn(ss, k, j, refused);
            var gain := HiWeight(p, r) - HiWeight(p, s);
            && HiWeightSum(p, all) == HiWeightSum(p, ss) + gain
            && SlotOf(p, all, t).wt == SlotOf(p, ss, t).wt + gain
            && Pull(p, all, t) == Pull(p, ss, t) + (Lean(p, r, r.cands[j]) - Lean(p, s, s.cands[j]))
  {
    hide HiWeight, SourceSlot, Lean, DistinctToks, CountSum, AccSum, WeightSum, TokSet, BestOrder;
    var t, s, r, all := ss[k].cands[j].tok, ss[k], Raised(ss[k], j, refused), RaisedIn(ss, k, j, refused);
    RaisedValid(p, s, j, refused);
    assert all[..k] == ss[..k] && all[k + 1..] == ss[k + 1..];
    PullOutSource(p, ss, k, t);
    PullOutSource(p, all, k, t);
    HeldLean(p, s, j, t);
    HeldLean(p, r, j, t);
  }

  lemma OnBoard(p: BackoffParams, ss: seq<Source>, k: nat, j: nat)
    requires p.Sane() && ValidSources(ss) && k < |ss| && j < |ss[k].cands| && Counting(ss[k])
    ensures BoardOf(p, ss).Sane() && ss[k].cands[j].tok in BoardOf(p, ss).slots
  {
    hide Weight, HiWeight, SlotOf, WeightSum, HiWeightSum, TokSet, ValidSource, BestOrder;
    SumsSound(p, ss);
    PullOutSource(p, ss, k, 0);
    HeldSlot(p, ss[k], j, ss[k].cands[j].tok);
    NoWeight(p, ss[k]);
    assert SlotMap(p, ss).Keys == TokSet(p, ss);
  }

  lemma CountingFits(p: BackoffParams, s: Source, c: Cand)
    requires p.Sane() && Fits(p, s, c)
    ensures Counting(s)
  {
    if TotalCount(s) == 0 { SignOfProduct(Observed(p, c), p.countPrior); }
  }

  /** One more acceptance of a token, in a source that may annotate, raises its acceptance estimate, and one more
      rejection lowers it, if the observation fits the source. */
  lemma ObservationMoves(p: BackoffParams, ss: seq<Source>, k: nat, j: nat, refused: bool)
    requires p.Sane() && ValidSources(ss) && k < |ss| && j < |ss[k].cands|
    requires ss[k].matchLen >= p.pHatMinOrder && Fits(p, ss[k], ss[k].cands[j])
    ensures var t, all := ss[k].cands[j].tok, RaisedIn(ss, k, j, refused);
            && ValidSources(all) && BoardOf(p, ss).Sane() && BoardOf(p, all).Sane()
            && t in BoardOf(p, ss).slots && t in BoardOf(p, all).slots
            && if refused then Acceptance(p, all, t) < Acceptance(p, ss, t)
               else Acceptance(p, ss, t) < Acceptance(p, all, t)
  {
    hide HiWeight, SlotOf, Fits, Lean, Acceptance, BoardOf, HiWeightSum, Pull, TotalCount, DistinctToks, CountSum,
         AccSum, Gated;
    var t, s, r, all := ss[k].cands[j].tok, ss[k], Raised(ss[k], j, refused), RaisedIn(ss, k, j, refused);
    CountingFits(p, s, s.cands[j]);
    RaisedSlots(p, ss, k, j, refused);
    OnBoard(p, ss, k, j);
    OnBoard(p, all, k, j);
    LeanGain(p, s, j, refused);
    AcceptanceIs(p, ss, t);
    AcceptanceIs(p, all, t);
    WeightWithin(p, ss, t);
    PartOfSlot(p, ss, k, j);
    var x, w, gain := SlotOf(p, ss, t).wt, HiWeightSum(p, ss), HiWeight(p, r) - HiWeight(p, s);
    Moves(w, p.annoPrior, Pull(p, ss, t), x, gain, Pull(p, all, t), refused);
  }

  lemma Moves(w: real, prior: real, pull: real, wt: real, gain: real, pull': real, refused: bool)
    requires 0.0 < wt <= w && prior > 0.0 && gain > 0.0 && -(wt / 2.0) < pull < wt / 2.0
    requires if refused then pull' - pull <= -(gain / 2.0) else pull' - pull >= gain / 2.0
    ensures if refused then Gated(w + gain, prior, pull', wt + gain) < Gated(w, prior, pull, wt)
            else Gated(w, prior, pull, wt) < Gated(w + gain, prior, pull', wt + gain)
  {
    hide Gated;
    if refused {
      MovesUp(w, prior, -pull, wt, gain, -pull');
      NegatedGate(w, prior, pull, wt);
      NegatedGate(w + gain, prior, pull', wt + gain);
    } else {
      MovesUp(w, prior, pull, wt, gain, pull');
    }
  }

  /** A trusted source with evidence weighs on every token it holds. */
  lemma PartOfSlot(p: BackoffParams, ss: seq<Source>, k: nat, j: nat)
    requires p.Sane() && ValidSources(ss) && k < |ss| && j < |ss[k].cands| && Annotates(p, ss[k])
    ensures SlotOf(p, ss, ss[k].cands[j].tok).wt > 0.0
  {
    hide HiWeight, SourceSlot, ValidSource, SlotOf, TokSet, BestOrder, WeightSum, HiWeightSum;
    var t := ss[k].cands[j].tok;
    PullOutSource(p, ss, k, t);
    WeightWithin(p, ss[..k] + ss[k + 1..], t);
    HeldLean(p, ss[k], j, t);
    NoWeight(p, ss[k]);
  }

  /** A source that is not trusted to annotate leaves the estimate alone. */
  lemma UntrustedObservation(p: BackoffParams, ss: seq<Source>, k: nat, j: nat, refused: bool)
    requires p.Sane() && ValidSources(ss) && k < |ss| && j < |ss[k].cands|
    requires ss[k].matchLen < p.pHatMinOrder && BoardOf(p, ss).Sane() && ss[k].cands[j].tok in BoardOf(p, ss).slots
    ensures var t, all := ss[k].cands[j].tok, RaisedIn(ss, k, j, refused);
            && ValidSources(all) && BoardOf(p, all).Sane() && t in BoardOf(p, all).slots
            && Acceptance(p, all, t) == Acceptance(p, ss, t)
  {
    hide SlotOf, Acceptance, BoardOf, HiWeightSum, Pull, TotalCount, DistinctToks, CountSum, AccSum, Weight;
    var t, s, r, all := ss[k].cands[j].tok, ss[k], Raised(ss[k], j, refused), RaisedIn(ss, k, j, refused);
    RaisedSlots(p, ss, k, j, refused);
    OnBoard(p, all, k, j);
    AcceptanceIs(p, ss, t);
    AcceptanceIs(p, all, t);
    NoShareOfNothing(s.cands[j].acc as real + p.betaA, Observed(p, s.cands[j]));
    NoShareOfNothing(r.cands[j].acc as real + p.betaA, Observed(p, r.cands[j]));
  }

  // ---------------------------------------------------------------- and only if it fits

  function Above(x: real): (n: nat)
    ensures n >= 1 && n as real > x
  {
    if x < 1.0 then 1 + (if x < 0.0 then 0 else 1) else x.Floor + 1
  }

  /** The same source, `m` times over. */
  function Copies(o: Source, m: nat): seq<Source> {
    if m == 0 then [] else [o] + Copies(o, m - 1)
  }

  lemma {:induction false} CopiesSums(p: BackoffParams, o: Source, m: nat, t: int)
    requires p.Sane() && ValidSource(o) && Holds(o, 0, t)
    ensures ValidSources(Copies(o, m))
    ensures var ss, w := Copies(o, m), HiWeight(p, o);
            && HiWeightSum(p, ss) == m as real * w && SlotOf(p, ss, t).wt == m as real * w
            && Pull(p, ss, t) == m as real * Lean(p, o, o.cands[0])
  {
    hide HiWeight, SourceSlot, DistinctToks, CountSum, AccSum, Lean;
    if m > 0 {
      CopiesSums(p, o, m - 1, t);
      HeldLean(p, o, 0, t);
      assert Copies(o, m)[1..] == Copies(o, m - 1);
      Spread((m - 1) as real, 1.0, HiWeight(p, o));
      Spread((m - 1) as real, 1.0, Lean(p, o, o.cands[0]));
    }
  }

  /** A source of the highest order that only ever saw the token accepted, or only ever rejected. */
  function OneSided(t: int, n: nat, refused: bool): Source {
    Source(8, 0, [Cand(t, if refused then 0 else n, if refused then n else 0, 0)], -1, -1)
  }

  lemma OneSidedIs(p: BackoffParams, t: int, n: nat, refused: bool)
    requires p.Sane() && p.pHatMinOrder <= 8 && n >= 1
    ensures var o, v := OneSided(t, n, refused), n as real / (n as real + p.countPrior);
            var obs := n as real + p.betaA + p.betaB;
            && ValidSource(o) && Holds(o, 0, t) && v > 0.0 && HiWeight(p, o) == v
            && Lean(p, o, o.cands[0]) == if refused then -(v * (0.5 - p.betaA / obs)) else v * (0.5 - p.betaB / obs)
  {
    var o, v := OneSided(t, n, refused), n as real / (n as real + p.countPrior);
    var obs := n as real + p.betaA + p.betaB;
    assert CountSum(o.cands) == n by { assert o.cands[1..] == []; }
    assert Power(p.orderDecay, 0) == 1.0 && Power(p.scopeDecay, 0) == 1.0;
    Quotient(n as real, n as real + p.countPrior);
    assert Weight(p, o) == v;
    var a := o.cands[0].acc as real + p.betaA;
    LeanIs(v, a, obs);
    Quotient(a, obs);
    Quotient(p.betaA, obs);
    Quotient(p.betaB, obs);
    OppositeRates(a, obs, if refused then p.betaA else p.betaB, refused);
    if refused { assert v * (p.betaA / obs - 0.5) == -(v * (0.5 - p.betaA / obs)); }
  }

  lemma OppositeRates(a: real, obs: real, b: real, refused: bool)
    requires obs > 0.0 && (if refused then a == b else a + b == obs)
    ensures a / obs - 0.5 == if refused then b / obs - 0.5 else 0.5 - b / obs
  {
    if !refused {
      Quotient(a, obs);
      Quotient(b, obs);
      Spread(a / obs, b / obs, obs);
      Cancel(a / obs + b / obs, 1.0, obs);
    }
  }

  /** Enough of enough one-sided evidence outweighs any pull that gains less than half its weight. */
  lemma Outweigh(gain: real, more: real, w: real, pull: real, prior: real, b: real, obs: real, k: real)
    returns (n: nat, m: nat)
    requires gain > 0.0 && more < gain / 2.0 && b > 0.0 && obs > b && k > 0.0
    ensures n >= 1 && m >= 1
    ensures var v, e := n as real / (n as real + k), 0.5 - b / (n as real + obs);
            gain * (pull + m as real * (v * e)) > more * (w + m as real * v + prior)
  {
    n := EnoughEvidence(gain, more, b, obs, k);
    var v, e := n as real / (n as real + k), 0.5 - b / (n as real + obs);
    var surplus := gain * e - more;
    SignOfProduct(surplus, v);
    var need := more * (w + prior) - gain * pull;
    m := EnoughCopies(need, v * surplus);
    Gather(gain, more, w, pull, prior, v, e, m as real);
  }

  lemma EnoughEvidence(gain: real, more: real, b: real, obs: real, k: real) returns (n: nat)
    requires gain > 0.0 && more < gain / 2.0 && b > 0.0 && obs > b && k > 0.0
    ensures n >= 1 && n as real / (n as real + k) > 0.0
    ensures gain * (0.5 - b / (n as real + obs)) - more > 0.0
  {
    var slack := 0.5 - more / gain;
    SlackPositive(gain, more);
    n := Above(b / slack);
    FarEnough(b, slack, n as real, obs);
    Quotient(n as real, n as real + k);
    Quotient(more, gain);
    var e := 0.5 - b / (n as real + obs);
    SignOfProduct(e - more / gain, gain);
    Spread(e, more / gain, gain);
  }

  lemma EnoughCopies(need: real, step: real) returns (m: nat)
    requires step > 0.0
    ensures m >= 1 && m as real * step > need
  {
    m := Above(need / step);
    Quotient(need, step);
    SignOfProduct(m as real - need / step, step);
    Spread(m as real, need / step, step);
  }

  lemma SlackPositive(gain: real, more: real)
    requires gain > 0.0 && more < gain / 2.0
    ensures 0.5 - more / gain > 0.0
  {
    Quotient(more, gain);
    Spread(0.5, more / gain, gain);
    SignOfProduct(0.5 - more / gain, gain);
  }

  lemma FarEnough(b: real, slack: real, n: real, obs: real)
    requires b > 0.0 && slack > 0.0 && n > b / slack && obs > b
    ensures b / (n + obs) < slack
  {
    Quotient(b, slack);
    SignOfProduct(n - b / slack, slack);
    Spread(n, b / slack, slack);
    SignOfProduct(obs, slack);
    Spread(n, obs, slack);
    Quotient(b, n + obs);
    Cancel(slack, b / (n + obs), n + obs);
  }

  lemma Gather(gain: real, more: real, w: real, pull: real, prior: real, v: real, e: real, m: real)
    ensures gain * (pull + m * (v * e)) - more * (w + m * v + prior) ==
            m * (v * (gain * e - more)) - (more * (w + prior) - gain * pull)
  {
    var x, y := m * (v * e), m * v;
    assert gain * (pull + x) == gain * pull + gain * x;
    assert more * (w + y + prior) == more * (w + prior) + more * y;
    assert v * (gain * e - more) == gain * (v * e) - more * v by {
      assert v * (gain * e) == gain * (v * e);
    }
    assert m * (gain * (v * e) - more * v) == m * (gain * (v * e)) - m * (more * v);
    assert m * (gain * (v * e)) == gain * x && m * (more * v) == more * y;
  }

  /** Where all annotated weight is on the token, the gate and the average meet in one quotient. */
  lemma WholeGate(w: real, prior: real, pull: real)
    requires w > 0.0 && prior > 0.0
    ensures Gated(w, prior, pull, w) == pull / (w + prior)
  {
    SwapQuotients(w, w + prior, pull, w);
    Quotient(w, w);
  }

  lemma FallsBehind(w: real, prior: real, pull: real, gain: real, pull': real)
    requires w > 0.0 && prior > 0.0 && gain > 0.0 && gain * pull > (pull' - pull) * (w + prior)
    ensures Gated(w + gain, prior, pull', w + gain) < Gated(w, prior, pull, w)
  {
    WholeGate(w, prior, pull);
    WholeGate(w + gain, prior, pull');
    Spread(pull', pull, w + prior);
    assert pull' * (w + prior) < pull * (w + gain + prior);
    StrictCross(pull', w + gain + prior, pull, w + prior);
  }

  /** Where an observation does not fit its source, there are other sources, all on the same side, next to which one
      more acceptance lowers the estimate, and one more rejection raises it. */
  lemma ObservationMisleads(p: BackoffParams, s: Source, j: nat, refused: bool) returns (ss: seq<Source>)
    requires p.Sane() && ValidSource(s) && j < |s.cands|
    requires s.matchLen >= p.pHatMinOrder && !Fits(p, s, s.cands[j])
    ensures ss != [] && ss[0] == s && ValidSources(ss)
    ensures var t, all := s.cands[j].tok, RaisedIn(ss, 0, j, refused);
            && ValidSources(all) && BoardOf(p, ss).Sane() && BoardOf(p, all).Sane()
            && t in BoardOf(p, ss).slots && t in BoardOf(p, all).slots
            && if refused then Acceptance(p, all, t) > Acceptance(p, ss, t)
               else Acceptance(p, all, t) < Acceptance(p, ss, t)
  {
    hide HiWeight, SlotOf, Fits, Lean, Acceptance, BoardOf, HiWeightSum, Pull, TotalCount, DistinctToks, CountSum,
         AccSum, Gated, OneSided, Copies;
    var t, r := s.cands[j].tok, Raised(s, j, refused);
    RaisedValid(p, s, j, refused);
    LeanGain(p, s, j, refused);
    NoWeight(p, s);
    var w, x := HiWeight(p, s), Lean(p, s, s.cands[j]);
    var gain, more := HiWeight(p, r) - w, Lean(p, r, r.cands[j]) - x;
    var o, m := OtherSource(p, t, w, x, gain, more, refused);
    ss := [s] + Copies(o, m);
    Assembled(p, s, j, o, m, refused);
    AcceptanceIs(p, ss, t);
    AcceptanceIs(p, RaisedIn(ss, 0, j, refused), t);
    Positive(w, m, HiWeight(p, o));
    WrongWay(w + m as real * HiWeight(p, o), p.annoPrior, x + m as real * Lean(p, o, o.cands[0]), gain, more, refused);
  }

  lemma OtherSource(p: BackoffParams, t: int, w: real, x: real, gain: real, more: real, refused: bool)
    returns (o: Source, m: nat)
    requires p.Sane() && p.pHatMinOrder <= 8 && gain > 0.0
    requires if refused then more > -(gain / 2.0) else more < gain / 2.0
    ensures m >= 1 && ValidSource(o) && Holds(o, 0, t) && HiWeight(p, o) > 0.0
    ensures var total, pull := w + m as real * HiWeight(p, o), x + m as real * Lean(p, o, o.cands[0]);
            if refused then gain * -pull > (-more) * (total + p.annoPrior)
            else gain * pull > more * (total + p.annoPrior)
  {
    hide HiWeight, Lean, OneSided, DistinctToks, CountSum, AccSum;
    var b, obs := if refused then p.betaA else p.betaB, p.betaA + p.betaB;
    var n;
    n, m := Outweigh(gain, if refused then -more else more, w, if refused then -x else x, p.annoPrior, b, obs,
                     p.countPrior);
    o := OneSided(t, n, refused);
    OneSidedIs(p, t, n, refused);
    var v, e := n as real / (n as real + p.countPrior), 0.5 - b / (n as real + obs);
    assert n as real + obs == n as real + p.betaA + p.betaB;
    Signed(m as real, v * e, x);
  }

  lemma Signed(m: real, y: real, x: real)
    ensures -(x + m * -y) == -x + m * y
  {
  }

  lemma Positive(w: real, m: nat, v: real)
    requires w >= 0.0 && m >= 1 && v > 0.0
    ensures w + m as real * v > 0.0
  {
    SignOfProduct(m as real, v);
  }

  lemma WrongWay(w: real, prior: real, pull: real, gain: real, more: real, refused: bool)
    requires w > 0.0 && prior > 0.0 && gain > 0.0
    requires if refused then gain * -pull > (-more) * (w + prior) else gain * pull > more * (w + prior)
    ensures if refused then Gated(w + gain, prior, pull + more, w + gain) > Gated(w, prior, pull, w)
            else Gated(w + gain, prior, pull + more, w + gain) < Gated(w, prior, pull, w)
  {
    hide Gated;
    if refused {
      FallsBehind(w, prior, -pull, gain, -(pull + more));
      NegatedGate(w, prior, pull, w);
      NegatedGate(w + gain, prior, pull + more, w + gain);
    } else {
      FallsBehind(w, prior, pull, gain, pull + more);
    }
  }

  /** A source next to copies of another that holds the same token: all annotated weight is on that token. */
  lemma Assembled(p: BackoffParams, s: Source, j: nat, o: Source, m: nat, refused: bool)
    requires p.Sane() && ValidSource(s) && ValidSource(o) && j < |s.cands| && Holds(o, 0, s.cands[j].tok) && m >= 1
    requires ValidSource(Raised(s, j, refused)) && HiWeight(p, o) > 0.0
    ensures var ss, t, r := [s] + Copies(o, m), s.cands[j].tok, Raised(s, j, refused);
            var all, w, pull := RaisedIn(ss, 0, j, refused), HiWeight(p, s) + m as real * HiWeight(p, o),
                                Lean(p, s, s.cands[j]) + m as real * Lean(p, o, o.cands[0]);
            var gain, more := HiWeight(p, r) - HiWeight(p, s), Lean(p, r, r.cands[j]) - Lean(p, s, s.cands[j]);
            && ValidSources(ss) && ValidSources(all)
            && BoardOf(p, ss).Sane() && BoardOf(p, all).Sane()
            && t in BoardOf(p, ss).slots && t in BoardOf(p, all).slots
            && SlotOf(p, ss, t).wt == HiWeightSum(p, ss) == w && Pull(p, ss, t) == pull
            && SlotOf(p, all, t).wt == HiWeightSum(p, all) == w + gain && Pull(p, all, t) == pull + more
  {
    hide HiWeight, SlotOf, Lean, BoardOf, HiWeightSum, Pull, TotalCount, DistinctToks, CountSum, AccSum;
    var ss := [s] + Copies(o, m);
    CopiesSums(p, o, m, s.cands[j].tok);
    SumsOfFirst(p, s, j, Copies(o, m));
    RaisedSlots(p, ss, 0, j, refused);
    OneSidedCounts(p, o);
    assert ss[1] == o;
    OnBoard(p, ss, 1, 0);
    OnBoard(p, RaisedIn(ss, 0, j, refused), 1, 0);
  }

  lemma OneSidedCounts(p: BackoffParams, o: Source)
    requires p.Sane() && ValidSource(o) && HiWeight(p, o) > 0.0
    ensures Counting(o)
  {
    hide HiWeight;
    NoWeight(p, o);
  }

  lemma SumsOfFirst(p: BackoffParams, s: Source, j: nat, rest: seq<Source>)
    requires p.Sane() && ValidSource(s) && ValidSources(rest) && j < |s.cands|
    ensures ValidSources([s] + rest)
    ensures var ss, t := [s] + rest, s.cands[j].tok;
            && HiWeightSum(p, ss) == HiWeight(p, s) + HiWeightSum(p, rest)
            && SlotOf(p, ss, t).wt == HiWeight(p, s) + SlotOf(p, rest, t).wt
            && Pull(p, ss, t) == Lean(p, s, s.cands[j]) + Pull(p, rest, t)
  {
    hide HiWeight, SourceSlot, DistinctToks, CountSum, AccSum, Lean;
    HeldLean(p, s, j, s.cands[j].tok);
    assert ([s] + rest)[1..] == rest;
  }

  /** Next to these sources the observation moves its token's estimate the right way: up for an acceptance, down for a
      rejection. */
  ghost predicate MovesRight(p: BackoffParams, ss: seq<Source>, k: nat, j: nat, refused: bool)
    requires p.Sane() && ValidSources(ss) && k < |ss| && j < |ss[k].cands|
  {
    var t, all := ss[k].cands[j].tok, RaisedIn(ss, k, j, refused);
    && ValidSources(all)
    && (BoardOf(p, ss).Sane() && BoardOf(p, all).Sane() && t in BoardOf(p, ss).slots && t in BoardOf(p, all).slots ==>
          if refused then Acceptance(p, all, t) < Acceptance(p, ss, t)
          else Acceptance(p, ss, t) < Acceptance(p, all, t))
  }

  /** In a source that may annotate, one more observation moves the estimate the right way next to any other sources
      exactly when it fits the source: when countPrior * (acc + rej + betaA + betaB) is at most n * (n + 1 + countPrior)
      for its `n` observations in all. */
  lemma RightWayIffItFits(p: BackoffParams, s: Source, j: nat, refused: bool)
    requires p.Sane() && ValidSource(s) && j < |s.cands| && s.matchLen >= p.pHatMinOrder
    ensures (forall ss, k: nat :: ValidSources(ss) && k < |ss| && ss[k] == s ==> MovesRight(p, ss, k, j, refused)) <==>
            Fits(p, s, s.cands[j])
  {
    hide Fits, Acceptance, BoardOf, ValidSource;
    if Fits(p, s, s.cands[j]) {
      forall ss, k: nat | ValidSources(ss) && k < |ss| && ss[k] == s ensures MovesRight(p, ss, k, j, refused) {
        ObservationMoves(p, ss, k, j, refused);
      }
    } else {
      var ss := ObservationMisleads(p, s, j, refused);
      assert !MovesRight(p, ss, 0, j, refused);
    }
  }

  /** The same of two posteriors, before and after. */
  lemma PosteriorMoves(p: BackoffParams, ss: seq<Source>, k: nat, j: nat, refused: bool, r: Option<Posterior>,
                       r': Option<Posterior>, i: nat, i': nat)
    requires p.Sane() && ValidSources(ss) && k < |ss| && j < |ss[k].cands|
    requires ss[k].matchLen >= p.pHatMinOrder && Fits(p, ss[k], ss[k].cands[j])
    requires ValidSources(RaisedIn(ss, k, j, refused))
    requires IsBlend(p, ss, r) && IsBlend(p, RaisedIn(ss, k, j, refused), r') && r.Some? && r'.Some?
    requires i < |r.value.cands| && r.value.cands[i].tok == ss[k].cands[j].tok
    requires i' < |r'.value.cands| && r'.value.cands[i'].tok == ss[k].cands[j].tok
    ensures if refused then r'.value.cands[i'].pAcc < r.value.cands[i].pAcc
            else r.value.cands[i].pAcc < r'.value.cands[i'].pAcc
  {
    hide Fits, BoardOf, ValidSource, IsBlend;
    ObservationMoves(p, ss, k, j, refused);
    PosteriorIs(p, ss, r, i);
    PosteriorIs(p, RaisedIn(ss, k, j, refused), r', i');
  }

  // ---------------------------------------------------------------- on which side of one half

  function Sign(x: real): int {
    if x > 0.0 then 1 else if x < 0.0 then -1 else 0
  }

  ghost predicate SaysOf(p: BackoffParams, ss: seq<Source>, k: nat, j: nat, t: int) {
    k < |ss| && Annotates(p, ss[k]) && Holds(ss[k], j, t)
  }

  /** All trusted sources that hold the token have more acceptances than rejections of it, or all fewer, or all as many,
      the smoothing counts included. */
  ghost predicate Unanimous(p: BackoffParams, ss: seq<Source>, t: int, side: int) {
    forall k: nat, j: nat :: SaysOf(p, ss, k, j, t) ==> Sign(Margin(p, ss[k].cands[j])) == side
  }

  lemma LeanSide(p: BackoffParams, s: Source, c: Cand)
    requires p.Sane() && ValidSource(s)
    ensures Sign(Lean(p, s, c)) == if Annotates(p, s) then Sign(Margin(p, c)) else 0
  {
    hide Lam;
    NoWeight(p, s);
    var w, a, obs := HiWeight(p, s), c.acc as real + p.betaA, Observed(p, c);
    LeanIs(w, a, obs);
    Quotient(a, obs);
    var x := a / obs - 0.5;
    Spread(a / obs, 0.5, obs);
    SignOfProduct(x, obs);
    SignOfProduct(-x, obs);
    if w > 0.0 { SignOfProduct(x, w); SignOfProduct(-x, w); }
  }

  lemma SourceSide(p: BackoffParams, s: Source, t: int, side: int)
    requires p.Sane() && ValidSource(s)
    requires forall j: nat :: Annotates(p, s) && Holds(s, j, t) ==> Sign(Margin(p, s.cands[j])) == side
    ensures var x := SourceSlot(p, s, t);
            && (x.wt > 0.0 <==> Annotates(p, s) && exists j: nat :: Holds(s, j, t))
            && x.wt >= 0.0 && Sign(x.wa - x.wt / 2.0) == if x.wt > 0.0 then side else 0
  {
    hide HiWeight, SourceSlot, ValidSource, Lean, Margin, Annotates;
    NoWeight(p, s);
    if j: nat :| Holds(s, j, t) {
      HeldLean(p, s, j, t);
      LeanSide(p, s, s.cands[j]);
    } else {
      UnheldSlot(p, s, t);
    }
  }

  lemma {:induction false} PullSide(p: BackoffParams, ss: seq<Source>, t: int, side: int)
    requires p.Sane() && ValidSources(ss) && Unanimous(p, ss, t, side)
    ensures SlotOf(p, ss, t).wt >= 0.0
    ensures SlotOf(p, ss, t).wt > 0.0 <==> exists k: nat, j: nat :: SaysOf(p, ss, k, j, t)
    ensures Sign(Pull(p, ss, t)) == if SlotOf(p, ss, t).wt > 0.0 then side else 0
  {
    hide SourceSlot, ValidSource, Margin, Annotates;
    if ss != [] {
      var rest := ss[1..];
      forall k: nat, j: nat ensures SaysOf(p, rest, k, j, t) <==> SaysOf(p, ss, k + 1, j, t) {}
      forall k: nat, j: nat | SaysOf(p, rest, k, j, t) ensures Sign(Margin(p, rest[k].cands[j])) == side {
        assert SaysOf(p, ss, k + 1, j, t);
      }
      PullSide(p, rest, t, side);
      forall j: nat | Annotates(p, ss[0]) && Holds(ss[0], j, t) ensures Sign(Margin(p, ss[0].cands[j])) == side {
        assert SaysOf(p, ss, 0, j, t);
      }
      SourceSide(p, ss[0], t, side);
      var x, y := SourceSlot(p, ss[0], t), SlotOf(p, rest, t);
      if x.wt > 0.0 { var j: nat :| Holds(ss[0], j, t); assert SaysOf(p, ss, 0, j, t); }
      if y.wt > 0.0 { var k: nat, j: nat :| SaysOf(p, rest, k, j, t); assert SaysOf(p, ss, k + 1, j, t); }
      if k: nat, j: nat :| SaysOf(p, ss, k, j, t) {
        if k > 0 { assert SaysOf(p, rest, k - 1, j, t); }
      }
    }
  }

  /** Where the trusted sources agree about a token, its acceptance estimate lies on their side of one half, and it is
      one half exactly when no trusted source holds the token. With a single one this is an equivalence: the estimate is
      above one half exactly when acc + betaA > rej + betaB. */
  lemma AcceptanceSide(p: BackoffParams, ss: seq<Source>, r: Option<Posterior>, i: nat, side: int)
    requires p.Sane() && ValidSources(ss) && IsBlend(p, ss, r) && r.Some? && i < |r.value.cands|
    requires Unanimous(p, ss, r.value.cands[i].tok, side)
    ensures Sign(r.value.cands[i].pAcc - 0.5) ==
            if exists k: nat, j: nat :: SaysOf(p, ss, k, j, r.value.cands[i].tok) then side else 0
  {
    hide SlotOf, BoardOf, HiWeightSum, ValidSource, Unanimous, IsBlend, Pull, SaysOf;
    var t := r.value.cands[i].tok;
    PosteriorIs(p, ss, r, i);
    PullSide(p, ss, t, side);
    AcceptanceIs(p, ss, t);
    WeightWithin(p, ss, t);
    var w, x := HiWeightSum(p, ss), SlotOf(p, ss, t).wt;
    if x > 0.0 { GatedSide(w, p.annoPrior, Pull(p, ss, t), x); }
  }

  lemma GatedSide(w: real, prior: real, pull: real, wt: real)
    requires 0.0 < wt <= w && prior > 0.0
    ensures Sign(Gated(w, prior, pull, wt)) == Sign(pull)
  {
    Quotient(w, w + prior);
    Quotient(pull, wt);
    SignOfProduct(pull / wt, wt);
    SignOfProduct(pull / wt, w / (w + prior));
  }

  /** A single trusted source decides the side by its counts. */
  lemma SoleAnnotator(p: BackoffParams, ss: seq<Source>, r: Option<Posterior>, i: nat, k: nat, j: nat)
    requires p.Sane() && ValidSources(ss) && IsBlend(p, ss, r) && r.Some? && i < |r.value.cands|
    requires SaysOf(p, ss, k, j, r.value.cands[i].tok)
    requires forall l: nat, m: nat :: SaysOf(p, ss, l, m, r.value.cands[i].tok) ==> l == k && m == j
    ensures var c := ss[k].cands[j];
            && (r.value.cands[i].pAcc > 0.5 <==> c.acc as real + p.betaA > c.rej as real + p.betaB)
            && (r.value.cands[i].pAcc < 0.5 <==> c.acc as real + p.betaA < c.rej as real + p.betaB)
  {
    hide IsBlend, ValidSource;
    AcceptanceSide(p, ss, r, i, Sign(Margin(p, ss[k].cands[j])));
  }

  // ---------------------------------------------------------------- never surer than the sources

  /** No trusted source puts the smoothed acceptance rate of the token above `rate`. */
  ghost predicate RatesAtMost(p: BackoffParams, ss: seq<Source>, t: int, rate: real) {
    forall k: nat, j: nat :: SaysOf(p, ss, k, j, t) ==>
      ss[k].cands[j].acc as real + p.betaA <= rate * Observed(p, ss[k].cands[j])
  }

  ghost predicate RatesAtLeast(p: BackoffParams, ss: seq<Source>, t: int, rate: real) {
    forall k: nat, j: nat :: SaysOf(p, ss, k, j, t) ==>
      ss[k].cands[j].acc as real + p.betaA >= rate * Observed(p, ss[k].cands[j])
  }

  lemma LeanWithin(p: BackoffParams, s: Source, c: Cand, rate: real)
    requires p.Sane() && ValidSource(s)
    ensures Annotates(p, s) && c.acc as real + p.betaA <= rate * Observed(p, c) ==>
              Lean(p, s, c) <= HiWeight(p, s) * (rate - 0.5)
    ensures Annotates(p, s) && c.acc as real + p.betaA >= rate * Observed(p, c) ==>
              Lean(p, s, c) >= HiWeight(p, s) * (rate - 0.5)
  {
    hide Lam;
    NoWeight(p, s);
    var w, a, obs := HiWeight(p, s), c.acc as real + p.betaA, Observed(p, c);
    if w > 0.0 {
      LeanIs(w, a, obs);
      Quotient(a, obs);
      Cancel(a / obs, rate, obs);
      Cancel(rate, a / obs, obs);
      Cancel(a / obs - 0.5, rate - 0.5, w);
      Cancel(rate - 0.5, a / obs - 0.5, w);
    }
  }

  lemma SourceWithin(p: BackoffParams, s: Source, t: int, rate: real)
    requires p.Sane() && ValidSource(s)
    ensures var x := SourceSlot(p, s, t);
            && ((forall j: nat :: Annotates(p, s) && Holds(s, j, t) ==>
                   s.cands[j].acc as real + p.betaA <= rate * Observed(p, s.cands[j])) ==>
                 x.wa - x.wt / 2.0 <= x.wt * (rate - 0.5))
            && ((forall j: nat :: Annotates(p, s) && Holds(s, j, t) ==>
                   s.cands[j].acc as real + p.betaA >= rate * Observed(p, s.cands[j])) ==>
                 x.wa - x.wt / 2.0 >= x.wt * (rate - 0.5))
  {
    hide HiWeight, SourceSlot, ValidSource, Lean, Annotates, Observed;
    NoWeight(p, s);
    if j: nat :| Holds(s, j, t) {
      HeldLean(p, s, j, t);
      LeanWithin(p, s, s.cands[j], rate);
      NoLean(p, s, s.cands[j]);
    } else {
      UnheldSlot(p, s, t);
    }
  }

  lemma NoLean(p: BackoffParams, s: Source, c: Cand)
    requires p.Sane() && ValidSource(s)
    ensures !Annotates(p, s) ==> Lean(p, s, c) == 0.0 && HiWeight(p, s) == 0.0
  {
    LeanSide(p, s, c);
    NoWeight(p, s);
  }

  lemma {:induction false} PullWithin(p: BackoffParams, ss: seq<Source>, t: int, rate: real)
    requires p.Sane() && ValidSources(ss)
    ensures RatesAtMost(p, ss, t, rate) ==> Pull(p, ss, t) <= SlotOf(p, ss, t).wt * (rate - 0.5)
    ensures RatesAtLeast(p, ss, t, rate) ==> Pull(p, ss, t) >= SlotOf(p, ss, t).wt * (rate - 0.5)
  {
    hide SourceSlot, ValidSource, Annotates, Observed;
    if ss != [] {
      var rest := ss[1..];
      PullWithin(p, rest, t, rate);
      SourceWithin(p, ss[0], t, rate);
      forall k: nat, j: nat ensures SaysOf(p, rest, k, j, t) <==> SaysOf(p, ss, k + 1, j, t) {}
      forall j: nat ensures SaysOf(p, ss, 0, j, t) <==> Annotates(p, ss[0]) && Holds(ss[0], j, t) {}
      if RatesAtMost(p, ss, t, rate) {
        forall k: nat, j: nat | SaysOf(p, rest, k, j, t)
          ensures rest[k].cands[j].acc as real + p.betaA <= rate * Observed(p, rest[k].cands[j])
        {
          assert SaysOf(p, ss, k + 1, j, t);
        }
      }
      if RatesAtLeast(p, ss, t, rate) {
        forall k: nat, j: nat | SaysOf(p, rest, k, j, t)
          ensures rest[k].cands[j].acc as real + p.betaA >= rate * Observed(p, rest[k].cands[j])
        {
          assert SaysOf(p, ss, k + 1, j, t);
        }
      }
      Spread(SourceSlot(p, ss[0], t).wt, SlotOf(p, rest, t).wt, rate - 0.5);
    }
  }

  /** The estimate is less sure than the surest trusted source: it stays strictly below a rate above one half that none
      exceeds, and strictly above a rate below one half that none falls short of. */
  lemma AcceptanceIsCautious(p: BackoffParams, ss: seq<Source>, r: Option<Posterior>, i: nat, rate: real)
    requires p.Sane() && ValidSources(ss) && IsBlend(p, ss, r) && r.Some? && i < |r.value.cands|
    ensures rate > 0.5 && RatesAtMost(p, ss, r.value.cands[i].tok, rate) ==> r.value.cands[i].pAcc < rate
    ensures rate < 0.5 && RatesAtLeast(p, ss, r.value.cands[i].tok, rate) ==> r.value.cands[i].pAcc > rate
  {
    hide SlotOf, BoardOf, HiWeightSum, ValidSource, RatesAtMost, RatesAtLeast, IsBlend, Pull;
    var t := r.value.cands[i].tok;
    PosteriorIs(p, ss, r, i);
    PullWithin(p, ss, t, rate);
    AcceptanceIs(p, ss, t);
    WeightWithin(p, ss, t);
    var w, x := HiWeightSum(p, ss), SlotOf(p, ss, t).wt;
    if x > 0.0 { GatedWithin(w, p.annoPrior, Pull(p, ss, t), x, rate - 0.5); }
  }

  lemma GatedWithin(w: real, prior: real, pull: real, wt: real, d: real)
    requires 0.0 < wt <= w && prior > 0.0
    ensures d > 0.0 && pull <= wt * d ==> Gated(w, prior, pull, wt) < d
    ensures d < 0.0 && pull >= wt * d ==> Gated(w, prior, pull, wt) > d
  {
    var g, q := w / (w + prior), pull / wt;
    Quotient(w, w + prior);
    Quotient(pull, wt);
    Cancel(q, d, wt);
    Cancel(d, q, wt);
    if d > 0.0 && pull <= wt * d {
      Cancel(q, d, g);
      SignOfProduct(1.0 - g, d);
    } else if d < 0.0 && pull >= wt * d {
      Cancel(d, q, g);
      SignOfProduct(1.0 - g, -d);
    }
  }

  // ---------------------------------------------------------------- which tokens, and how well supported

  /** Source `k` has evidence and holds the token as its candidate `j`. */
  predicate Seen(ss: seq<Source>, k: nat, j: nat, t: int) {
    k < |ss| && Counting(ss[k]) && Holds(ss[k], j, t)
  }

  function Observations(c: Cand): nat {
    c.acc + c.rej
  }

  /** No source with evidence observed the token more often, and one did as often. */
  ghost predicate MostSeen(ss: seq<Source>, t: int, n: nat) {
    && (exists k: nat, j: nat :: Seen(ss, k, j, t) && Observations(ss[k].cands[j]) == n)
    && forall k: nat, j: nat :: Seen(ss, k, j, t) ==> Observations(ss[k].cands[j]) <= n
  }

  ghost predicate Unseen(ss: seq<Source>, t: int) {
    forall k: nat, j: nat :: !Seen(ss, k, j, t)
  }

  /** One source more, which does not see the token, or sees it `m` times. */
  lemma SeenByRest(ss: seq<Source>, t: int)
    requires ss != [] && Unseen([ss[0]], t)
    ensures Unseen(ss, t) <==> Unseen(ss[1..], t)
    ensures forall n: nat :: MostSeen(ss[1..], t, n) ==> MostSeen(ss, t, n)
  {
    hide Counting, Observations;
    OneLess(ss, t);
    forall n: nat | MostSeen(ss[1..], t, n) ensures MostSeen(ss, t, n) {
      var k: nat, j: nat :| Seen(ss[1..], k, j, t) && Observations(ss[1..][k].cands[j]) == n;
      assert Seen(ss, k + 1, j, t);
    }
  }

  lemma OneLess(ss: seq<Source>, t: int)
    requires ss != []
    ensures forall k: nat, j: nat :: Seen(ss[1..], k, j, t) <==> Seen(ss, k + 1, j, t)
    ensures forall j: nat :: Seen([ss[0]], 0, j, t) <==> Seen(ss, 0, j, t)
    ensures forall k: nat, j: nat :: Seen(ss, k, j, t) ==>
              if k == 0 then Seen([ss[0]], 0, j, t) else Seen(ss[1..], k - 1, j, t)
  {
  }

  lemma SeenByFirst(ss: seq<Source>, t: int, m: nat, n: nat)
    requires ss != [] && MostSeen([ss[0]], t, m) && (Unseen(ss[1..], t) || MostSeen(ss[1..], t, n))
    ensures !Unseen(ss, t) && MostSeen(ss, t, if Unseen(ss[1..], t) || m > n then m else n)
  {
    hide Counting, Observations;
    OneLess(ss, t);
    var k: nat, j: nat :| Seen([ss[0]], k, j, t) && Observations([ss[0]][k].cands[j]) == m;
    assert Seen(ss, 0, j, t);
    if !Unseen(ss[1..], t) && n >= m {
      var l: nat, i: nat :| Seen(ss[1..], l, i, t) && Observations(ss[1..][l].cands[i]) == n;
      assert Seen(ss, l + 1, i, t);
    }
    forall l: nat, i: nat | Seen(ss, l, i, t)
      ensures Observations(ss[l].cands[i]) <= if Unseen(ss[1..], t) || m > n then m else n
    {
      if l == 0 { assert Seen([ss[0]], 0, i, t); } else { assert Seen(ss[1..], l - 1, i, t); }
    }
  }

  /** The token's support is what its best source observed, and only tokens of some source with evidence are slotted. */
  lemma {:induction false} SupportIs(p: BackoffParams, ss: seq<Source>, t: int)
    requires p.Sane() && ValidSources(ss)
    ensures t in TokSet(p, ss) <==> !Unseen(ss, t)
    ensures t in TokSet(p, ss) ==> MostSeen(ss, t, SlotOf(p, ss, t).sup)
  {
    hide Weight, SourceSlot, ValidSource, Toks, Counting, MostSeen, Unseen;
    if ss == [] {
      NoneSeen(t);
    } else {
      SupportIs(p, ss[1..], t);
      SourceSupport(p, ss[0], t);
      NoWeight(p, ss[0]);
      if Unseen([ss[0]], t) {
        SeenByRest(ss, t);
      } else {
        SeenByFirst(ss, t, SourceSlot(p, ss[0], t).sup, SlotOf(p, ss[1..], t).sup);
        if t !in TokSet(p, ss[1..]) { NoSlotOf(p, ss[1..], t); }
      }
    }
  }

  lemma NoneSeen(t: int)
    ensures Unseen([], t)
  {
  }

  lemma SourceSupport(p: BackoffParams, s: Source, t: int)
    requires p.Sane() && ValidSource(s)
    ensures t in SourceToks(p, s) <==> !Unseen([s], t)
    ensures Unseen([s], t) ==> SourceSlot(p, s, t) == EMPTY_SLOT
    ensures !Unseen([s], t) ==> MostSeen([s], t, SourceSlot(p, s, t).sup)
  {
    hide CandSlots, Counting, Weight, CountSum, AccSum;
    NoWeight(p, s);
    if j: nat :| Holds(s, j, t) {
      HeldSlot(p, s, j, t);
      assert Counting(s) <==> Seen([s], 0, j, t);
      forall k: nat, i: nat | Seen([s], k, i, t) ensures k == 0 && i == j && Counting(s) {}
    } else {
      UnheldSlot(p, s, t);
      forall k: nat, i: nat ensures !Seen([s], k, i, t) { assert k < 1 ==> !Holds([s][k], i, t); }
    }
  }

  /** A posterior lists tokens of sources with evidence, all of them if there is room; a token's support is the largest
      number of observations in any such source, never their sum. */
  lemma PosteriorSupport(p: BackoffParams, ss: seq<Source>, r: Option<Posterior>)
    requires p.Sane() && ValidSources(ss) && IsBlend(p, ss, r) && r.Some?
    ensures forall i :: 0 <= i < |r.value.cands| ==> MostSeen(ss, r.value.cands[i].tok, r.value.cands[i].support)
    ensures |r.value.cands| < p.maxCands ==>
              forall t :: !Unseen(ss, t) ==> exists i :: 0 <= i < |r.value.cands| && r.value.cands[i].tok == t
  {
    hide IsPosterior, IsTopScore, ValidSource, SlotOf, TokSet, MostSeen, Unseen, WeightSum, HiWeightSum;
    forall i | 0 <= i < |r.value.cands| ensures MostSeen(ss, r.value.cands[i].tok, r.value.cands[i].support) {
      PosteriorIs(p, ss, r, i);
      SupportIs(p, ss, r.value.cands[i].tok);
    }
    if |r.value.cands| < p.maxCands {
      forall t | !Unseen(ss, t) ensures exists i :: 0 <= i < |r.value.cands| && r.value.cands[i].tok == t {
        SupportIs(p, ss, t);
        AllListed(p, ss, r, t);
      }
    }
  }

  lemma AllListed(p: BackoffParams, ss: seq<Source>, r: Option<Posterior>, t: int)
    requires p.Sane() && ValidSources(ss) && IsBlend(p, ss, r) && r.Some?
    requires |r.value.cands| < p.maxCands && t in TokSet(p, ss)
    ensures exists i :: 0 <= i < |r.value.cands| && r.value.cands[i].tok == t
  {
    hide IsTopScore, ValidSources, BestOrder, PHatSum, WeightSum, HiWeightSum, SlotOf, TokSet;
    var b := BoardOf(p, ss);
    var sMax, toks :| sMax != 0.0 && IsTopScore(b, sMax) && IsRanking(b, sMax, toks)
      && IsPosterior(p, ss, sMax, toks, r.value);
    assert t in b.slots.Keys;
    var i :| 0 <= i < |toks| && toks[i] == t;
    assert r.value.cands[i].tok == t;
  }

  /** The best order is the longest match among the sources. */
  lemma {:induction false} BestOrderIs(ss: seq<Source>)
    requires ss != []
    ensures forall k :: 0 <= k < |ss| ==> ss[k].matchLen <= BestOrder(ss)
    ensures exists k :: 0 <= k < |ss| && ss[k].matchLen == BestOrder(ss)
  {
    if |ss| > 1 {
      BestOrderIs(ss[1..]);
      forall k | 0 <= k < |ss| ensures ss[k].matchLen <= BestOrder(ss) {
        if k > 0 { assert ss[k] == ss[1..][k - 1]; }
      }
      var k :| 0 <= k < |ss[1..]| && ss[1..][k].matchLen == BestOrder(ss[1..]);
      assert ss[k + 1].matchLen == BestOrder(ss[1..]);
    }
    if BestOrder(ss) == ss[0].matchLen { assert ss[0].matchLen == BestOrder(ss); }
  }

  // ---------------------------------------------------------------- a more probable code

  /** The source with another probability code for its candidate `j`. */
  function Recoded(s: Source, j: nat, q: int): Source
    requires j < |s.cands|
  {
    s.(cands := s.cands[j := s.cands[j].(q8 := q)])
  }

  function RecodedIn(ss: seq<Source>, k: nat, j: nat, q: int): seq<Source>
    requires k < |ss| && j < |ss[k].cands|
  {
    ss[k := Recoded(ss[k], j, q)]
  }

  lemma RecodedSums(p: BackoffParams, s: Source, j: nat, q: int)
    requires p.Sane() && ValidSource(s) && j < |s.cands|
    ensures var r, z := Recoded(s, j, q), ProbSum(p, s.cands) - p.prob(s.cands[j].q8);
            && ValidSource(r) && TotalCount(r) == TotalCount(s) && TotalAcc(r) == TotalAcc(s)
            && Toks(r.cands) == Toks(s.cands) && z >= 0.0 && (|s.cands| > 1 ==> z > 0.0)
            && ProbDen(p, s) == z + p.prob(s.cands[j].q8) && ProbDen(p, r) == z + p.prob(q)
  {
    var r := Recoded(s, j, q);
    var rest := s.cands[..j] + s.cands[j + 1..];
    assert r.cands[..j] == s.cands[..j] && r.cands[j + 1..] == s.cands[j + 1..];
    PullOutCand(p, s, s.cands, j, 0);
    PullOutCand(p, s, r.cands, j, 0);
    ProbSumPositive(p, rest);
    forall i | 0 <= i < |s.cands| ensures r.cands[i].tok == s.cands[i].tok {}
  }

  lemma ShareRises(w: real, x: real, y: real, z: real)
    requires w >= 0.0 && z >= 0.0 && 0.0 < x <= y
    ensures Share(w, x, x + z) <= Share(w, y, y + z)
    ensures w > 0.0 && z > 0.0 && x < y ==> Share(w, x, x + z) < Share(w, y, y + z)
  {
    NonNegative(y - x, z);
    assert y * (x + z) - x * (y + z) == (y - x) * z;
    CrossMultiply(x, x + z, y, y + z);
    ProductMonotone(w, w, 0.0, 0.0);
    Quotient(x, x + z);
    ProductMonotone(w, w, x / (x + z), y / (y + z));
    if w > 0.0 && z > 0.0 && x < y {
      SignOfProduct(y - x, z);
      StrictCross(x, x + z, y, y + z);
      SignOfProduct(y / (y + z) - x / (x + z), w);
      Spread(y / (y + z), x / (x + z), w);
    }
  }

  lemma RecodedSlot(p: BackoffParams, s: Source, j: nat, q: int)
    requires p.Sane() && ValidSource(s) && j < |s.cands| && p.prob(q) >= p.prob(s.cands[j].q8)
    ensures ValidSource(Recoded(s, j, q))
    ensures var r, t := Recoded(s, j, q), s.cands[j].tok;
            && HiWeight(p, r) == HiWeight(p, s) && Weight(p, r) == Weight(p, s) && SourceToks(p, r) == SourceToks(p, s)
            && SourceSlot(p, s, t).wph <= SourceSlot(p, r, t).wph
            && (Annotates(p, s) && |s.cands| > 1 && p.prob(q) > p.prob(s.cands[j].q8) ==>
                  SourceSlot(p, s, t).wph < SourceSlot(p, r, t).wph)
  {
    hide Lam, Share, CandSlots, SourceSlot, CountSum, AccSum, DistinctToks, ProbDen, FreqDen;
    var r, t := Recoded(s, j, q), s.cands[j].tok;
    RecodedSums(p, s, j, q);
    HeldSlot(p, s, j, t);
    HeldSlot(p, r, j, t);
    NoWeight(p, s);
    ShareRises(HiWeight(p, s), p.prob(s.cands[j].q8), p.prob(q), ProbSum(p, s.cands) - p.prob(s.cands[j].q8));
  }

  lemma RecodedSlots(p: BackoffParams, ss: seq<Source>, k: nat, j: nat, q: int)
    requires p.Sane() && ValidSources(ss) && k < |ss| && j < |ss[k].cands| && p.prob(q) >= p.prob(ss[k].cands[j].q8)
    ensures ValidSources(RecodedIn(ss, k, j, q))
    ensures var t, all := ss[k].cands[j].tok, RecodedIn(ss, k, j, q);
            && HiWeightSum(p, all) == HiWeightSum(p, ss) && TokSet(p, all) == TokSet(p, ss)
            && SlotOf(p, ss, t).wph <= SlotOf(p, all, t).wph
            && (Annotates(p, ss[k]) && |ss[k].cands| > 1 && p.prob(q) > p.prob(ss[k].cands[j].q8) ==>
                  SlotOf(p, ss, t).wph < SlotOf(p, all, t).wph)
  {
    hide HiWeight, SourceSlot, Weight, DistinctToks, CountSum, AccSum, SourceToks, BestOrder, Annotates;
    var s, all := ss[k], RecodedIn(ss, k, j, q);
    RecodedSlot(p, s, j, q);
    assert all[..k] == ss[..k] && all[k + 1..] == ss[k + 1..];
    PullOutSource(p, ss, k, s.cands[j].tok);
    PullOutSource(p, all, k, s.cands[j].tok);
  }

  /** A more probable code in one source never lowers the token's probability, and raises it if the source is trusted
      and holds other tokens too. */
  lemma ProbabilityMoves(p: BackoffParams, ss: seq<Source>, k: nat, j: nat, q: int, r: Option<Posterior>,
                         r': Option<Posterior>, i: nat, i': nat)
    requires p.Sane() && ValidSources(ss) && k < |ss| && j < |ss[k].cands| && p.prob(q) >= p.prob(ss[k].cands[j].q8)
    requires ValidSources(RecodedIn(ss, k, j, q))
    requires IsBlend(p, ss, r) && IsBlend(p, RecodedIn(ss, k, j, q), r') && r.Some? && r'.Some?
    requires i < |r.value.cands| && r.value.cands[i].tok == ss[k].cands[j].tok
    requires i' < |r'.value.cands| && r'.value.cands[i'].tok == ss[k].cands[j].tok
    ensures r.value.cands[i].pHat <= r'.value.cands[i'].pHat
    ensures Annotates(p, ss[k]) && |ss[k].cands| > 1 && p.prob(q) > p.prob(ss[k].cands[j].q8) ==>
              r.value.cands[i].pHat < r'.value.cands[i'].pHat
  {
    hide ValidSource, IsBlend, SlotOf, TokSet, HiWeightSum, WeightSum, Annotates;
    var t, all := ss[k].cands[j].tok, RecodedIn(ss, k, j, q);
    RecodedSlots(p, ss, k, j, q);
    PosteriorIs(p, ss, r, i);
    PosteriorIs(p, all, r', i');
    var b, b' := BoardOf(p, ss), BoardOf(p, all);
    assert b.slots.Keys == TokSet(p, ss) && b'.slots.Keys == TokSet(p, all);
    SameSize(b, b');
    assert b.slots[t] == SlotOf(p, ss, t) && b'.slots[t] == SlotOf(p, all, t);
    AnnotatedWeight(p, ss, k);
    ProbabilityRises(b, b', t);
  }

  lemma SameSize(b: Board, b': Board)
    requires b.slots.Keys == b'.slots.Keys
    ensures |b.slots| == |b'.slots|
  {
    assert |b.slots| == |b.slots.Keys| && |b'.slots| == |b'.slots.Keys|;
  }

  lemma AnnotatedWeight(p: BackoffParams, ss: seq<Source>, k: nat)
    requires p.Sane() && ValidSources(ss) && k < |ss|
    ensures HiWeightSum(p, ss) >= 0.0 && (Annotates(p, ss[k]) ==> HiWeightSum(p, ss) > 0.0)
  {
    hide HiWeight, SourceSlot, SourceToks, ValidSource, BestOrder, Annotates;
    PullOutSource(p, ss, k, 0);
    SumsSound(p, ss[..k] + ss[k + 1..]);
    NoWeight(p, ss[k]);
  }

  lemma ProbabilityRises(b: Board, b': Board, t: int)
    requires b.Sane() && b'.Sane() && t in b.slots && t in b'.slots
    requires |b.slots| == |b'.slots| && b.wHi == b'.wHi && b.annoPrior == b'.annoPrior
    requires b.slots[t].wph <= b'.slots[t].wph
    ensures b.PHat(t) <= b'.PHat(t)
    ensures b.wHi > 0.0 && b.slots[t].wph < b'.slots[t].wph ==> b.PHat(t) < b'.PHat(t)
  {
    if b.wHi > 0.0 {
      var g, u, x, y := b.Gate(), b.Uniform(), b.slots[t].wph / b.wHi, b'.slots[t].wph / b.wHi;
      Quotient(b.wHi, b.wHi + b.annoPrior);
      HigherShare(b.slots[t].wph, b'.slots[t].wph, b.wHi);
      MixRises(g, u, x, y);
      assert b.PHat(t) == u + g * (x - u) && b'.PHat(t) == u + g * (y - u);
    }
  }

  lemma MixRises(g: real, u: real, x: real, y: real)
    requires g > 0.0 && x <= y
    ensures u + g * (x - u) <= u + g * (y - u)
    ensures x < y ==> u + g * (x - u) < u + g * (y - u)
  {
    SignOfProduct(y - x, g);
    Spread(y - u, x - u, g);
  }

  // ---------------------------------------------------------------- what ranks first

  /** Whatever the source has seen of `u` it has seen of `t` at least as well: acceptances, observations,
      probability. */
  ghost predicate Favours(p: BackoffParams, s: Source, t: int, u: int) {
    forall j: nat :: Holds(s, j, u) ==>
      exists i: nat ::
        && Holds(s, i, t) && s.cands[i].acc >= s.cands[j].acc
        && Observations(s.cands[i]) >= Observations(s.cands[j]) && p.prob(s.cands[i].q8) >= p.prob(s.cands[j].q8)
  }

  predicate AtLeast(x: Slot, y: Slot) {
    x.wf >= y.wf && x.wph >= y.wph && x.sup >= y.sup
  }

  lemma FavouredSlot(p: BackoffParams, s: Source, t: int, u: int)
    requires p.Sane() && ValidSource(s) && (Counting(s) ==> Favours(p, s, t, u))
    ensures AtLeast(SourceSlot(p, s, t), SourceSlot(p, s, u))
    ensures u in SourceToks(p, s) ==> t in SourceToks(p, s)
  {
    hide Weight, HiWeight, Share, SourceSlot, CandSlots, CountSum, AccSum, DistinctToks;
    NoWeight(p, s);
    DensPositive(p, s);
    if j: nat :| Counting(s) && Holds(s, j, u) {
      var i: nat :| Holds(s, i, t) && s.cands[i].acc >= s.cands[j].acc &&
                    Observations(s.cands[i]) >= Observations(s.cands[j]) &&
                    p.prob(s.cands[i].q8) >= p.prob(s.cands[j].q8);
      HeldSlot(p, s, i, t);
      HeldSlot(p, s, j, u);
      LargerShare(Weight(p, s), s.cands[j].acc as real + p.betaA, s.cands[i].acc as real + p.betaA, FreqDen(p, s));
      LargerShare(HiWeight(p, s), p.prob(s.cands[j].q8), p.prob(s.cands[i].q8), ProbDen(p, s));
    } else {
      NothingBelow(p, s, t, u);
    }
  }

  lemma NothingBelow(p: BackoffParams, s: Source, t: int, u: int)
    requires p.Sane() && ValidSource(s) && forall j: nat :: Counting(s) ==> !Holds(s, j, u)
    ensures AtLeast(SourceSlot(p, s, t), SourceSlot(p, s, u)) && u !in SourceToks(p, s)
  {
    hide Weight, CandSlots, CountSum, AccSum, DistinctToks;
    NoWeight(p, s);
    if Counting(s) {
      UnheldSlot(p, s, u);
      CandSlotsSound(p, s, s.cands, t);
    }
  }

  lemma LargerShare(w: real, a: real, b: real, d: real)
    requires w >= 0.0 && 0.0 < a <= b && d > 0.0
    ensures Share(w, a, d) <= Share(w, b, d)
  {
    ProductMonotone(d, d, a, b);
    CrossMultiply(a, d, b, d);
    Quotient(a, d);
    ProductMonotone(w, w, a / d, b / d);
  }

  lemma {:induction false} FavouredSlots(p: BackoffParams, ss: seq<Source>, t: int, u: int)
    requires p.Sane() && ValidSources(ss)
    requires forall k :: 0 <= k < |ss| && Counting(ss[k]) ==> Favours(p, ss[k], t, u)
    ensures AtLeast(SlotOf(p, ss, t), SlotOf(p, ss, u))
    ensures u in TokSet(p, ss) ==> t in TokSet(p, ss)
  {
    hide SourceSlot, SourceToks, ValidSource, Counting, Favours;
    if ss != [] {
      FavouredSlot(p, ss[0], t, u);
      FavouredSlots(p, ss[1..], t, u);
    }
  }

  /** A token that every source with evidence favours over a larger one is listed before it, however scores
      are rounded. */
  lemma FavouredRanksFirst(p: BackoffParams, ss: seq<Source>, r: Option<Posterior>, t: int, u: int, i: nat)
    requires p.Sane() && ValidSources(ss) && IsBlend(p, ss, r) && r.Some?
    requires forall x, y :: x <= y ==> p.round1(x) <= p.round1(y)
    requires forall k :: 0 <= k < |ss| && Counting(ss[k]) ==> Favours(p, ss[k], t, u)
    requires t < u && i < |r.value.cands| && r.value.cands[i].tok == u
    ensures exists j :: 0 <= j < i && r.value.cands[j].tok == t
  {
    hide IsTopScore, ValidSources, BestOrder, PHatSum, WeightSum, HiWeightSum, SlotOf, TokSet, AtLeast, Board.Before;
    FavouredSlots(p, ss, t, u);
    var b := BoardOf(p, ss);
    var sMax, toks :| sMax != 0.0 && IsTopScore(b, sMax) && IsRanking(b, sMax, toks)
      && IsPosterior(p, ss, sMax, toks, r.value);
    assert u == toks[i] && u in toks && b.slots.Keys == TokSet(p, ss);
    var j :| 0 <= j < |toks| && toks[j] == t;
    RanksBefore(p, ss, sMax, t, u);
    if i < j {
      assert b.Before(sMax, toks[i], toks[j]);
      NotBothBefore(b, sMax, t, u);
    }
    assert r.value.cands[j].tok == t;
  }

  lemma NotBothBefore(b: Board, sMax: real, t: int, u: int)
    requires b.Sane() && t in b.slots && u in b.slots && sMax != 0.0
    ensures !(b.Before(sMax, t, u) && b.Before(sMax, u, t))
  {
  }

  lemma RanksBefore(p: BackoffParams, ss: seq<Source>, sMax: real, t: int, u: int)
    requires p.Sane() && ValidSources(ss) && BoardOf(p, ss).Sane() && sMax != 0.0 && IsTopScore(BoardOf(p, ss), sMax)
    requires t in BoardOf(p, ss).slots && u in BoardOf(p, ss).slots && AtLeast(SlotOf(p, ss, t), SlotOf(p, ss, u))
    requires t < u && forall x, y :: x <= y ==> p.round1(x) <= p.round1(y)
    ensures BoardOf(p, ss).Before(sMax, t, u)
  {
    hide IsTopScore, ValidSources, WeightSum, HiWeightSum, SlotOf, TokSet, AtLeast, Board.Score;
    var b := BoardOf(p, ss);
    ScoresHigher(p, ss, t, u);
    TopIsPositive(p, ss, sMax);
    HigherShare(b.Score(u), b.Score(t), sMax);
    assert b.round1 == p.round1;
  }

  lemma ScoresHigher(p: BackoffParams, ss: seq<Source>, t: int, u: int)
    requires p.Sane() && ValidSources(ss) && BoardOf(p, ss).Sane()
    requires t in BoardOf(p, ss).slots && u in BoardOf(p, ss).slots && AtLeast(SlotOf(p, ss, t), SlotOf(p, ss, u))
    ensures BoardOf(p, ss).Score(t) >= BoardOf(p, ss).Score(u)
    ensures BoardOf(p, ss).slots[t].sup >= BoardOf(p, ss).slots[u].sup
  {
    hide SlotOf, TokSet, WeightSum, HiWeightSum, ValidSources;
    var b := BoardOf(p, ss);
    BoardBounds(p, ss, u);
    SlotOfSound(p, ss, u);
    assert b.slots[t] == SlotOf(p, ss, t) && b.slots[u] == SlotOf(p, ss, u);
    HigherScore(b, t, u);
  }

  lemma HigherScore(b: Board, t: int, u: int)
    requires b.Sane() && t in b.slots && u in b.slots && AtLeast(b.slots[t], b.slots[u])
    requires b.PHat(u) >= 0.0 && b.slots[u].wf >= 0.0
    ensures b.Score(t) >= b.Score(u)
  {
    hide Board.PHat;
    HigherShare(b.slots[u].wf, b.slots[t].wf, b.wSum);
    Quotient(b.slots[u].wf, b.wSum);
    HigherHat(b, t, u);
    var n := |b.slots| as real;
    ProductMonotone(n, n, b.PHat(u), b.PHat(t));
    ProductMonotone(b.Freq(u), b.Freq(t), n * b.PHat(u), n * b.PHat(t));
  }

  lemma HigherHat(b: Board, t: int, u: int)
    requires b.Sane() && t in b.slots && u in b.slots && b.slots[u].wph <= b.slots[t].wph
    ensures b.PHat(u) <= b.PHat(t)
  {
    if b.wHi > 0.0 {
      var g, m, x, y := b.Gate(), b.Uniform(), b.slots[u].wph / b.wHi, b.slots[t].wph / b.wHi;
      Quotient(b.wHi, b.wHi + b.annoPrior);
      HigherShare(b.slots[u].wph, b.slots[t].wph, b.wHi);
      MixRises(g, m, x, y);
      assert b.PHat(u) == m + g * (x - m) && b.PHat(t) == m + g * (y - m);
    }
  }

  lemma HigherShare(a: real, b: real, d: real)
    requires d > 0.0 && a <= b
    ensures a / d <= b / d && (a < b ==> a / d < b / d)
  {
    Cancel(a, b, d);
    CrossMultiply(a, d, b, d);
    if a < b { StrictCross(a, d, b, d); }
  }

  lemma TopIsPositive(p: BackoffParams, ss: seq<Source>, sMax: real)
    requires p.Sane() && ValidSources(ss) && BoardOf(p, ss).Sane() && IsTopScore(BoardOf(p, ss), sMax)
    ensures sMax > 0.0
  {
    hide SlotMap, WeightSum, HiWeightSum, ValidSources;
    var b := BoardOf(p, ss);
    var t :| t in b.slots && (forall u :: u in b.slots ==> b.Score(u) <= b.Score(t))
             && sMax == if b.Score(t) == 0.0 then 1.0 else b.Score(t);
    BoardBounds(p, ss, t);
  }

  /** Scores are compared with the best one: every relative score is positive and at most 1, and one is 1. */
  lemma RelativeScores(p: BackoffParams, ss: seq<Source>, sMax: real)
    requires p.Sane() && ValidSources(ss) && BoardOf(p, ss).Sane() && IsTopScore(BoardOf(p, ss), sMax)
    ensures var b := BoardOf(p, ss);
            && sMax > 0.0 && (forall t :: t in b.slots ==> 0.0 < b.Score(t) / sMax <= 1.0)
            && exists t :: t in b.slots && b.Score(t) / sMax == 1.0
  {
    hide SlotMap, WeightSum, HiWeightSum, ValidSources, Board.Score;
    var b := BoardOf(p, ss);
    TopIsPositive(p, ss, sMax);
    var top :| top in b.slots && (forall u :: u in b.slots ==> b.Score(u) <= b.Score(top))
               && sMax == if b.Score(top) == 0.0 then 1.0 else b.Score(top);
    BoardBounds(p, ss, top);
    Quotient(b.Score(top), sMax);
    forall t | t in b.slots ensures 0.0 < b.Score(t) / sMax <= 1.0 {
      BoardBounds(p, ss, t);
      Quotient(b.Score(t), sMax);
    }
  }
}
