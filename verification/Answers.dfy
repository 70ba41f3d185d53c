/** What a lookup answers, given the table alone. */
module Answers {
  import opened Bits
  import opened Dicts
  import opened HotEntries
  import opened Signatures
  import opened Types
  import opened HotTables
  import opened Spans
  import opened B = Backoff

  // ---------------------------------------------------------------- the evidence for a signature stack

  function TierMatches(p: StoreParams, h: Hot<Word>, sig: Word, order: nat, scopes: seq<Word>, seg: int,
                       depth: nat): seq<Match>
    requires order <= MAX_ORDER
    decreases |scopes| - depth
  {
    if depth >= |scopes| then [] else
      var e := if depth in p.scopeDepths then Probe(h, FoldKey(sig, order, scopes[depth], seg), seg) else None;
      (if e.Some? then [Match(order, depth, e.value)] else []) + TierMatches(p, h, sig, order, scopes, seg, depth + 1)
  }

  /** Signature `i` of a stack has order 2 + i; a stack may be longer than the highest order. */
  function SigMatches(p: StoreParams, h: Hot<Word>, sigs: seq<Word>, scopes: seq<Word>, seg: int, i: nat): seq<Match>
    decreases |sigs| - i
  {
    if i >= |sigs| || MIN_ORDER + i > MAX_ORDER then [] else
      (if MIN_ORDER + i in p.orders then TierMatches(p, h, sigs[i], MIN_ORDER + i, scopes, seg, 0) else [])
      + SigMatches(p, h, sigs, scopes, seg, i + 1)
  }

  /** The active tiers with their scope and segment parts folded in advance. */
  function Bases(p: StoreParams, scopes: seq<Word>, salt: Word, depth: nat): seq<(nat, Word)>
    decreases |scopes| - depth
  {
    if depth >= |scopes| then [] else
      (if depth in p.scopeDepths then [(depth, XorWord(scopes[depth], salt))] else []) +
      Bases(p, scopes, salt, depth + 1)
  }

  lemma {:induction false} BasesInRange(p: StoreParams, scopes: seq<Word>, salt: Word, depth: nat)
    requires p.TiersFit(|scopes|)
    ensures forall j :: 0 <= j < |Bases(p, scopes, salt, depth)| ==> Bases(p, scopes, salt, depth)[j].0 < 8
    decreases |scopes| - depth
  {
    hide XorWord;
    if depth < |scopes| { BasesInRange(p, scopes, salt, depth + 1); }
  }

  function BaseMatches(h: Hot<Word>, sigO: Word, order: nat, bases: seq<(nat, Word)>, seg: int): seq<Match> {
    if bases == [] then [] else
      var e := Probe(h, Mix(XorWord(sigO, bases[0].1)), seg);
      (if e.Some? then [Match(order, bases[0].0, e.value)] else []) + BaseMatches(h, sigO, order, bases[1..], seg)
  }

  /** Probing through the prepared tiers finds what probing with whole keys finds. */
  lemma {:induction false} BaseMatchesAre(p: StoreParams, h: Hot<Word>, sig: Word, order: nat, scopes: seq<Word>,
                                          seg: int, depth: nat)
    requires order <= MAX_ORDER
    ensures BaseMatches(h, XorWord(sig, OrderSalt(order)), order, Bases(p, scopes, SegSalt(seg), depth), seg)
         == TierMatches(p, h, sig, order, scopes, seg, depth)
    decreases |scopes| - depth
  {
    hide XorWord, OrderSalt, SegSalt, FoldKey, Mix, Probe;
    if depth < |scopes| {
      InlinedKey(sig, order, scopes[depth], seg);
      BaseMatchesAre(p, h, sig, order, scopes, seg, depth + 1);
      var rest := Bases(p, scopes, SegSalt(seg), depth + 1);
      var first := (depth, XorWord(scopes[depth], SegSalt(seg)));
      assert ([first] + rest)[1..] == rest && [] + rest == rest;
    }
  }

  lemma SigStep(p: StoreParams, h: Hot<Word>, sigs: seq<Word>, scopes: seq<Word>, seg: int, i: nat)
    ensures i >= |sigs| || MIN_ORDER + i > MAX_ORDER ==> SigMatches(p, h, sigs, scopes, seg, i) == []
    ensures i < |sigs| && MIN_ORDER + i <= MAX_ORDER && MIN_ORDER + i !in p.orders ==>
              SigMatches(p, h, sigs, scopes, seg, i) == SigMatches(p, h, sigs, scopes, seg, i + 1)
    ensures i < |sigs| && MIN_ORDER + i <= MAX_ORDER && MIN_ORDER + i in p.orders ==>
              SigMatches(p, h, sigs, scopes, seg, i) ==
              TierMatches(p, h, sigs[i], MIN_ORDER + i, scopes, seg, 0) + SigMatches(p, h, sigs, scopes, seg, i + 1)
  {
    hide TierMatches;
  }

  /** The key of a site's context, as the store computes it from the rolling signatures. */
  lemma SiteKey(s: Site, order: nat, depth: nat)
    requires MIN_ORDER <= order <= MAX_ORDER && order <= |s.before| && depth < |s.scopes|
    ensures order - MIN_ORDER < |StackOf(s.before)|
    ensures FoldKey(StackOf(s.before)[order - MIN_ORDER], order, s.scopes[depth], s.seg) ==
            Hash(ContextAt(s, order, depth))
  {
    hide Mix, XorWord, OrderSalt, SigOf, LastTokens;
    SaltsDiffer(order, order, s.seg, s.seg % 4);
  }

  lemma {:induction false} TierMatchesAre(p: StoreParams, h: Hot<Word>, s: Site, order: nat, depth: nat)
    requires MIN_ORDER <= order <= MAX_ORDER && order <= |s.before|
    ensures order - MIN_ORDER < |StackOf(s.before)|
    ensures TierMatches(p, h, StackOf(s.before)[order - MIN_ORDER], order, s.scopes, s.seg, depth) ==
            DepthMatches(p, Hash, h, s, order, depth)
    decreases |s.scopes| - depth
  {
    hide FoldKey, Hash, Probe, SigOf;
    if depth < |s.scopes| {
      SiteKey(s, order, depth);
      TierMatchesAre(p, h, s, order, depth + 1);
    }
  }

  lemma {:induction false} OrderMatchesAre(p: StoreParams, h: Hot<Word>, s: Site, i: nat)
    ensures SigMatches(p, h, StackOf(s.before), s.scopes, s.seg, i) == OrderMatches(p, Hash, h, s, MIN_ORDER + i)
    decreases MAX_ORDER - i
  {
    hide TierMatches, DepthMatches, SigOf;
    if MIN_ORDER + i <= MAX_ORDER && MIN_ORDER + i <= |s.before| {
      if MIN_ORDER + i in p.orders { TierMatchesAre(p, h, s, MIN_ORDER + i, 0); }
      OrderMatchesAre(p, h, s, i + 1);
    }
  }

  /** Probing with a context's signatures finds the matches of that context. */
  lemma SigMatchesAre(p: StoreParams, h: Hot<Word>, s: Site)
    ensures SigMatches(p, h, StackOf(s.before), s.scopes, s.seg, 0) == Matches(p, Hash, h, s)
  {
    OrderMatchesAre(p, h, s, 0);
  }

  // ---------------------------------------------------------------- listing an entry as a blend source

  ghost predicate ListsCands(cands: seq<B.Cand>, m: map<int, HotEntries.Cand>) {
    && DistinctToks(cands)
    && (forall i :: 0 <= i < |cands| ==> cands[i].tok in m && cands[i] == Tuple(cands[i].tok, m[cands[i].tok]))
    && (forall t :: t in m ==> Tuple(t, m[t]) in cands)
  }

  /** A source that presents the matched entry, its candidates in some order, with both totals filled in. */
  ghost predicate Presents(s: Source, m: Match) {
    && s.matchLen == m.order && s.scopeDepth == m.depth
    && ListsCands(s.cands, m.entry.cands)
    && s.total == CountSum(s.cands) && s.totalAcc == AccSum(s.cands)
  }

  ghost predicate PresentAll(ss: seq<Source>, ms: seq<Match>) {
    |ss| == |ms| && forall i :: 0 <= i < |ss| ==> Presents(ss[i], ms[i])
  }

  lemma ViewPresents(d: Dict<int, HotEntries.Cand>)
    requires d.Valid()
    ensures ListsCands(ViewOf(d).cands, d.m)
  {
    var cands := ViewOf(d).cands;
    forall t | t in d.m ensures Tuple(t, d.m[t]) in cands {
      var i :| 0 <= i < |d.keys| && d.keys[i] == t;
      assert cands[i] == Tuple(t, d.m[t]);
    }
  }

  /** `r` is a blend of the matched entries. */
  ghost predicate IsAnswer(p: BackoffParams, ms: seq<Match>, r: Option<Posterior>)
    requires p.Sane()
  {
    exists ss :: PresentAll(ss, ms) && ValidSources(ss) && IsBlend(p, ss, r)
  }

  lemma NothingPresented()
    ensures PresentAll([], []) && ValidSources([])
  {
  }

  lemma BlendAnswers(p: BackoffParams, ss: seq<Source>, ms: seq<Match>, r: Option<Posterior>)
    requires p.Sane() && PresentAll(ss, ms) && ValidSources(ss) && IsBlend(p, ss, r)
    ensures IsAnswer(p, ms, r)
  {
  }

  lemma SaneBackoff(p: StoreParams)
    requires p.Sane()
    ensures p.backoff.Sane()
  {
  }

  lemma {:induction false} NoDuplicates(cands: seq<B.Cand>, c: B.Cand)
    requires DistinctToks(cands)
    ensures multiset(cands)[c] == if c in cands then 1 else 0
  {
    if cands != [] {
      var last := cands[|cands| - 1];
      assert cands == cands[..|cands| - 1] + [last];
      NoDuplicates(cands[..|cands| - 1], c);
      if c in cands[..|cands| - 1] {
        var i :| 0 <= i < |cands| - 1 && cands[i] == c;
        assert c != last;
      }
    }
  }

  lemma SameCandidates(xs: seq<B.Cand>, ys: seq<B.Cand>, m: map<int, HotEntries.Cand>)
    requires ListsCands(xs, m) && ListsCands(ys, m)
    ensures multiset(xs) == multiset(ys)
  {
    forall c ensures multiset(xs)[c] == multiset(ys)[c] {
      NoDuplicates(xs, c);
      NoDuplicates(ys, c);
      if c in xs { var i :| 0 <= i < |xs| && xs[i] == c; assert Tuple(c.tok, m[c.tok]) in ys; }
      if c in ys { var i :| 0 <= i < |ys| && ys[i] == c; assert Tuple(c.tok, m[c.tok]) in xs; }
    }
  }

  /** A table's answer is unique: it cannot depend on how the entries happen to list their candidates. */
  lemma AnswerUnique(p: BackoffParams, ms: seq<Match>, r: Option<Posterior>, r': Option<Posterior>)
    requires p.Sane() && IsAnswer(p, ms, r) && IsAnswer(p, ms, r')
    ensures r == r'
  {
    hide IsBlend, ListsCands, ValidSource;
    var xs: seq<Source> :| PresentAll(xs, ms) && ValidSources(xs) && IsBlend(p, xs, r);
    var ys: seq<Source> :| PresentAll(ys, ms) && ValidSources(ys) && IsBlend(p, ys, r');
    forall i | 0 <= i < |xs| ensures Reordered(xs[i], ys[i]) {
      SameCandidates(xs[i].cands, ys[i].cands, ms[i].entry.cands);
    }
    OrderIndependent(p, xs, ys, ys, r, r');
  }

  /** The answer to a context, given by its tokens. */
  ghost function Answer(p: StoreParams, h: Hot<Word>, toks: seq<int>, scopes: seq<Word>, seg: int): Option<Posterior> {
    if p.Sane() && exists r :: IsAnswer(p.backoff, SigMatches(p, h, StackOf(toks), scopes, seg, 0), r)
    then var r :| IsAnswer(p.backoff, SigMatches(p, h, StackOf(toks), scopes, seg, 0), r); r
    else None
  }

  lemma AnswerIs(p: StoreParams, h: Hot<Word>, toks: seq<int>, scopes: seq<Word>, seg: int, r: Option<Posterior>)
    requires p.Sane() && IsAnswer(p.backoff, SigMatches(p, h, StackOf(toks), scopes, seg, 0), r)
    ensures Answer(p, h, toks, scopes, seg) == r
  {
    hide IsAnswer, SigMatches, StackOf;
    AnswerUnique(p.backoff, SigMatches(p, h, StackOf(toks), scopes, seg, 0), Answer(p, h, toks, scopes, seg), r);
  }

  /** Something is answered exactly when some matched entry has been observed at least once. */
  lemma AnswersIffObserved(p: BackoffParams, ms: seq<Match>, r: Option<Posterior>)
    requires p.Sane() && IsAnswer(p, ms, r)
    ensures r.Some? <==> exists i, t :: 0 <= i < |ms| && t in ms[i].entry.cands && !Dead(ms[i].entry.cands[t])
  {
    hide IsBlend, ValidSource;
    var ss: seq<Source> :| PresentAll(ss, ms) && ValidSources(ss) && IsBlend(p, ss, r);
    BlendsIffEvidence(p, ss, r);
    forall i | 0 <= i < |ss|
      ensures TotalCount(ss[i]) > 0 <==> exists t :: t in ms[i].entry.cands && !Dead(ms[i].entry.cands[t])
    {
      assert Presents(ss[i], ms[i]);
      Counted(ss[i].cands, ms[i].entry.cands);
    }
  }

  lemma Counted(cands: seq<B.Cand>, m: map<int, HotEntries.Cand>)
    requires ListsCands(cands, m)
    ensures CountSum(cands) > 0 <==> exists t :: t in m && !Dead(m[t])
  {
    SomeCount(cands);
    if t :| t in m && !Dead(m[t]) {
      var i :| 0 <= i < |cands| && cands[i] == Tuple(t, m[t]);
      assert cands[i].acc + cands[i].rej > 0;
    }
  }

  lemma {:induction false} SomeCount(cands: seq<B.Cand>)
    ensures CountSum(cands) > 0 <==> exists i :: 0 <= i < |cands| && cands[i].acc + cands[i].rej > 0
  {
    if cands != [] {
      SomeCount(cands[1..]);
      if CountSum(cands[1..]) > 0 {
        var i :| 0 <= i < |cands[1..]| && cands[1..][i].acc + cands[1..][i].rej > 0;
        assert cands[i + 1].acc + cands[i + 1].rej > 0;
      }
      if i :| 0 <= i < |cands| && cands[i].acc + cands[i].rej > 0 {
        if i > 0 { assert cands[1..][i - 1] == cands[i]; }
      }
    }
  }

  // ---------------------------------------------------------------- span proposals

  datatype SpanProposal = SpanProposal(tokens: seq<int>, breaks: seq<(nat, nat)>, count: nat, key: Word)

  /** The recorded breaks from `lo` up to below `hi`, by offset. */
  function BreaksFrom(breaks: map<nat, Break>, lo: nat, hi: nat): seq<(nat, nat)>
    decreases hi - lo
  {
    if lo >= hi then [] else (if lo in breaks then [(lo, breaks[lo].count)] else []) + BreaksFrom(breaks, lo + 1, hi)
  }

  /** The proposal lists every break once, in ascending order. */
  lemma {:induction false} BreaksAreListed(breaks: map<nat, Break>, lo: nat, hi: nat)
    ensures var l := BreaksFrom(breaks, lo, hi);
            && (forall i, j :: 0 <= i < j < |l| ==> l[i].0 < l[j].0)
            && (forall off, count :: (off, count) in l <==>
                off in breaks && lo <= off < hi && breaks[off].count == count)
    decreases hi - lo
  {
    if lo < hi {
      BreaksAreListed(breaks, lo + 1, hi);
      var rest := BreaksFrom(breaks, lo + 1, hi);
      forall i | 0 <= i < |rest| ensures lo < rest[i].0 { assert (rest[i].0, rest[i].1) in rest; }
    }
  }

  function Proposal(s: Span, key: Word): SpanProposal {
    SpanProposal(s.toks, BreaksFrom(s.breaks, 0, |s.toks|), s.count, key)
  }

  /** Spans are a feature of version 2. */
  function SpanAnswer(p: StoreParams, epochs: EpochTable, spans: map<Word, Span>, sigs: seq<Word>, scopes: seq<Word>,
                      seg: int): Option<SpanProposal> {
    if p.version < 2 then None else
      var best := FindSpan(p, epochs, spans, sigs, scopes, seg, 0, None);
      if best.None? then None else Some(Proposal(spans[best.value], best.value))
  }
}
