/** Which entries a lookup reads. */
module Evidence {
  import opened Bits
  import opened HotEntries
  import opened Signatures
  import opened Types
  import opened HotTables
  import opened LockStep
  import opened Backoff
  import opened Answers
  import opened Epochs

  /** The counter that a stamp of this scope and file is compared with; entries of no file compare with 0. */
  function CounterNow(epochs: map<(Word, int), nat>, scope: Word, file: int): nat {
    if file != 0 && (scope, file) in epochs then epochs[(scope, file)] else 0
  }

  /** The entry `e` is evidence for the query at this order and tier. */
  ghost predicate IsEvidence<K(!new)>(p: StoreParams, f: Naming<K>, h: Hot<K>, s: Site, order: nat, depth: nat,
                                      e: Entry)
  {
    && order in p.orders && 2 <= order <= 8 && order <= |s.before|
    && depth in p.scopeDepths && depth < |s.scopes|
    && var key := f(Context(order, s.scopes[depth], s.seg % 4, s.before[|s.before| - order..]));
    && key in h.table.m && h.table.m[key] == e
    && e.seg == s.seg && e.epoch == CounterNow(h.epochs, e.scope, e.dom)
  }

  predicate Earlier(m: Match, n: Match) {
    m.order < n.order || (m.order == n.order && m.depth < n.depth)
  }

  ghost predicate Ascending(ms: seq<Match>) {
    forall i, j :: 0 <= i < j < |ms| ==> Earlier(ms[i], ms[j])
  }

  lemma ProbeIs<K(!new)>(p: StoreParams, f: Naming<K>, h: Hot<K>, s: Site, order: nat, depth: nat, e: Entry)
    requires order in p.orders && 2 <= order <= 8 && order <= |s.before| && depth < |s.scopes|
    ensures depth in p.scopeDepths && Probe(h, f(ContextAt(s, order, depth)), s.seg) == Some(e) <==>
            IsEvidence(p, f, h, s, order, depth, e)
  {
    assert LastTokens(s.before, order) == s.before[|s.before| - order..];
  }

  lemma {:induction false} DepthMatchesAre<K(!new)>(p: StoreParams, f: Naming<K>, h: Hot<K>, s: Site, order: nat,
                                                    depth: nat)
    requires order in p.orders && 2 <= order <= 8 && order <= |s.before|
    ensures var ms := DepthMatches(p, f, h, s, order, depth);
            && (forall m :: m in ms <==>
                m.order == order && m.depth >= depth && IsEvidence(p, f, h, s, m.order, m.depth, m.entry))
            && Ascending(ms)
    decreases |s.scopes| - depth
  {
    hide Probe, IsEvidence, Ascending;
    var ms := DepthMatches(p, f, h, s, order, depth);
    if depth < |s.scopes| {
      DepthMatchesAre(p, f, h, s, order, depth + 1);
      var rest := DepthMatches(p, f, h, s, order, depth + 1);
      var e := if depth in p.scopeDepths then Probe(h, f(ContextAt(s, order, depth)), s.seg) else None;
      var here := if e.Some? then [Match(order, depth, e.value)] else [];
      assert ms == here + rest;
      forall m: Match ensures m in here <==>
                              m.order == order && m.depth == depth && IsEvidence(p, f, h, s, m.order, m.depth, m.entry)
      {
        ProbeIs(p, f, h, s, order, depth, m.entry);
      }
      forall i, j | 0 <= i < |here| && 0 <= j < |rest| ensures Earlier(here[i], rest[j]) { assert rest[j] in rest; }
      OneThenOthers(here, rest);
    } else {
      NothingAscends();
      forall m: Match | m.order == order && m.depth >= depth
        ensures !IsEvidence(p, f, h, s, m.order, m.depth, m.entry)
      {
        WithinRange(p, f, h, s, m);
      }
    }
  }

  lemma OneThenOthers(a: seq<Match>, b: seq<Match>)
    requires Ascending(a) || |a| <= 1
    requires Ascending(b) && forall i, j :: 0 <= i < |a| && 0 <= j < |b| ==> Earlier(a[i], b[j])
    ensures Ascending(a + b)
  {
    hide Earlier;
  }

  lemma NothingAscends()
    ensures Ascending([])
  {
  }

  lemma WithinRange<K(!new)>(p: StoreParams, f: Naming<K>, h: Hot<K>, s: Site, m: Match)
    ensures IsEvidence(p, f, h, s, m.order, m.depth, m.entry) ==>
              m.order in p.orders && 2 <= m.order <= 8 && m.order <= |s.before| && m.depth < |s.scopes|
  {
  }

  lemma {:induction false} OrderMatchesAre<K(!new)>(p: StoreParams, f: Naming<K>, h: Hot<K>, s: Site, order: nat)
    requires 2 <= order
    ensures var ms := OrderMatches(p, f, h, s, order);
            && (forall m :: m in ms <==> m.order >= order && IsEvidence(p, f, h, s, m.order, m.depth, m.entry))
            && Ascending(ms)
    decreases MAX_ORDER + 1 - order
  {
    hide IsEvidence, DepthMatches, Ascending;
    if order <= MAX_ORDER && order <= |s.before| {
      OrderMatchesAre(p, f, h, s, order + 1);
      var rest := OrderMatches(p, f, h, s, order + 1);
      var here := if order in p.orders then DepthMatches(p, f, h, s, order, 0) else [];
      assert OrderMatches(p, f, h, s, order) == here + rest;
      if order in p.orders { DepthMatchesAre(p, f, h, s, order, 0); }
      forall m: Match ensures m in here <==> m.order == order && IsEvidence(p, f, h, s, m.order, m.depth, m.entry) {
        WithinRange(p, f, h, s, m);
      }
      forall i, j | 0 <= i < |here| && 0 <= j < |rest| ensures Earlier(here[i], rest[j]) {
        assert here[i] in here && rest[j] in rest;
      }
      OneThenOthers(here, rest);
    } else {
      NothingAscends();
      forall m: Match | m.order >= order ensures !IsEvidence(p, f, h, s, m.order, m.depth, m.entry) {
        WithinRange(p, f, h, s, m);
      }
    }
  }

  /** A lookup blends exactly the evidence, each entry once, by order and then by tier. */
  lemma MatchesAreEvidence<K(!new)>(p: StoreParams, f: Naming<K>, h: Hot<K>, s: Site)
    ensures forall m :: m in Matches(p, f, h, s) <==> IsEvidence(p, f, h, s, m.order, m.depth, m.entry)
    ensures Ascending(Matches(p, f, h, s))
  {
    hide IsEvidence, OrderMatches;
    OrderMatchesAre(p, f, h, s, 2);
    forall m: Match ensures IsEvidence(p, f, h, s, m.order, m.depth, m.entry) ==> m.order >= 2 {
      WithinRange(p, f, h, s, m);
    }
  }

  /** So does a lookup through the rolling signatures. */
  lemma LookupReadsEvidence(p: StoreParams, h: Hot<Word>, s: Site)
    ensures var ms := SigMatches(p, h, StackOf(s.before), s.scopes, s.seg, 0);
            (forall m :: m in ms <==> IsEvidence(p, Hash, h, s, m.order, m.depth, m.entry)) && Ascending(ms)
  {
    hide *;
    SigMatchesAre(p, h, s);
    MatchesAreEvidence(p, Hash, h, s);
  }

  // ---------------------------------------------------------------- what is blended

  /** The source gives the entry's own counts and codes, token by token; an unknown code counts as the least
      probable. */
  ghost predicate Reads(s: Source, m: Match) {
    && s.matchLen == m.order && s.scopeDepth == m.depth
    && (forall i, j :: 0 <= i < j < |s.cands| ==> s.cands[i].tok != s.cands[j].tok)
    && (forall i :: 0 <= i < |s.cands| ==>
          var c := s.cands[i];
          && c.tok in m.entry.cands
          && var e := m.entry.cands[c.tok];
          c.acc == e.acc && c.rej == e.rej && c.q8 == if e.q8 < 0 then 255 else e.q8)
    && (forall t :: t in m.entry.cands ==> exists i :: 0 <= i < |s.cands| && s.cands[i].tok == t)
  }

  /** An answer is the blend of sources that read the matched entries, one for each. */
  lemma AnswerReadsEntries(p: BackoffParams, ms: seq<Match>, r: Option<Posterior>) returns (ss: seq<Source>)
    requires p.Sane() && IsAnswer(p, ms, r)
    ensures |ss| == |ms| && ValidSources(ss) && IsBlend(p, ss, r)
    ensures forall i :: 0 <= i < |ss| ==> Reads(ss[i], ms[i])
  {
    hide IsBlend, ValidSource;
    ss :| PresentAll(ss, ms) && ValidSources(ss) && IsBlend(p, ss, r);
    forall i | 0 <= i < |ss| ensures Reads(ss[i], ms[i]) {
      assert Presents(ss[i], ms[i]);
      PresentedIsRead(ss[i], ms[i]);
    }
  }

  lemma PresentedIsRead(s: Source, m: Match)
    requires Presents(s, m)
    ensures Reads(s, m)
  {
    forall t | t in m.entry.cands ensures exists i :: 0 <= i < |s.cands| && s.cands[i].tok == t {
      var c := Tuple(t, m.entry.cands[t]);
      assert c in s.cands;
      var i :| 0 <= i < |s.cands| && s.cands[i] == c;
      assert s.cands[i].tok == t;
    }
  }

  // ---------------------------------------------------------------- edits silence what was written before them

  /** After any run, what a lookup reads belongs to no file, or its file was edited, since the entry's last stamp and in
      its scope, a multiple of 65536 times. */
  lemma EvidenceIsCurrent(p: StoreParams, all: iset<Context>, ops: seq<Op>, s: Site, m: Match)
    requires WellFormedOps(ops) && InjectiveOn(Hash, all) && OpsIn(p, ops, all) && SiteIn(p, s, all)
    requires m in SigMatches(p, Run(p, Hash, ops).hot, StackOf(s.before), s.scopes, s.seg, 0)
    ensures m.order <= |s.before| && m.depth < |s.scopes|
    ensures var c := Context(m.order, s.scopes[m.depth], s.seg % 4, s.before[|s.before| - m.order..]);
            && LastStamp(p, Trace(p, ops), c) <= |Trace(p, ops)|
            && (m.entry.dom == 0 ||
                Bumps(Trace(p, ops)[LastStamp(p, Trace(p, ops), c)..], c.scope, m.entry.dom) % EPOCHS == 0)
  {
    hide Run, Trace, Bumps, LastStamp, InjectiveOn, Mirror, OpsIn, SigMatches, Hash, SiteIn;
    var h := Run(p, Hash, ops).hot;
    LookupReadsEvidence(p, h, s);
    SiteHas(p, s, all, m.order, m.depth);
    var c := Context(m.order, s.scopes[m.depth], s.seg % 4, s.before[|s.before| - m.order..]);
    RunInLockStep(p, Hash, all, ops);
    MirrorLookup(Hash, all, Run(p, EXACT, ops).hot.table, h.table, c);
    ExactFreshIff(p, ops, c);
  }

  lemma SiteHas(p: StoreParams, s: Site, all: iset<Context>, order: nat, depth: nat)
    requires SiteIn(p, s, all) && order in p.orders && 2 <= order <= 8 && order <= |s.before|
    requires depth in p.scopeDepths && depth < |s.scopes|
    ensures Context(order, s.scopes[depth], s.seg % 4, s.before[|s.before| - order..]) in all
  {
    assert LastTokens(s.before, order) == s.before[|s.before| - order..];
    assert ContextAt(s, order, depth) in all;
  }

  /** One edit of a file, and up to 65535 of them, silence every entry of that file in that scope which was not stamped
      again since: no lookup reads it. */
  lemma EditsSilence(p: StoreParams, all: iset<Context>, ops: seq<Op>, s: Site, m: Match, since: nat)
    requires WellFormedOps(ops) && InjectiveOn(Hash, all) && OpsIn(p, ops, all) && SiteIn(p, s, all)
    requires m.order <= |s.before| && m.depth < |s.scopes| && m.entry.dom != 0
    requires var c := Context(m.order, s.scopes[m.depth], s.seg % 4, s.before[|s.before| - m.order..]);
             && LastStamp(p, Trace(p, ops), c) <= since <= |Trace(p, ops)|
             && 0 < Bumps(Trace(p, ops)[since..], c.scope, m.entry.dom)
             && Bumps(Trace(p, ops)[LastStamp(p, Trace(p, ops), c)..], c.scope, m.entry.dom) < EPOCHS
    ensures m !in SigMatches(p, Run(p, Hash, ops).hot, StackOf(s.before), s.scopes, s.seg, 0)
  {
    hide Run, Trace, Bumps, LastStamp, InjectiveOn, Mirror, OpsIn, SigMatches, Hash, SiteIn;
    var c := Context(m.order, s.scopes[m.depth], s.seg % 4, s.before[|s.before| - m.order..]);
    var t, k := Trace(p, ops), LastStamp(p, Trace(p, ops), c);
    BumpsSplit(t[k..], since - k, c.scope, m.entry.dom);
    assert t[k..][since - k..] == t[since..];
    if m in SigMatches(p, Run(p, Hash, ops).hot, StackOf(s.before), s.scopes, s.seg, 0) {
      EvidenceIsCurrent(p, all, ops, s, m);
    }
  }
}
