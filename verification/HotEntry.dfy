/** Hot-table entries: candidate counts with an adaptive capacity, coverage tracking and a derived-tuple cache. */
module HotEntries {
  import opened Bits
  import opened Dicts
  import Backoff

  const U16_MAX: int := 0xFFFF

  datatype Params = Params(kInit: nat, kMax: nat, coverageTarget: real, decayShift: nat) {
    ghost predicate Sane() {
      1 <= kInit <= kMax && decayShift >= 1
    }
  }

  /** Accepted and rejected counts, and the q8 log-probability with -1 for "never observed". */
  datatype Cand = Cand(acc: nat, rej: nat, q8: int)

  const NEW_CAND: Cand := Cand(0, 0, -1)

  /** What an entry stands for: the cache is derived, and the order of the candidates carries no meaning. */
  datatype Entry = Entry(seg: int, dom: int, scope: Word, epoch: nat, kCap: nat, cov: real, cands: map<int, Cand>)

  // ---------------------------------------------------------------- operations on the meaning

  function Fresh(seg: int, dom: int, scope: Word, epoch: nat, kInit: nat): Entry {
    Entry(seg, dom, scope, epoch, kInit, 1.0, map[])
  }

  /** Dropping the candidates keeps the capacity that was reached. */
  function ResetEntry(e: Entry, epoch: nat, dom: int): Entry {
    e.(cands := map[], epoch := epoch, dom := dom, cov := 1.0)
  }

  /** Eviction order: fewer observations, then lower probability, then the larger token. */
  predicate Weaker(c: Cand, t: int, d: Cand, u: int) {
    var p, q := if c.q8 >= 0 then c.q8 else 256, if d.q8 >= 0 then d.q8 else 256;
    || c.acc + c.rej < d.acc + d.rej
    || (c.acc + c.rej == d.acc + d.rej && (p > q || (p == q && t > u)))
  }

  ghost predicate IsWeakest(m: map<int, Cand>, t: int) {
    t in m && forall u :: u in m && u != t ==> Weaker(m[t], t, m[u], u)
  }

  lemma WeakestExists(m: map<int, Cand>)
    requires m != map[]
    ensures exists t :: IsWeakest(m, t)
  {
    var t := SomeMember(m.Keys);
    var rest := m - {t};
    if rest == map[] {
      assert forall u :: u in m && u != t ==> u in rest;
      assert IsWeakest(m, t);
    } else {
      WeakestExists(rest);
      var w :| IsWeakest(rest, w);
      assert forall u :: u in m && u != t ==> u in rest && rest[u] == m[u];
      if Weaker(m[t], t, m[w], w) { assert IsWeakest(m, t); } else { assert IsWeakest(m, w); }
    }
  }

  ghost function Weakest(m: map<int, Cand>): int
    requires m != map[]
  {
    WeakestExists(m);
    var t :| IsWeakest(m, t); t
  }

  lemma WeakestUnique(m: map<int, Cand>, t: int)
    requires IsWeakest(m, t)
    ensures m != map[] && Weakest(m) == t
  {
    WeakestExists(m);
    assert IsWeakest(m, Weakest(m));
  }

  ghost function WithoutWeakest(m: map<int, Cand>): map<int, Cand> {
    if m == map[] then m else m - {Weakest(m)}
  }

  predicate MayGrow(p: Params, e: Entry) {
    e.cov < p.coverageTarget && e.kCap < p.kMax
  }

  function Grown(p: Params, e: Entry): Entry {
    e.(kCap := if e.kCap * 2 < p.kMax then e.kCap * 2 else p.kMax)
  }

  /** Makes room for `tok`: grows below the coverage target, otherwise evicts the weakest candidate. */
  ghost function Ensured(p: Params, e: Entry, tok: int): Entry {
    if tok in e.cands then e
    else if |e.cands| < e.kCap then e.(cands := e.cands[tok := NEW_CAND])
    else if MayGrow(p, e) then Grown(p, e).(cands := e.cands[tok := NEW_CAND])
    else e.(cands := WithoutWeakest(e.cands)[tok := NEW_CAND])
  }

  function Saturating(n: nat): nat {
    if n < U16_MAX then n + 1 else n
  }

  ghost function Realized(p: Params, e: Entry, tok: int): Entry {
    var f := Ensured(p, e, tok);
    f.(cands := f.cands[tok := f.cands[tok].(acc := Saturating(f.cands[tok].acc))])
  }

  ghost function Rejected(p: Params, e: Entry, tok: int): Entry {
    var f := Ensured(p, e, tok);
    f.(cands := f.cands[tok := f.cands[tok].(rej := Saturating(f.cands[tok].rej))])
  }

  /** The share of the observed ids that the entry already holds. */
  function Covered(m: map<int, Cand>, ids: seq<int>): nat {
    if ids == [] then 0 else (if ids[0] in m then 1 else 0) + Covered(m, ids[1..])
  }

  function Faded(c: Cand): Cand {
    if c.q8 < 0 then c else c.(q8 := if c.q8 < 240 then c.q8 + 16 else 255)
  }

  function FadeOthers(m: map<int, Cand>, ids: seq<int>): map<int, Cand> {
    map t | t in m :: if t in ids then m[t] else Faded(m[t])
  }

  function Observe(p: Params, e: Entry, t: int, q: int): Entry {
    if t in e.cands then
      var c := e.cands[t];
      e.(cands := e.cands[t := c.(q8 := if c.q8 < 0 then q else (3 * c.q8 + q) / 4)])
    else if |e.cands| < e.kCap then e.(cands := e.cands[t := Cand(0, 0, q)])
    else if MayGrow(p, e) then Grown(p, e).(cands := e.cands[t := Cand(0, 0, q)])
    else e
  }

  function ObserveAll(p: Params, e: Entry, ids: seq<int>, q8s: seq<int>): Entry
    decreases |ids|
  {
    if ids == [] || q8s == [] then e
    else ObserveAll(p, Observe(p, e, ids[0], q8s[0]), ids[1..], q8s[1..])
  }

  function Merged(p: Params, e: Entry, ids: seq<int>, q8s: seq<int>): Entry {
    if ids == [] then e else
      var cov := 0.75 * e.cov + 0.25 * (Covered(e.cands, ids) as real / |ids| as real);
      ObserveAll(p, e.(cov := cov, cands := FadeOthers(e.cands, ids)), ids, q8s)
  }

  function Halved(p: Params, c: Cand): Cand {
    Cand(Shr(c.acc, p.decayShift), Shr(c.rej, p.decayShift), c.q8)
  }

  predicate Dead(c: Cand) {
    c.acc == 0 && c.rej == 0
  }

  function LiveCands(p: Params, m: map<int, Cand>): map<int, Cand> {
    map t | t in m && !Dead(Halved(p, m[t])) :: Halved(p, m[t])
  }

  function Decayed(p: Params, e: Entry): Entry {
    var k := if e.kCap < p.kMax then e.kCap else p.kMax;
    e.(cands := LiveCands(p, e.cands),
       kCap := if k > p.kInit then k else p.kInit)
  }

  // ---------------------------------------------------------------- what every entry keeps

  predicate CandOk(c: Cand) {
    c.acc <= U16_MAX && c.rej <= U16_MAX && -1 <= c.q8 <= 255
  }

  ghost predicate EntryOk(p: Params, e: Entry) {
    && 1 <= e.kCap <= p.kMax && |e.cands| <= e.kCap
    && 0.0 <= e.cov <= 1.0
    && forall t :: t in e.cands ==> CandOk(e.cands[t])
  }

  ghost predicate Q8sOk(q8s: seq<int>) {
    forall i :: 0 <= i < |q8s| ==> 0 <= q8s[i] <= 255
  }

  lemma EnsuredOk(p: Params, e: Entry, tok: int)
    requires p.Sane() && EntryOk(p, e)
    ensures EntryOk(p, Ensured(p, e, tok)) && tok in Ensured(p, e, tok).cands
  {
    if tok !in e.cands && |e.cands| >= e.kCap && !MayGrow(p, e) {
      var w := Weakest(e.cands);
      WeakestExists(e.cands);
      assert w in e.cands;
      assert |e.cands - {w}| == |e.cands| - 1 by { MapWithout(e.cands, w); }
    }
  }

  lemma MapWithout(m: map<int, Cand>, w: int)
    requires w in m
    ensures |m - {w}| == |m| - 1
  {
    assert (m - {w}).Keys == m.Keys - {w};
  }

  lemma RealizedOk(p: Params, e: Entry, tok: int)
    requires p.Sane() && EntryOk(p, e)
    ensures EntryOk(p, Realized(p, e, tok)) && EntryOk(p, Rejected(p, e, tok))
  {
    EnsuredOk(p, e, tok);
    var f := Ensured(p, e, tok);
    assert f.cands[tok := f.cands[tok].(acc := Saturating(f.cands[tok].acc))].Keys == f.cands.Keys;
    assert f.cands[tok := f.cands[tok].(rej := Saturating(f.cands[tok].rej))].Keys == f.cands.Keys;
  }

  lemma ObserveOk(p: Params, e: Entry, t: int, q: int)
    requires p.Sane() && EntryOk(p, e) && 0 <= q <= 255
    ensures EntryOk(p, Observe(p, e, t, q))
  {
    if t in e.cands {
      assert Observe(p, e, t, q).cands.Keys == e.cands.Keys;
    }
  }

  lemma {:induction false} ObserveAllOk(p: Params, e: Entry, ids: seq<int>, q8s: seq<int>)
    requires p.Sane() && EntryOk(p, e) && Q8sOk(q8s)
    ensures EntryOk(p, ObserveAll(p, e, ids, q8s))
    decreases |ids|
  {
    if ids != [] && q8s != [] {
      ObserveOk(p, e, ids[0], q8s[0]);
      ObserveAllOk(p, Observe(p, e, ids[0], q8s[0]), ids[1..], q8s[1..]);
    }
  }

  lemma {:induction false} CoveredBound(m: map<int, Cand>, ids: seq<int>)
    ensures Covered(m, ids) <= |ids|
  {
    if ids != [] { CoveredBound(m, ids[1..]); }
  }

  lemma MergedOk(p: Params, e: Entry, ids: seq<int>, q8s: seq<int>)
    requires p.Sane() && EntryOk(p, e) && Q8sOk(q8s)
    ensures EntryOk(p, Merged(p, e, ids, q8s))
  {
    if ids != [] {
      CoveredBound(e.cands, ids);
      var x := Covered(e.cands, ids) as real / |ids| as real;
      Backoff.Quotient(Covered(e.cands, ids) as real, |ids| as real);
      assert FadeOthers(e.cands, ids).Keys == e.cands.Keys;
      ObserveAllOk(p, e.(cov := 0.75 * e.cov + 0.25 * x, cands := FadeOthers(e.cands, ids)), ids, q8s);
    }
  }

  /** Top-k observations never drop a candidate and never touch its counts. */
  lemma MergeKeepsCounts(p: Params, e: Entry, ids: seq<int>, q8s: seq<int>, t: int)
    requires t in e.cands
    ensures t in Merged(p, e, ids, q8s).cands
    ensures Merged(p, e, ids, q8s).cands[t].acc == e.cands[t].acc
    ensures Merged(p, e, ids, q8s).cands[t].rej == e.cands[t].rej
  {
    if ids != [] {
      var cov := 0.75 * e.cov + 0.25 * (Covered(e.cands, ids) as real / |ids| as real);
      ObserveKeepsCounts(p, e.(cov := cov, cands := FadeOthers(e.cands, ids)), ids, q8s, t);
    }
  }

  lemma {:induction false} ObserveKeepsCounts(p: Params, e: Entry, ids: seq<int>, q8s: seq<int>, t: int)
    requires t in e.cands
    ensures t in ObserveAll(p, e, ids, q8s).cands
    ensures ObserveAll(p, e, ids, q8s).cands[t].acc == e.cands[t].acc
    ensures ObserveAll(p, e, ids, q8s).cands[t].rej == e.cands[t].rej
    decreases |ids|
  {
    if ids != [] && q8s != [] {
      ObserveKeepsCounts(p, Observe(p, e, ids[0], q8s[0]), ids[1..], q8s[1..], t);
    }
  }

  /** New candidates from a top-k observation carry no counts. */
  lemma {:induction false} ObservedNewcomers(p: Params, e: Entry, ids: seq<int>, q8s: seq<int>, t: int)
    requires t !in e.cands && t in ObserveAll(p, e, ids, q8s).cands
    ensures Dead(ObserveAll(p, e, ids, q8s).cands[t])
    decreases |ids|
  {
    if ids != [] && q8s != [] {
      var f := Observe(p, e, ids[0], q8s[0]);
      if t in f.cands { ObserveKeepsCounts(p, f, ids[1..], q8s[1..], t); }
      else { ObservedNewcomers(p, f, ids[1..], q8s[1..], t); }
    }
  }

  lemma DecayedOk(p: Params, e: Entry)
    requires p.Sane() && EntryOk(p, e)
    ensures EntryOk(p, Decayed(p, e))
  {
    var d := Decayed(p, e);
    assert d.cands.Keys <= e.cands.Keys;
    SubsetSize(d.cands.Keys, e.cands.Keys);
    forall t | t in d.cands ensures CandOk(d.cands[t]) {
      ShrSmaller(e.cands[t].acc, p.decayShift);
      ShrSmaller(e.cands[t].rej, p.decayShift);
    }
  }

  lemma {:induction false} SubsetSize(a: set<int>, b: set<int>)
    requires a <= b
    ensures |a| <= |b|
  {
    if a != {} {
      var x := SomeMember(a);
      SubsetSize(a - {x}, b - {x});
    }
  }

  // ---------------------------------------------------------------- the class

  /** The tuple that a blend reads for one candidate; an unobserved probability counts as the lowest. */
  function Tuple(tok: int, c: Cand): Backoff.Cand {
    Backoff.Cand(tok, c.acc, c.rej, if c.q8 >= 0 then c.q8 else 255)
  }

  function Tuples(keys: seq<int>, m: map<int, Cand>): seq<Backoff.Cand>
    requires forall k :: k in keys ==> k in m
  {
    seq(|keys|, i requires 0 <= i < |keys| => assert keys[i] in keys; Tuple(keys[i], m[keys[i]]))
  }

  datatype SourcesView = SourcesView(cands: seq<Backoff.Cand>, total: nat, totalAcc: nat)

  ghost function ViewOf(d: Dict<int, Cand>): SourcesView
    requires d.Valid()
  {
    var t := Tuples(d.keys, d.m);
    SourcesView(t, Backoff.CountSum(t), Backoff.AccSum(t))
  }

  class HotEntry {
    const key: Word
    const seg: int
    const scopeId: Word
    var dom: int
    var epoch: nat
    var kCap: nat
    var covEma: real
    var cands: Dict<int, Cand>
    var src: Backoff.Option<SourcesView>

    ghost function View(): Entry
      reads this
    {
      Entry(seg, dom, scopeId, epoch, kCap, covEma, cands.m)
    }

    /** A cache that is present equals its recomputation. */
    ghost predicate Valid()
      reads this
    {
      cands.Valid() && (src.Some? ==> src.value == ViewOf(cands))
    }

    constructor (key: Word, seg: int, dom: int, scopeId: Word, epoch: nat, kInit: nat)
      ensures Valid() && this.key == key && src.None?
      ensures View() == Fresh(seg, dom, scopeId, epoch, kInit)
    {
      this.key, this.seg, this.dom, this.scopeId, this.epoch := key, seg, dom, scopeId, epoch;
      kCap, covEma, cands, src := kInit, 1.0, EmptyDict(), Backoff.None;
    }

    method Invalidate()
      requires cands.Valid()
      modifies this`src
      ensures Valid() && src.None?
    {
      src := Backoff.None;
    }

    method Reset(epoch: nat, dom: int)
      requires Valid()
      modifies this
      ensures Valid() && View() == ResetEntry(old(View()), epoch, dom)
    {
      cands := EmptyDict();
      this.epoch := epoch;
      this.dom := dom;
      covEma := 1.0;
      src := Backoff.None;
    }

    method EvictWeakest(protect: int)
      requires cands.Valid()
      modifies this`cands
      ensures cands.Valid()
      ensures cands.m == if old(cands).m - {protect} == map[] then old(cands).m else
                           old(cands).m - {Weakest(old(cands).m - {protect})}
      ensures protect !in old(cands).m ==> cands.m == WithoutWeakest(old(cands).m)
    {
      var victim: Backoff.Option<int> := Backoff.None;
      ghost var others := cands.m - {protect};
      for i := 0 to |cands.keys|
        invariant cands == old(cands)
        invariant victim.Some? ==> victim.value in others
        invariant forall j :: 0 <= j < i && cands.keys[j] != protect ==> victim.Some?
        invariant forall j :: 0 <= j < i && cands.keys[j] != protect && cands.keys[j] != victim.value
                    ==> Weaker(cands.m[victim.value], victim.value, cands.m[cands.keys[j]], cands.keys[j])
      {
        var tok := cands.keys[i];
        if tok != protect {
          if victim == Backoff.None || Weaker(cands.m[tok], tok, cands.m[victim.value], victim.value) {
            victim := Backoff.Some(tok);
          }
        }
      }
      if victim.Some? {
        forall u | u in others && u != victim.value ensures Weaker(others[victim.value], victim.value, others[u], u) {
          assert u in cands.keys;
        }
        WeakestUnique(others, victim.value);
        RemoveValid(cands, victim.value);
        cands := cands.Remove(victim.value);
        assert protect !in old(cands).m ==> others == old(cands).m;
      } else {
        forall u ensures u !in others.Keys {
          assert u in others ==> u in cands.keys;
        }
        NoMembers(others.Keys);
      }
    }

    /** Returns nothing: the candidate's record is found in the table again. */
    method Ensure(p: Params, tok: int)
      requires cands.Valid()
      modifies this`cands, this`kCap
      ensures cands.Valid() && View() == Ensured(p, old(View()), tok) && tok in cands.m
    {
      if tok !in cands.m {
        SizeIsLength(cands);
        if |cands.keys| >= kCap {
          if covEma < p.coverageTarget && kCap < p.kMax {
            kCap := if kCap * 2 < p.kMax then kCap * 2 else p.kMax;
          } else {
            EvictWeakest(tok);
          }
        }
        cands := cands.Put(tok, NEW_CAND);
      }
    }

    method UpdateRealized(p: Params, tok: int)
      requires Valid()
      modifies this
      ensures Valid() && View() == Realized(p, old(View()), tok)
    {
      Ensure(p, tok);
      var c := cands.m[tok];
      cands := cands.Put(tok, c.(acc := Saturating(c.acc)));
      src := Backoff.None;
    }

    method UpdateRejected(p: Params, tok: int)
      requires Valid()
      modifies this
      ensures Valid() && View() == Rejected(p, old(View()), tok)
    {
      Ensure(p, tok);
      var c := cands.m[tok];
      cands := cands.Put(tok, c.(rej := Saturating(c.rej)));
      src := Backoff.None;
    }

    method MergeTopk(p: Params, ids: seq<int>, q8s: seq<int>)
      requires Valid()
      modifies this
      ensures Valid() && View() == Merged(p, old(View()), ids, q8s)
    {
      hide FadeOthers, Observe, Covered;
      if ids == [] { return; }
      var covered := CountCovered(ids);
      covEma := 0.75 * covEma + 0.25 * (covered as real / |ids| as real);
      Fade(ids);
      ghost var start := View();
      var i := 0;
      while i < |ids| && i < |q8s|
        invariant 0 <= i <= |ids| && i <= |q8s| && cands.Valid()
        invariant ObserveAll(p, start, ids, q8s) == ObserveAll(p, View(), ids[i..], q8s[i..])
      {
        ObserveOne(p, ids[i], q8s[i]);
        assert ids[i..][1..] == ids[i + 1..] && q8s[i..][1..] == q8s[i + 1..];
        i := i + 1;
      }
      src := Backoff.None;
    }

    method CountCovered(ids: seq<int>) returns (n: nat)
      ensures n == Covered(cands.m, ids)
    {
      n := 0;
      for i := 0 to |ids|
        invariant n + Covered(cands.m, ids[i..]) == Covered(cands.m, ids)
      {
        assert ids[i..][1..] == ids[i + 1..];
        n := n + if ids[i] in cands.m then 1 else 0;
      }
    }

    /** The negative evidence of a truncated distribution: candidates it leaves out lose one nat. */
    method Fade(ids: seq<int>)
      requires cands.Valid()
      modifies this`cands
      ensures cands.Valid() && cands.keys == old(cands).keys && cands.m == FadeOthers(old(cands).m, ids)
    {
      var keys := cands.keys;
      for i := 0 to |keys|
        invariant cands.keys == keys == old(cands).keys && cands.m.Keys == old(cands).m.Keys
        invariant forall j :: 0 <= j < |keys| ==>
                    cands.m[keys[j]] == if j < i && keys[j] !in ids then Faded(old(cands).m[keys[j]])
                                        else old(cands).m[keys[j]]
      {
        var c := cands.m[keys[i]];
        if c.q8 >= 0 && keys[i] !in ids {
          cands := Dict(keys, cands.m[keys[i] := c.(q8 := if c.q8 < 240 then c.q8 + 16 else 255)]);
        }
      }
      forall t | t in cands.m ensures cands.m[t] == FadeOthers(old(cands).m, ids)[t] {
        assert t in keys;
      }
    }

    method ObserveOne(p: Params, t: int, q: int)
      requires cands.Valid()
      modifies this`cands, this`kCap
      ensures cands.Valid() && View() == Observe(p, old(View()), t, q)
    {
      if t in cands.m {
        var c := cands.m[t];
        cands := cands.Put(t, c.(q8 := if c.q8 < 0 then q else (3 * c.q8 + q) / 4));
      } else {
        SizeIsLength(cands);
        if |cands.keys| >= kCap {
          if covEma < p.coverageTarget && kCap < p.kMax {
            kCap := if kCap * 2 < p.kMax then kCap * 2 else p.kMax;
          } else {
            return;
          }
        }
        cands := cands.Put(t, Cand(0, 0, q));
      }
    }

    /** Recomputes the cached view only after a mutation. */
    method Sources() returns (v: SourcesView)
      requires Valid()
      modifies this`src
      ensures Valid() && v == ViewOf(cands)
    {
      if src.None? {
        var tuples: seq<Backoff.Cand> := [];
        var total, totalAcc := 0, 0;
        ghost var all := Tuples(cands.keys, cands.m);
        for i := 0 to |cands.keys|
          invariant tuples == all[..i]
          invariant total + Backoff.CountSum(all[i..]) == Backoff.CountSum(all)
          invariant totalAcc + Backoff.AccSum(all[i..]) == Backoff.AccSum(all)
        {
          var tok := cands.keys[i];
          var t := Tuple(tok, cands.m[tok]);
          assert all[i..][1..] == all[i + 1..] && all[i] == t;
          tuples := tuples + [t];
          total, totalAcc := total + t.acc + t.rej, totalAcc + t.acc;
        }
        assert all[..|cands.keys|] == all;
        src := Backoff.Some(SourcesView(tuples, total, totalAcc));
      }
      v := src.value;
    }

    /** Compaction's part in an entry: halve the counts, drop what reaches zero, and let the cache go. */
    method Decay(p: Params)
      requires Valid()
      modifies this
      ensures Valid() && View() == Decayed(p, old(View()))
    {
      cands := KeepLive(p, cands);
      Invalidate();
      var k := if kCap < p.kMax then kCap else p.kMax;
      kCap := if k > p.kInit then k else p.kInit;
    }
  }

  /** The candidates of `d` that survive halving, in their old order. */
  method KeepLive(p: Params, d: Dict<int, Cand>) returns (kept: Dict<int, Cand>)
    requires d.Valid()
    ensures kept.Valid()
    ensures kept.m == LiveCands(p, d.m)
  {
    hide Halved, Dead;
    kept := EmptyDict();
    for i := 0 to |d.keys|
      invariant kept.Valid()
      invariant forall t :: t in kept.m <==> t in d.keys[..i] && !Dead(Halved(p, d.m[t]))
      invariant forall t :: t in kept.m ==> t in d.m && kept.m[t] == Halved(p, d.m[t])
    {
      assert d.keys[..i + 1] == d.keys[..i] + [d.keys[i]];
      var tok := d.keys[i];
      var c := Halved(p, d.m[tok]);
      if !Dead(c) {
        kept := kept.Put(tok, c);
      }
    }
    assert d.keys[..|d.keys|] == d.keys;
    SameLive(p, d, kept.m);
  }

  lemma SameLive(p: Params, d: Dict<int, Cand>, m: map<int, Cand>)
    requires d.Valid()
    requires forall t :: t in m <==> t in d.keys && !Dead(Halved(p, d.m[t]))
    requires forall t :: t in m ==> m[t] == Halved(p, d.m[t])
    ensures m == LiveCands(p, d.m)
  {
    hide Halved, Dead;
    var want := LiveCands(p, d.m);
    forall t ensures t in m <==> t in want {
      assert t in d.m <==> t in d.keys;
    }
    forall t | t in m ensures m[t] == want[t] {}
  }
}
