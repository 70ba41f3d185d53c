/** The online suffix automaton with a live match cursor.

    States are the left-maximal words of the stream: those that no single token precedes at every occurrence. Reading a
    token makes exactly two words left-maximal, the whole stream and the longest suffix that occurred before, so a step
    adds one state, and a second one, split off another, when that suffix is not a state yet. The invariant `Inv` ties
    each table to words and end positions; the two walks along suffix links are described by how far up they have got;
    and the cursor that nobody repairs stands on `link[last]` or on the state just split from it, whose transitions are
    the same. */
module SuffixAutomata {
  import opened Words

  /** The automaton's tables as a value; `SuffixAutomaton` below keeps them in its fields. */
  datatype Tables = Tables(next: seq<map<int, int>>, link: seq<int>, length: seq<int>, last: int)

  /** `words[v]` is the longest word read into state `v`. */
  type Labels = seq<seq<int>>

  ghost predicate Shape(a: Tables, words: Labels) {
    && |a.next| == |a.link| == |a.length| == |words| > 0
    && words[0] == [] && a.link[0] == -1
    && 0 <= a.last < |words|
    && (forall v :: 0 <= v < |words| ==> a.length[v] == |words[v]|)
    && (forall v {:trigger a.link[v]} :: 0 < v < |words| ==> 0 <= a.link[v] < |words|)
  }

  /** The states are the left-maximal words of the stream, each once. */
  ghost predicate StatesAreMaximal(words: Labels, s: seq<int>) {
    && (forall u, v :: 0 <= u < v < |words| ==> words[u] != words[v])
    && (forall v :: 0 <= v < |words| ==> LeftMaximal(s, words[v]))
  }

  /** Every left-maximal word of the stream has a state. (Kept apart from `Inv`: few proofs need it.) */
  ghost predicate Complete(words: Labels, s: seq<int>) {
    forall w :: LeftMaximal(s, w) ==> w in words
  }

  /** `l` carries the longest left-maximal proper suffix of `words[v]`. */
  ghost predicate LinkAt(words: Labels, v: int, l: int)
    requires 0 <= v < |words| && 0 <= l < |words|
  {
    && IsSuffix(words[l], words[v]) && |words[l]| < |words[v]|
    && forall u :: 0 <= u < |words| && u != v && IsSuffix(words[u], words[v]) ==> |words[u]| <= |words[l]|
  }

  ghost predicate LinksAreLongest(a: Tables, words: Labels)
    requires Shape(a, words)
  {
    forall v {:trigger a.link[v]} :: 0 < v < |words| ==> LinkAt(words, v, a.link[v])
  }

  /** A transition exists exactly when the extended word occurs, and keeps its set of end positions. */
  ghost predicate NextAt(next: map<int, int>, words: Labels, s: seq<int>, w: seq<int>) {
    forall c :: NextStep(next, words, s, w, c)
  }

  ghost predicate NextStep(next: map<int, int>, words: Labels, s: seq<int>, w: seq<int>, c: int) {
    && (c in next <==> Occurs(s, w + [c]))
    && (c in next ==> 0 <= next[c] < |words| && SameEnds(s, w + [c], words[next[c]]))
  }

  ghost predicate NextsAreRight(a: Tables, words: Labels, s: seq<int>)
    requires Shape(a, words)
  {
    forall v {:trigger a.next[v]} :: 0 <= v < |words| ==> NextAt(a.next[v], words, s, words[v])
  }

  ghost predicate Inv(a: Tables, words: Labels, s: seq<int>) {
    && Shape(a, words)
    && words[a.last] == s
    && StatesAreMaximal(words, s)
    && LinksAreLongest(a, words)
    && NextsAreRight(a, words, s)
  }

  // ---------------------------------------------------------------- one step

  /** State `v`'s table after the first walk: the suffixes of the stream that cannot yet read `c` now lead to `cur`. */
  ghost predicate Opened(old_: map<int, int>, new_: map<int, int>, w: seq<int>, s: seq<int>, c: int, cur: nat) {
    new_ == if IsSuffix(w, s) && !Occurs(s, w + [c]) then old_[c := cur] else old_
  }

  /** `b` results from `a` by reading `c` when the longest repeat `words[q]` already is a state. */
  ghost predicate PlainStep(a: Tables, words: Labels, s: seq<int>, c: int, q: nat, b: Tables)
    requires Shape(a, words)
  {
    && q < |words| && LongestRepeat(s, c, words[q]) && PlainFrame(a, words, s, c, q, b)
  }

  ghost predicate PlainFrame(a: Tables, words: Labels, s: seq<int>, c: int, q: nat, b: Tables)
    requires Shape(a, words)
  {
    var cur := |words|;
    && b.last == cur && |b.next| == cur + 1
    && b.link == a.link + [q] && b.length == a.length + [|s| + 1]
    && b.next[cur] == map[]
    && forall v {:trigger b.next[v]} :: 0 <= v < cur ==> Opened(a.next[v], b.next[v], words[v], s, c, cur)
  }

  /** Transitions into `q` along suffixes of the longest repeat `m` are turned to the clone. */
  ghost predicate Redirected(old_: map<int, int>, new_: map<int, int>, w: seq<int>, m: seq<int>, c: int, q: nat,
                             clone: nat) {
    new_ == if IsSuffix(w + [c], m) && c in old_ && old_[c] == q then old_[c := clone] else old_
  }

  /** `b` results from `a` by reading `c` when the longest repeat `m` is a shorter word of state `q`. */
  ghost predicate CloneStep(a: Tables, words: Labels, s: seq<int>, c: int, m: seq<int>, q: nat, mid: seq<map<int, int>>,
                            b: Tables)
    requires Shape(a, words)
  {
    && 0 < q < |words| && LongestRepeat(s, c, m) && SameEnds(s, m, words[q])
    && IsSuffix(m, words[q]) && |m| < |words[q]|
    && CloneFrame(a, words, s, c, m, q, mid, b)
  }

  ghost predicate CloneFrame(a: Tables, words: Labels, s: seq<int>, c: int, m: seq<int>, q: nat,
                             mid: seq<map<int, int>>, b: Tables)
    requires Shape(a, words) && q < |words|
  {
    var cur := |words|;
    var clone := cur + 1;
    && b.last == cur && |b.next| == cur + 2 && |mid| == cur
    && b.link == a.link[q := clone] + [clone, a.link[q]]
    && b.length == a.length + [|s| + 1, |m|]
    && b.next[cur] == map[] && b.next[clone] == mid[q]
    && (forall v {:trigger mid[v]} :: 0 <= v < cur ==> Opened(a.next[v], mid[v], words[v], s, c, cur))
    && (forall v {:trigger b.next[v]} :: 0 <= v < cur ==> Redirected(mid[v], b.next[v], words[v], m, c, q, clone))
  }

  lemma OldOccurs(a: Tables, words: Labels, s: seq<int>, c: int, m: seq<int>)
    requires Inv(a, words, s) && LongestRepeat(s, c, m)
    ensures forall v :: 0 <= v < |words| ==> words[v] != s + [c] && |words[v]| <= |s|
    ensures forall v :: 0 <= v < |words| && IsSuffix(words[v], s + [c]) ==> |words[v]| <= |m|
  {
    forall v | 0 <= v < |words| ensures |words[v]| <= |s| {
      assert LeftMaximal(s, words[v]);
      var e :| EndsAt(s, words[v], e);
    }
  }

  lemma PlainStates(a: Tables, words: Labels, s: seq<int>, c: int, q: nat)
    requires Inv(a, words, s) && q < |words| && LongestRepeat(s, c, words[q])
    ensures StatesAreMaximal(words + [s + [c]], s + [c])
  {
    hide Reads;
    var words' := words + [s + [c]];
    OldOccurs(a, words, s, c, words[q]);
    forall v | 0 <= v < |words'| ensures LeftMaximal(s + [c], words'[v]) {
      NewMaximal(s, c, words[q], words'[v]);
    }
  }

  lemma CloneStates(a: Tables, words: Labels, s: seq<int>, c: int, m: seq<int>)
    requires Inv(a, words, s) && LongestRepeat(s, c, m) && !LeftMaximal(s, m)
    ensures StatesAreMaximal(words + [s + [c], m], s + [c])
  {
    hide Reads;
    var words' := words + [s + [c], m];
    OldOccurs(a, words, s, c, m);
    var e :| EndsAt(s, m, e);
    forall v | 0 <= v < |words'| ensures LeftMaximal(s + [c], words'[v]) {
      NewMaximal(s, c, m, words'[v]);
    }
  }

  lemma StaysComplete(words: Labels, words': Labels, s: seq<int>, c: int, m: seq<int>)
    requires Complete(words, s) && LongestRepeat(s, c, m)
    requires words <= words' && s + [c] in words' && m in words'
    ensures Complete(words', s + [c])
  {
    forall w | LeftMaximal(s + [c], w) ensures w in words' {
      NewMaximal(s, c, m, w);
      assert w in words ==> w in words';
    }
  }

  lemma PlainLinks(a: Tables, words: Labels, s: seq<int>, c: int, q: nat, b: Tables)
    requires Inv(a, words, s) && PlainStep(a, words, s, c, q, b)
    ensures Shape(b, words + [s + [c]])
    ensures LinksAreLongest(b, words + [s + [c]])
  {
    hide Reads;
    var words' := words + [s + [c]];
    OldOccurs(a, words, s, c, words[q]);
    forall v | 0 < v < |words'| ensures LinkAt(words', v, b.link[v]) {
      if v < |words| {
        assert LinkAt(words, v, a.link[v]);
      }
    }
  }

  /** No other state lies between the repeat `m` and the state `q` it belongs to. */
  lemma NothingBetween(a: Tables, words: Labels, s: seq<int>, m: seq<int>, q: nat, u: nat)
    requires Inv(a, words, s) && q < |words| && u < |words| && u != q
    requires SameEnds(s, m, words[q]) && IsSuffix(m, words[q]) && |m| < |words[q]|
    requires IsSuffix(words[u], words[q])
    ensures |words[u]| < |m|
  {
    hide Reads;
    if |m| <= |words[u]| {
      ShorterIsSuffix(words[q], words[u], m, |words[q]|);
      Between(s, m, words[u], words[q]);
      MaximalUnique(s, words[u], words[q]);
    }
  }

  /** Only `q` links past the repeat `m`: a state with `m` as proper suffix above its own link is `q`. */
  lemma OnlyQLinksPast(a: Tables, words: Labels, s: seq<int>, m: seq<int>, q: nat, v: nat)
    requires Inv(a, words, s) && q < |words| && 0 < v < |words|
    requires SameEnds(s, m, words[q]) && IsSuffix(m, words[q]) && |m| < |words[q]|
    requires IsSuffix(m, words[v]) && |words[a.link[v]]| < |m|
    ensures v == q
  {
    hide Reads;
    assert LeftMaximal(s, words[v]);
    assert LinkAt(words, v, a.link[v]);
    var e :| EndsAt(s, words[v], e);
    SuffixEndsAt(s, words[v], m, e);
    if |words[q]| < |words[v]| {
      ShorterIsSuffix(s, words[v], words[q], e);
    } else {
      ShorterIsSuffix(s, words[q], words[v], e);
      Between(s, m, words[v], words[q]);
      MaximalUnique(s, words[v], words[q]);
    }
  }

  /** What the split of state `q` by the repeat `m` rests on. */
  ghost predicate Splits(a: Tables, words: Labels, s: seq<int>, c: int, m: seq<int>, q: nat) {
    && Inv(a, words, s)
    && 0 < q < |words| && LongestRepeat(s, c, m) && SameEnds(s, m, words[q])
    && IsSuffix(m, words[q]) && |m| < |words[q]|
  }

  lemma LinkOfSplit(a: Tables, words: Labels, s: seq<int>, c: int, m: seq<int>, q: nat)
    requires Splits(a, words, s, c, m, q)
    ensures LinkAt(words + [s + [c], m], q, |words| + 1)
  {
    hide Reads;
    var words' := words + [s + [c], m];
    OldOccurs(a, words, s, c, m);
    forall u | 0 <= u < |words'| && u != q && IsSuffix(words'[u], words[q]) ensures |words'[u]| <= |m| {
      if u < |words| { NothingBetween(a, words, s, m, q, u); }
    }
  }

  lemma LinkOfClone(a: Tables, words: Labels, s: seq<int>, c: int, m: seq<int>, q: nat)
    requires Splits(a, words, s, c, m, q)
    ensures LinkAt(words + [s + [c], m], |words| + 1, a.link[q])
  {
    hide Reads;
    var words' := words + [s + [c], m];
    OldOccurs(a, words, s, c, m);
    var l := a.link[q];
    assert LinkAt(words, q, l);
    NothingBetween(a, words, s, m, q, l);
    ShorterIsSuffix(words[q], m, words[l], |words[q]|);
    var e :| EndsAt(s, m, e);
    forall u | 0 <= u < |words'| && u != |words| + 1 && IsSuffix(words'[u], m) ensures |words'[u]| <= |words[l]| {
      if u < |words| { SuffixTrans(words[u], m, words[q]); }
    }
  }

  lemma LinkUnsplit(a: Tables, words: Labels, s: seq<int>, c: int, m: seq<int>, q: nat, v: nat)
    requires Splits(a, words, s, c, m, q) && 0 < v < |words| && v != q
    ensures LinkAt(words + [s + [c], m], v, a.link[v])
  {
    hide Reads;
    OldOccurs(a, words, s, c, m);
    assert LinkAt(words, v, a.link[v]);
    if IsSuffix(m, words[v]) && |words[a.link[v]]| < |m| {
      OnlyQLinksPast(a, words, s, m, q, v);
    }
  }

  lemma LinkOfStream(a: Tables, words: Labels, s: seq<int>, c: int, m: seq<int>)
    requires Inv(a, words, s) && LongestRepeat(s, c, m)
    ensures LinkAt(words + [s + [c], m], |words|, |words| + 1)
  {
    hide Reads;
    OldOccurs(a, words, s, c, m);
    var e :| EndsAt(s, m, e);
  }

  lemma CloneLinks(a: Tables, words: Labels, s: seq<int>, c: int, m: seq<int>, q: nat, b: Tables)
    requires Splits(a, words, s, c, m, q)
    requires Shape(b, words + [s + [c], m])
    requires b.link == a.link[q := |words| + 1] + [|words| + 1, a.link[q]]
    ensures LinksAreLongest(b, words + [s + [c], m])
  {
    hide Reads;
    forall v | 0 < v < |words| + 2 ensures LinkAt(words + [s + [c], m], v, b.link[v]) {
      if v == q {
        LinkOfSplit(a, words, s, c, m, q);
      } else if v < |words| {
        LinkUnsplit(a, words, s, c, m, q, v);
      } else if v == |words| {
        LinkOfStream(a, words, s, c, m);
      } else {
        LinkOfClone(a, words, s, c, m, q);
      }
    }
  }

  /** Two words with the same occurrences keep them unless one alone is a suffix of the new stream. */
  lemma SameEndsAppend(s: seq<int>, c: int, x: seq<int>, y: seq<int>)
    requires SameEnds(s, x, y)
    requires IsSuffix(x, s + [c]) <==> IsSuffix(y, s + [c])
    ensures SameEnds(s + [c], x, y)
  {
    hide Reads;
    forall e ensures EndsAt(s + [c], x, e) <==> EndsAt(s + [c], y, e) {
      EndsAtAppend(s, c, x, e);
      EndsAtAppend(s, c, y, e);
    }
  }

  /** If `w` is a suffix of the new stream but its state is not, then that state is the one the repeat `m` splits. */
  lemma OnlySplitStateChanges(s: seq<int>, c: int, m: seq<int>, w: seq<int>, x: seq<int>)
    requires LongestRepeat(s, c, m) && LeftMaximal(s, x) && SameEnds(s, w, x)
    requires IsSuffix(w, s + [c]) != IsSuffix(x, s + [c])
    ensures IsSuffix(w, m) && IsSuffix(w, x)
    ensures SameEnds(s, m, x) && IsSuffix(m, x) && |m| < |x|
    ensures !LeftMaximal(s, m)
  {
    hide Reads;
    var e :| EndsAt(s, x, e);
    if |x| <= |w| {
      ShorterIsSuffix(s, w, x, e);
      if |x| < |w| { NotMaximalBelow(s, w, x); }
      assert false;
    }
    ShorterIsSuffix(s, x, w, e);
    if IsSuffix(x, s + [c]) {
      SuffixTrans(w, x, s + [c]);
    }
    assert Occurs(s, w);
    ShorterIsSuffix(s + [c], m, w, |s| + 1);
    var e' :| EndsAt(s, m, e');
    SuffixEndsAt(s, m, w, e');
    if |x| <= |m| {
      ShorterIsSuffix(s, m, x, e');
      SuffixTrans(x, m, s + [c]);
      assert false;
    }
    ShorterIsSuffix(s, x, m, e');
    Between(s, w, m, x);
    NotMaximalBelow(s, x, m);
  }

  /** A transition opened by the first walk is right: the extended word ends only at the end of the new stream. */
  lemma OpenedTarget(s: seq<int>, c: int, w: seq<int>)
    requires IsSuffix(w, s) && !Occurs(s, w + [c])
    ensures Occurs(s + [c], w + [c])
    ensures SameEnds(s + [c], w + [c], s + [c])
  {
    SuffixSnoc(w, s, c, c);
    OccursAppend(s, c, w + [c]);
    forall e ensures EndsAt(s + [c], w + [c], e) <==> EndsAt(s + [c], s + [c], e) {
      EndsAtAppend(s, c, w + [c], e);
    }
  }

  lemma EndOfStreamNext(words: Labels, s: seq<int>, c: int)
    ensures NextAt(map[], words, s + [c], s + [c])
  {
    forall d ensures NextStep(map[], words, s + [c], s + [c], d) {
      assert !Occurs(s + [c], s + [c] + [d]);
    }
  }

  /** The domain of an opened table is right for the new stream. */
  lemma OpenedDomain(s: seq<int>, c: int, w: seq<int>, d: int)
    ensures Occurs(s + [c], w + [d]) <==> Occurs(s, w + [d]) || (d == c && IsSuffix(w, s))
  {
    OccursAppend(s, c, w + [d]);
    SuffixSnoc(w, s, d, c);
  }

  /** When the longest repeat already is a state, no old transition changes its meaning. */
  lemma UnsplitTarget(s: seq<int>, c: int, m: seq<int>, w: seq<int>, x: seq<int>)
    requires LongestRepeat(s, c, m) && LeftMaximal(s, x) && LeftMaximal(s, m) && SameEnds(s, w, x)
    ensures SameEnds(s + [c], w, x)
  {
    hide Reads;
    if IsSuffix(w, s + [c]) != IsSuffix(x, s + [c]) {
      OnlySplitStateChanges(s, c, m, w, x);
      assert false;
    }
    SameEndsAppend(s, c, w, x);
  }

  lemma PlainNext(a: Tables, words: Labels, s: seq<int>, c: int, q: nat, b: Tables, v: nat)
    requires Inv(a, words, s) && PlainStep(a, words, s, c, q, b) && v < |words|
    ensures NextAt(b.next[v], words + [s + [c]], s + [c], words[v])
  {
    hide Reads;
    var words' := words + [s + [c]];
    var w := words[v];
    assert NextAt(a.next[v], words, s, w);
    assert Opened(a.next[v], b.next[v], w, s, c, |words|);
    forall d ensures NextStep(b.next[v], words', s + [c], w, d) {
      assert NextStep(a.next[v], words, s, w, d);
      OpenedDomain(s, c, w, d);
      if d in a.next[v] {
        var x := words[a.next[v][d]];
        assert LeftMaximal(s, x) && LeftMaximal(s, words[q]);
        UnsplitTarget(s, c, words[q], w + [d], x);
      } else if d in b.next[v] {
        OpenedTarget(s, c, w);
      }
    }
  }

  lemma PlainStepInv(a: Tables, words: Labels, s: seq<int>, c: int, q: nat, b: Tables)
    requires Inv(a, words, s) && PlainStep(a, words, s, c, q, b)
    ensures Inv(b, words + [s + [c]], s + [c])
  {
    hide Reads;
    var words' := words + [s + [c]];
    PlainStates(a, words, s, c, q);
    PlainLinks(a, words, s, c, q, b);
    forall v | 0 <= v < |words'| ensures NextAt(b.next[v], words', s + [c], words'[v]) {
      if v < |words| {
        PlainNext(a, words, s, c, q, b, v);
      } else {
        EndOfStreamNext(words', s, c);
      }
    }
  }

  /** Where an old transition leads after the clone is split off `q`. */
  lemma OldTarget(a: Tables, words: Labels, s: seq<int>, c: int, m: seq<int>, q: nat, v: nat, d: int)
    requires Splits(a, words, s, c, m, q) && v < |words|
    requires d in a.next[v]
    ensures 0 <= a.next[v][d] < |words|
    ensures var w := words[v] + [d];
            if IsSuffix(words[v] + [c], m) && d == c && a.next[v][d] == q then SameEnds(s + [c], w, m)
            else SameEnds(s + [c], w, words[a.next[v][d]])
  {
    hide Reads;
    var w := words[v] + [d];
    assert NextAt(a.next[v], words, s, words[v]) && NextStep(a.next[v], words, s, words[v], d);
    var x := words[a.next[v][d]];
    assert LeftMaximal(s, x) && LeftMaximal(s, words[q]);
    if IsSuffix(words[v] + [c], m) && d == c && a.next[v][d] == q {
      SuffixTrans(w, m, s + [c]);
      SameEndsAppend(s, c, w, m);
    } else {
      if IsSuffix(w, s + [c]) != IsSuffix(x, s + [c]) {
        OnlySplitStateChanges(s, c, m, w, x);
        MaximalUnique(s, x, words[q]);
        SuffixSnoc(words[v], s, d, c);
        SuffixTrans(w, m, s + [c]);
        assert false;
      }
      SameEndsAppend(s, c, w, x);
    }
  }

  /** The clone reads on exactly as `q` does. */
  lemma CloneReadsAsQ(words: Labels, s: seq<int>, c: int, m: seq<int>, x: seq<int>, next: map<int, int>)
    requires NextAt(next, words, s + [c], x)
    requires SameEnds(s, m, x)
    ensures NextAt(next, words, s + [c], m)
  {
    hide Reads;
    var t := s + [c];
    forall d ensures SameEnds(t, m + [d], x + [d]) {
      forall e ensures EndsAt(t, m + [d], e) <==> EndsAt(t, x + [d], e) {
        EndsAtSnoc(t, m, d, e);
        EndsAtSnoc(t, x, d, e);
        EndsAtAppend(s, c, m, e - 1);
        EndsAtAppend(s, c, x, e - 1);
      }
    }
    forall d ensures NextStep(next, words, t, m, d) {
      assert SameEnds(t, m + [d], x + [d]) && NextStep(next, words, t, x, d);
      assert Occurs(t, m + [d]) <==> Occurs(t, x + [d]);
    }
  }

  lemma CloneNextStep(a: Tables, words: Labels, s: seq<int>, c: int, m: seq<int>, q: nat, mid: map<int, int>,
                      next: map<int, int>, v: nat, d: int)
    requires Splits(a, words, s, c, m, q) && v < |words|
    requires Opened(a.next[v], mid, words[v], s, c, |words|)
    requires Redirected(mid, next, words[v], m, c, q, |words| + 1)
    ensures NextStep(next, words + [s + [c], m], s + [c], words[v], d)
  {
    hide Reads;
    var w := words[v];
    assert NextAt(a.next[v], words, s, w) && NextStep(a.next[v], words, s, w, d);
    OpenedDomain(s, c, w, d);
    if d in a.next[v] {
      OldTarget(a, words, s, c, m, q, v, d);
    } else if d in next {
      OpenedTarget(s, c, w);
    }
  }

  lemma CloneNext(a: Tables, words: Labels, s: seq<int>, c: int, m: seq<int>, q: nat, mid: map<int, int>,
                  next: map<int, int>, v: nat)
    requires Splits(a, words, s, c, m, q) && v < |words|
    requires Opened(a.next[v], mid, words[v], s, c, |words|)
    requires Redirected(mid, next, words[v], m, c, q, |words| + 1)
    ensures NextAt(next, words + [s + [c], m], s + [c], words[v])
  {
    hide Reads;
    forall d ensures NextStep(next, words + [s + [c], m], s + [c], words[v], d) {
      CloneNextStep(a, words, s, c, m, q, mid, next, v, d);
    }
  }

  lemma CloneShape(a: Tables, words: Labels, s: seq<int>, c: int, m: seq<int>, q: nat, mid: seq<map<int, int>>,
                   b: Tables)
    requires Shape(a, words) && CloneStep(a, words, s, c, m, q, mid, b)
    ensures Shape(b, words + [s + [c], m])
  {
    hide Reads, Opened, Redirected, LongestRepeat, SameEnds;
  }

  lemma CloneStateNext(a: Tables, words: Labels, s: seq<int>, c: int, m: seq<int>, q: nat, mid: map<int, int>)
    requires Splits(a, words, s, c, m, q)
    requires Opened(a.next[q], mid, words[q], s, c, |words|)
    ensures NextAt(mid, words + [s + [c], m], s + [c], m)
  {
    hide Reads;
    CloneNext(a, words, s, c, m, q, mid, mid, q);
    CloneReadsAsQ(words + [s + [c], m], s, c, m, words[q], mid);
  }

  lemma CloneNextOf(a: Tables, words: Labels, s: seq<int>, c: int, m: seq<int>, q: nat, mid: seq<map<int, int>>,
                    b: Tables, v: nat)
    requires Splits(a, words, s, c, m, q) && CloneStep(a, words, s, c, m, q, mid, b)
    requires v < |words| + 2
    ensures NextAt(b.next[v], words + [s + [c], m], s + [c], (words + [s + [c], m])[v])
  {
    hide Reads;
    if v < |words| {
      assert Opened(a.next[v], mid[v], words[v], s, c, |words|);
      CloneNext(a, words, s, c, m, q, mid[v], b.next[v], v);
    } else if v == |words| {
      EndOfStreamNext(words + [s + [c], m], s, c);
    } else {
      assert Opened(a.next[q], mid[q], words[q], s, c, |words|);
      CloneStateNext(a, words, s, c, m, q, mid[q]);
    }
  }

  lemma CloneNexts(a: Tables, words: Labels, s: seq<int>, c: int, m: seq<int>, q: nat, mid: seq<map<int, int>>,
                   b: Tables)
    requires Splits(a, words, s, c, m, q) && CloneStep(a, words, s, c, m, q, mid, b)
    requires Shape(b, words + [s + [c], m])
    ensures NextsAreRight(b, words + [s + [c], m], s + [c])
  {
    hide Reads;
    forall v | 0 <= v < |words| + 2
      ensures NextAt(b.next[v], words + [s + [c], m], s + [c], (words + [s + [c], m])[v])
    {
      CloneNextOf(a, words, s, c, m, q, mid, b, v);
    }
  }

  lemma CloneStepInv(a: Tables, words: Labels, s: seq<int>, c: int, m: seq<int>, q: nat, mid: seq<map<int, int>>,
                     b: Tables)
    requires Inv(a, words, s) && CloneStep(a, words, s, c, m, q, mid, b)
    ensures Inv(b, words + [s + [c], m], s + [c])
  {
    hide Reads;
    NotMaximalBelow(s, words[q], m);
    CloneShape(a, words, s, c, m, q, mid, b);
    CloneStates(a, words, s, c, m);
    CloneLinks(a, words, s, c, m, q, b);
    CloneNexts(a, words, s, c, m, q, mid, b);
  }

  // ---------------------------------------------------------------- walking up the links

  /** `v` is the state reached on the link path of the stream's last state where every longer state fails to
      read `c`. */
  ghost predicate WalkAt(a: Tables, words: Labels, s: seq<int>, c: int, v: int)
    requires Shape(a, words)
  {
    && -1 <= v < |words|
    && (v >= 0 ==> IsSuffix(words[v], s))
    && forall u {:trigger a.next[u]} ::
         0 <= u < |words| && IsSuffix(words[u], s) && (v >= 0 ==> |words[u]| > |words[v]|) ==> c !in a.next[u]
  }

  lemma WalkStart(a: Tables, words: Labels, s: seq<int>, c: int)
    requires Inv(a, words, s)
    ensures WalkAt(a, words, s, c, a.last)
  {
  }

  lemma WalkUp(a: Tables, words: Labels, s: seq<int>, c: int, v: int)
    requires Inv(a, words, s) && WalkAt(a, words, s, c, v) && v >= 0 && c !in a.next[v]
    ensures WalkAt(a, words, s, c, a.link[v])
    ensures a.link[v] >= 0 ==> a.length[a.link[v]] < a.length[v]
  {
    hide Reads;
    hide ExtendsBy;
    if v > 0 { assert LinkAt(words, v, a.link[v]); SuffixTrans(words[a.link[v]], words[v], s); }
    forall u | 0 <= u < |words| && IsSuffix(words[u], s) && (a.link[v] >= 0 ==> |words[u]| > |words[a.link[v]]|)
      ensures c !in a.next[u]
    {
      if u != v && |words[u]| <= |words[v]| {
        ShorterIsSuffix(s, words[v], words[u], |s|);
      }
    }
  }

  lemma LinkFalls(a: Tables, words: Labels, s: seq<int>, v: int)
    requires Inv(a, words, s) && 0 < v < |words|
    ensures 0 <= a.link[v] < |words| && a.length[a.link[v]] < a.length[v]
  {
    assert LinkAt(words, v, a.link[v]);
  }

  /** The last state of the stream never reads on, so the walk may as well start at its link. */
  lemma WalkFromLink(a: Tables, words: Labels, s: seq<int>, c: int)
    requires Inv(a, words, s) && s != []
    ensures a.last > 0 && WalkAt(a, words, s, c, a.link[a.last])
  {
    assert NextAt(a.next[a.last], words, s, s) && NextStep(a.next[a.last], words, s, s, c);
    assert !Occurs(s, s + [c]);
    WalkStart(a, words, s, c);
    WalkUp(a, words, s, c, a.last);
  }

  /** Where the walk stops, the longest repeat is found. */
  lemma WalkFound(a: Tables, words: Labels, s: seq<int>, c: int, v: int)
    requires Inv(a, words, s) && Complete(words, s) && WalkAt(a, words, s, c, v) && v >= 0 && c in a.next[v]
    ensures LongestRepeat(s, c, words[v] + [c])
  {
    hide Reads;
    assert NextAt(a.next[v], words, s, words[v]) && NextStep(a.next[v], words, s, words[v], c);
    SuffixSnoc(words[v], s, c, c);
    forall x | IsSuffix(x, s + [c]) && Occurs(s, x) ensures |x| <= |words[v]| + 1 {
      if |x| > |words[v]| + 1 {
        var m := Longest(s, c, x);
        MatchedState(a, words, s, c, m);
      }
    }
  }

  /** Some repeat at least as long as `x` is the longest one. */
  lemma Longest(s: seq<int>, c: int, x: seq<int>) returns (m: seq<int>)
    requires IsSuffix(x, s + [c]) && Occurs(s, x)
    ensures LongestRepeat(s, c, m) && |m| >= |x|
    decreases |s| - |x|
  {
    if y :| IsSuffix(y, s + [c]) && Occurs(s, y) && |y| > |x| {
      var e :| EndsAt(s, y, e);
      m := Longest(s, c, y);
    } else {
      m := x;
    }
  }

  /** A non-empty longest repeat is read off some state on the stream's link path. */
  lemma MatchedState(a: Tables, words: Labels, s: seq<int>, c: int, m: seq<int>)
    requires Inv(a, words, s) && Complete(words, s) && LongestRepeat(s, c, m) && m != []
    ensures exists u :: 0 <= u < |words| && IsSuffix(words[u], s) && |words[u]| == |m| - 1 && c in a.next[u]
  {
    var x := m[..|m| - 1];
    assert m[|m| - 1] == c by { assert (s + [c])[|s| + 1 - |m|..] == m; }
    assert m == x + [c];
    RepeatStemMaximal(s, c, x);
    assert x in words;
    hide LeftMaximal, StatesAreMaximal, LinksAreLongest, Complete, LongestRepeat, IsSuffix, Occurs, Reads;
    var u :| 0 <= u < |words| && words[u] == x;
    assert NextAt(a.next[u], words, s, x) && NextStep(a.next[u], words, s, x, c);
  }

  /** When no state reads `c`, nothing repeats. */
  lemma WalkFailed(a: Tables, words: Labels, s: seq<int>, c: int)
    requires Inv(a, words, s) && Complete(words, s) && WalkAt(a, words, s, c, -1)
    ensures LongestRepeat(s, c, [])
  {
    assert EndsAt(s, [], 0);
    var m := Longest(s, c, []);
    if m != [] { MatchedState(a, words, s, c, m); }
  }

  // ---------------------------------------------------------------- the class

  /** The match cursor rests on `link[last]`, or on the state that was just split from it. */
  ghost predicate CursorAt(a: Tables, words: Labels, s: seq<int>, state: int, len: int)
    requires Shape(a, words) && words[a.last] == s
  {
    && 0 <= state < |words|
    && if s == [] then state == 0 && len == 0 else
         var l := a.link[a.last];
         && 0 <= l < |words| && len == a.length[l]
         && (state == l || (state > 0 && a.link[state] == l && a.next[state] == a.next[l]))
  }

  class SuffixAutomaton {
    var next: seq<map<int, int>>
    var link: seq<int>
    var length: seq<int>
    var cnt: seq<int>
    var last: int
    var matchState: int
    var matchLen: int
    ghost var stream: seq<int>
    ghost var words: Labels

    ghost function View(): Tables
      reads this
    {
      Tables(next, link, length, last)
    }

    ghost predicate Valid()
      reads this
    {
      && Inv(View(), words, stream)
      && Complete(words, stream)
      && CursorAt(View(), words, stream, matchState, matchLen)
      && |cnt| == |words| <= StateBound(|stream|)
    }

    /** Before the counts are finalized, exactly the states of the stream's non-empty prefixes carry 1. */
    ghost predicate CountsPending()
      reads this
    {
      OwnCounts(cnt, words, stream)
    }

    constructor ()
      ensures Valid() && CountsPending() && stream == []
    {
      next, link, length, cnt := [map[]], [-1], [0], [0];
      last, matchState, matchLen := 0, 0, 0;
      stream, words := [], [[]];
      new;
      hide Inv, Complete;
      EmptyInv();
      assert View() == Tables([map[]], [-1], [0], 0);
    }

    /** Turns the links into occurrence counts, longest states first. */
    method FinalizeCounts()
      requires Valid() && CountsPending()
      modifies this`cnt
      ensures Valid()
      ensures forall v :: 0 < v < |words| ==> cnt[v] == |EndPos(stream, words[v])|
      ensures forall w :: w != [] && Occurs(stream, w) ==>
                0 < Read(next, w) < |cnt| && cnt[Read(next, w)] == |EndPos(stream, w)|
      ensures cnt[0] == |stream|
    {
      hide Reads, Complete, StatesAreMaximal, LinksAreLongest, NextsAreRight, CursorAt, Covered, Distinct, Descending,
           OwnCounts, StateBound;
      ghost var a := View();
      var order := DescendingOrder(length, |length|);
      DescendingOrderIsRight(length, |length|);
      CoveredAtFirst(a, words, stream, cnt);
      var k := 0;
      while k < |order|
        invariant 0 <= k <= |order| && |cnt| == |words|
        invariant forall v :: 0 <= v < |words| ==> cnt[v] == |Covered(a, words, stream, v, order[..k])|
      {
        var i := order[k];
        assert i in order;
        CoveredStep(a, words, stream, order, k);
        if link[i] >= 0 {
          cnt := cnt[link[i] := cnt[link[i]] + cnt[i]];
        }
        k := k + 1;
      }
      assert order[..k] == order;
      forall v | 0 <= v < |words| ensures cnt[v] == if v == 0 then |stream| else |EndPos(stream, words[v])| {
        CoveredAtLast(a, words, stream, v, order);
      }
      forall w | w != [] && Occurs(stream, w)
        ensures 0 < Read(next, w) < |words| && EndPos(stream, w) == EndPos(stream, words[Read(next, w)])
      {
        CountOfWord(a, words, stream, w);
      }
    }

    method AddState(len: int, lnk: int, trans: map<int, int>, c: int) returns (v: nat)
      requires |next| == |link| == |length| == |cnt|
      modifies this`next, this`link, this`length, this`cnt
      ensures v == old(|next|)
      ensures next == old(next) + [trans] && link == old(link) + [lnk]
      ensures length == old(length) + [len] && cnt == old(cnt) + [c]
    {
      next, link, length, cnt := next + [trans], link + [lnk], length + [len], cnt + [c];
      v := |next| - 1;
    }

    /** The recurrence query: walks from the cursor to the longest suffix of the stream that `tok` continues
        inside the stream, and moves the cursor there. The automaton itself is left alone. */
    method Match(tok: int) returns (matched: int, ghost p: int)
      requires Valid()
      modifies this`matchState, this`matchLen
      ensures WalkAt(View(), words, stream, tok, p)
      ensures p == -1 ==> matched == matchState == matchLen == 0
      ensures p >= 0 ==> tok in next[p] && matchState == next[p][tok] && matched == matchLen == length[p] + 1
    {
      hide Reads, LeftMaximal, IsSuffix, NextAt, LinkAt, LongestRepeat, WalkAt, Complete;
      var s, ln := matchState, matchLen;
      ghost var a := View();
      p := if stream == [] then 0 else link[last];
      if stream == [] { WalkStart(a, words, stream, tok); } else { WalkFromLink(a, words, stream, tok); }
      while s != -1 && tok !in next[s]
        invariant -1 <= s < |words| && -1 <= p < |words|
        invariant WalkAt(a, words, stream, tok, p)
        invariant s == -1 <==> p == -1
        invariant s != -1 ==> ln == length[p] && next[s] == next[p]
        invariant s == p || (s > 0 && link[s] == p)
        decreases if s == -1 then 0 else length[s] + 1
      {
        if s == p { WalkUp(a, words, stream, tok, p); p := link[p]; } else { LinkFalls(a, words, stream, s); }
        s := link[s];
        ln := if s != -1 then length[s] else 0;
      }
      if s == -1 {
        matchState, matchLen := 0, 0;
        matched := 0;
      } else {
        matchState := next[s][tok];
        matchLen := ln + 1;
        matched := matchLen;
      }
    }

    /** Consumes one token; returns the length of the longest suffix, `tok` included, that occurred before. */
    method Extend(tok: int) returns (matched: int)
      requires Valid()
      modifies this
      ensures Valid() && stream == old(stream) + [tok]
      ensures LongestRecurrence(stream, matched)
      ensures matched == length[link[last]]
      ensures old(CountsPending()) ==> CountsPending()
    {
      hide Reads, LeftMaximal, IsSuffix, NextAt, LinkAt, LongestRepeat, WalkAt, Opened, Redirected, SameEnds,
           LongestRecurrence, Complete, StatesAreMaximal, LinksAreLongest, NextsAreRight, OwnCounts, StateBound,
           CursorAt;
      ghost var a := View();
      ghost var counts := cnt;
      ghost var g;
      matched, g := Match(tok);
      var cur := AddState(length[last] + 1, -1, map[], 1);
      var p := Open(tok, cur, a);
      SameStop(a, words, stream, tok, g, p);
      if p == -1 {
        link := link[cur := 0];
        last := cur;
        PlainDone(a, words, stream, tok, p, 0, View(), counts);
        words := words + [stream + [tok]];
        assert cnt == counts + [1];
      } else {
        var q := next[p][tok];
        if length[p] + 1 == length[q] {
          link := link[cur := q];
          last := cur;
          PlainDone(a, words, stream, tok, p, q, View(), counts);
          words := words + [stream + [tok]];
          assert cnt == counts + [1];
        } else {
          Split(p, tok, q, cur, a, counts);
          words := words + [stream + [tok], words[p] + [tok]];
          assert cnt == counts + [1, 0];
        }
      }
      stream := stream + [tok];
    }

    /** Splits the repeat `words[p] + [tok]` off state `q` and links both `q` and `cur` to it. */
    method Split(p: int, tok: int, q: int, cur: nat, ghost a: Tables, ghost counts: seq<int>)
      requires Inv(a, words, stream) && Complete(words, stream) && |words| <= StateBound(|stream|)
      requires cur == |words| && |next| == |link| == |length| == |cnt| == cur + 1
      requires WalkAt(a, words, stream, tok, p) && p >= 0 && tok in a.next[p] && q == a.next[p][tok]
      requires 0 <= q < cur && a.length[p] + 1 != a.length[q]
      requires link == a.link + [-1] && length == a.length + [|stream| + 1] && next[cur] == map[]
      requires forall v {:trigger next[v]} :: 0 <= v < cur ==> Opened(a.next[v], next[v], words[v], stream, tok, cur)
      modifies this`next, this`link, this`length, this`cnt, this`last
      ensures Stepped(View(), words + [stream + [tok], words[p] + [tok]], stream + [tok], q, a.length[p] + 1)
      ensures cnt == old(cnt) + [0] && last == cur
      ensures OwnCounts(counts, words, stream) ==>
              OwnCounts(counts + [1, 0], words + [stream + [tok], words[p] + [tok]], stream + [tok])
    {
      hide Reads, LeftMaximal, IsSuffix, NextAt, LinkAt, Opened, Redirected, SameEnds, Complete,
           StatesAreMaximal, LinksAreLongest, NextsAreRight, Stepped, OwnCounts, LongestRepeat, StateBound, Occurs;
      var clone := AddState(length[p] + 1, link[q], next[q], 0);
      ghost var mid := next[..cur];
      SplitFound(a, words, stream, tok, p, q);
      Redirect(p, tok, q, clone, a);
      link := link[q := clone];
      link := link[cur := clone];
      last := cur;
      assert link == a.link[q := clone] + [clone, a.link[q]];
      CloneDone(a, words, stream, tok, p, q, mid, View(), counts);
    }

    /** Gives every suffix of the stream that cannot yet read `tok` a transition to `cur`. */
    method Open(tok: int, cur: nat, ghost a: Tables) returns (p: int)
      requires Inv(a, words, stream) && cur == |words| && last == a.last
      requires next == a.next + [map[]] && link == a.link + [-1]
      modifies this`next
      ensures |next| == cur + 1 && next[cur] == map[]
      ensures forall v {:trigger next[v]} :: 0 <= v < cur ==> Opened(a.next[v], next[v], words[v], stream, tok, cur)
      ensures -1 <= p < cur && WalkAt(a, words, stream, tok, p)
      ensures p >= 0 ==> tok in a.next[p] && next[p] == a.next[p]
    {
      hide Reads, LeftMaximal, IsSuffix, NextAt, LinkAt, LongestRepeat, WalkAt, Opened;
      p := last;
      WalkStart(a, words, stream, tok);
      OpenedNone(a, words, stream, tok, cur, next);
      while p != -1 && tok !in next[p]
        invariant -1 <= p < cur && |next| == cur + 1 && next[cur] == map[]
        invariant WalkAt(a, words, stream, tok, p)
        invariant OpenedAbove(a, words, stream, tok, cur, p, next)
        decreases if p == -1 then 0 else a.length[p] + 1
      {
        OpenedOne(a, words, stream, tok, cur, p, next);
        WalkUp(a, words, stream, tok, p);
        next := next[p := next[p][tok := cur]];
        p := link[p];
      }
      OpenedAll(a, words, stream, tok, cur, p, next);
    }

    /** Turns the transitions on `tok` that lead to `q` over to `clone`, from `p` upwards. */
    method Redirect(start: int, tok: int, q: nat, clone: nat, ghost a: Tables)
      requires Inv(a, words, stream) && clone == |words| + 1 && q < |words| && 0 <= start < |words|
      requires LongestRepeat(stream, tok, words[start] + [tok]) && SameEnds(stream, words[start] + [tok], words[q])
      requires |next| == |words| + 2 && |link| == |words| + 2 && forall v :: 0 <= v < |words| ==> link[v] == a.link[v]
      requires forall v {:trigger next[v]} :: 0 <= v < |words| ==>
               Opened(a.next[v], next[v], words[v], stream, tok, |words|)
      modifies this`next
      ensures |next| == |words| + 2 && next[|words|] == old(next)[|words|] && next[clone] == old(next)[clone]
      ensures forall v {:trigger next[v]} :: 0 <= v < |words|
                ==> Redirected(old(next)[v], next[v], words[v], words[start] + [tok], tok, q, clone)
    {
      hide Reads, LeftMaximal, IsSuffix, NextAt, LinkAt, Opened, Redirected, SameEnds;
      var p := start;
      ghost var mid := next;
      TurnedNone(a, words, stream, tok, q, clone, start, mid);
      while p != -1 && tok in next[p] && next[p][tok] == q
        invariant -1 <= p < |words| && |next| == |words| + 2
        invariant next[|words|] == mid[|words|] && next[clone] == mid[clone]
        invariant TurnedAbove(a, words, stream, tok, q, clone, start, p, mid, next)
        decreases if p == -1 then 0 else a.length[p] + 1
      {
        TurnedOne(a, words, stream, tok, q, clone, start, p, mid, next);
        next := next[p := next[p][tok := clone]];
        p := link[p];
      }
      TurnedAll(a, words, stream, tok, q, clone, start, p, mid, next);
    }
  }

  /** At most 2n - 1 states for n >= 2 tokens. */
  function StateBound(n: nat): nat {
    if n < 2 then n + 1 else 2 * n - 1
  }

  function OwnCount(w: seq<int>, s: seq<int>): int {
    if w != [] && w <= s then 1 else 0
  }

  ghost predicate OwnCounts(cnt: seq<int>, words: Labels, s: seq<int>) {
    |cnt| == |words| && forall v :: 0 <= v < |words| ==> cnt[v] == OwnCount(words[v], s)
  }

  /** The last `k` tokens of `s` also occur ending at an earlier position (overlaps allowed). */
  ghost predicate Recurs(s: seq<int>, k: int) {
    0 <= k <= |s| && OccursEarlier(s, s[|s| - k..])
  }

  ghost predicate OccursEarlier(s: seq<int>, w: seq<int>) {
    exists e :: EndsAt(s, w, e) && e < |s|
  }

  /** `k` is the length of the longest suffix of `s` that occurs earlier, 0 if none does. */
  ghost predicate LongestRecurrence(s: seq<int>, k: int) {
    && (k == 0 || Recurs(s, k))
    && forall j :: k < j ==> !Recurs(s, j)
  }

  lemma RepeatIsRecurrence(s: seq<int>, c: int, m: seq<int>)
    requires LongestRepeat(s, c, m)
    ensures LongestRecurrence(s + [c], |m|)
  {
    hide Reads;
    var t := s + [c];
    EarlierIsOld(s, c, m);
    SuffixSlice(t, m);
    forall j | |m| < j ensures !Recurs(t, j) {
      if Recurs(t, j) {
        EarlierIsOld(s, c, t[|t| - j..]);
        SuffixSlice(t, t[|t| - j..]);
      }
    }
  }

  lemma EarlierIsOld(s: seq<int>, c: int, w: seq<int>)
    ensures OccursEarlier(s + [c], w) <==> Occurs(s, w)
  {
    hide Reads;
    forall e | e <= |s| ensures EndsAt(s + [c], w, e) <==> EndsAt(s, w, e) {
      EndsAtAppend(s, c, w, e);
    }
    if Occurs(s, w) {
      var e :| EndsAt(s, w, e);
      assert EndsAt(s + [c], w, e);
    }
  }

  lemma SuffixSlice(t: seq<int>, w: seq<int>)
    requires |w| <= |t|
    ensures IsSuffix(w, t) <==> t[|t| - |w|..] == w
  {
  }

  // ---------------------------------------------------------------- the two updating walks

  /** The first walk so far: exactly the suffixes of the stream longer than `p` have been opened. */
  ghost predicate OpenedAbove(a: Tables, words: Labels, s: seq<int>, c: int, cur: nat, p: int, next: seq<map<int, int>>)
    requires Shape(a, words) && -1 <= p < |words| && |next| >= |words|
  {
    forall v {:trigger next[v]} :: 0 <= v < |words| ==>
      next[v] == if IsSuffix(words[v], s) && (p == -1 || |words[v]| > |words[p]|) then a.next[v][c := cur]
                 else a.next[v]
  }

  lemma OpenedNone(a: Tables, words: Labels, s: seq<int>, c: int, cur: nat, next: seq<map<int, int>>)
    requires Inv(a, words, s) && next == a.next + [map[]]
    ensures OpenedAbove(a, words, s, c, cur, a.last, next)
  {
    hide Reads;
  }

  /** Two suffixes of one word are told apart by their lengths. */
  lemma SuffixStateByLength(a: Tables, words: Labels, s: seq<int>, x: seq<int>, u: nat, v: nat)
    requires Inv(a, words, s) && u < |words| && v < |words|
    requires IsSuffix(words[u], x) && IsSuffix(words[v], x) && |words[u]| == |words[v]|
    ensures u == v
  {
    ShorterIsSuffix(x, words[u], words[v], |x|);
  }

  lemma OpenedOne(a: Tables, words: Labels, s: seq<int>, c: int, cur: nat, p: int, next: seq<map<int, int>>)
    requires Inv(a, words, s) && 0 <= p < |words| && |next| >= |words|
    requires WalkAt(a, words, s, c, p) && OpenedAbove(a, words, s, c, cur, p, next)
    ensures OpenedAbove(a, words, s, c, cur, a.link[p], next[p := next[p][c := cur]])
    ensures next[p] == a.next[p]
  {
    hide Reads;
    if p > 0 { assert LinkAt(words, p, a.link[p]); }
    var next' := next[p := next[p][c := cur]];
    forall v | 0 <= v < |words| && v != p && IsSuffix(words[v], s)
      ensures (|words[v]| > |words[p]|) <==> (a.link[p] == -1 || |words[v]| > |words[a.link[p]]|)
    {
      if |words[v]| <= |words[p]| {
        if |words[v]| == |words[p]| { SuffixStateByLength(a, words, s, s, v, p); }
        ShorterIsSuffix(s, words[p], words[v], |s|);
      }
    }
  }

  lemma OpenedAll(a: Tables, words: Labels, s: seq<int>, c: int, cur: nat, p: int, next: seq<map<int, int>>)
    requires Inv(a, words, s) && -1 <= p < |words| && |next| >= |words|
    requires WalkAt(a, words, s, c, p) && OpenedAbove(a, words, s, c, cur, p, next)
    requires p >= 0 ==> c in next[p]
    ensures forall v {:trigger next[v]} :: 0 <= v < |words| ==> Opened(a.next[v], next[v], words[v], s, c, cur)
    ensures p >= 0 ==> c in a.next[p] && next[p] == a.next[p]
  {
    hide Reads;
    forall v | 0 <= v < |words| ensures Opened(a.next[v], next[v], words[v], s, c, cur) {
      assert NextAt(a.next[v], words, s, words[v]) && NextStep(a.next[v], words, s, words[v], c);
      if p >= 0 && IsSuffix(words[v], s) && |words[v]| <= |words[p]| {
        assert NextAt(a.next[p], words, s, words[p]) && NextStep(a.next[p], words, s, words[p], c);
        ShorterIsSuffix(s, words[p], words[v], |s|);
        SuffixSnoc(words[v], words[p], c, c);
        var e :| EndsAt(s, words[p] + [c], e);
        SuffixEndsAt(s, words[p] + [c], words[v] + [c], e);
      }
    }
  }

  /** The second walk so far: exactly the suffixes of the start longer than `p` have been turned, all from `q`. */
  ghost predicate TurnedAbove(a: Tables, words: Labels, s: seq<int>, c: int, q: nat, clone: nat, start: int, p: int,
                              mid: seq<map<int, int>>, next: seq<map<int, int>>)
    requires Shape(a, words) && -1 <= p < |words| && 0 <= start < |words| && |mid| >= |words| && |next| >= |words|
  {
    && (p >= 0 ==> IsSuffix(words[p], words[start]))
    && forall v {:trigger next[v]} :: 0 <= v < |words| ==>
         if IsSuffix(words[v], words[start]) && (p == -1 || |words[v]| > |words[p]|)
         then c in mid[v] && mid[v][c] == q && next[v] == mid[v][c := clone]
         else next[v] == mid[v]
  }

  lemma TurnedNone(a: Tables, words: Labels, s: seq<int>, c: int, q: nat, clone: nat, start: int,
                   mid: seq<map<int, int>>)
    requires Inv(a, words, s) && 0 <= start < |words| && |mid| >= |words|
    ensures TurnedAbove(a, words, s, c, q, clone, start, start, mid, mid)
  {
  }

  lemma TurnedOne(a: Tables, words: Labels, s: seq<int>, c: int, q: nat, clone: nat, start: int, p: int,
                  mid: seq<map<int, int>>, next: seq<map<int, int>>)
    requires Inv(a, words, s) && 0 <= p < |words| && 0 <= start < |words| && |mid| >= |words| && |next| >= |words|
    requires TurnedAbove(a, words, s, c, q, clone, start, p, mid, next)
    requires c in next[p] && next[p][c] == q
    ensures TurnedAbove(a, words, s, c, q, clone, start, a.link[p], mid, next[p := next[p][c := clone]])
    ensures a.link[p] >= 0 ==> a.length[a.link[p]] < a.length[p]
  {
    hide Reads;
    var x := words[start];
    if p > 0 {
      assert LinkAt(words, p, a.link[p]);
      SuffixTrans(words[a.link[p]], words[p], x);
    }
    var l := a.link[p];
    var next' := next[p := next[p][c := clone]];
    forall v | 0 <= v < |words|
      ensures if IsSuffix(words[v], x) && (l == -1 || |words[v]| > |words[l]|)
              then c in mid[v] && mid[v][c] == q && next'[v] == mid[v][c := clone]
              else next'[v] == mid[v]
    {
      assert next[v] == mid[v] || c in mid[v];
      if v != p && IsSuffix(words[v], x) && |words[v]| <= |words[p]| {
        if |words[v]| == |words[p]| { SuffixStateByLength(a, words, s, x, v, p); }
        ShorterIsSuffix(x, words[p], words[v], |x|);
      }
    }
  }

  /** Along the suffixes of `x` that read `c` into `q`, there is no gap. */
  lemma NoGap(a: Tables, words: Labels, s: seq<int>, c: int, q: nat, x: seq<int>, p: nat, v: nat)
    requires Inv(a, words, s) && q < |words| && p < |words| && v < |words|
    requires SameEnds(s, x + [c], words[q])
    requires IsSuffix(words[p], x) && IsSuffix(words[v], words[p])
    requires c in a.next[v] && a.next[v][c] == q
    ensures c in a.next[p] && a.next[p][c] == q
  {
    hide Reads;
    assert LeftMaximal(s, words[q]);
    assert NextAt(a.next[v], words, s, words[v]) && NextStep(a.next[v], words, s, words[v], c);
    assert NextAt(a.next[p], words, s, words[p]) && NextStep(a.next[p], words, s, words[p], c);
    SuffixSnoc(words[v], words[p], c, c);
    SuffixSnoc(words[p], x, c, c);
    Between(s, words[v] + [c], words[p] + [c], x + [c]);
    var e :| EndsAt(s, words[q], e);
    assert EndsAt(s, words[p] + [c], e);
    var u := a.next[p][c];
    assert LeftMaximal(s, words[u]);
    MaximalUnique(s, words[u], words[q]);
  }

  lemma TurnedAll(a: Tables, words: Labels, s: seq<int>, c: int, q: nat, clone: nat, start: int, p: int,
                  mid: seq<map<int, int>>, next: seq<map<int, int>>)
    requires Inv(a, words, s) && -1 <= p < |words| && 0 <= start < |words| && q < |words|
    requires |mid| >= |words| && |next| >= |words|
    requires TurnedAbove(a, words, s, c, q, clone, start, p, mid, next)
    requires p >= 0 ==> !(c in next[p] && next[p][c] == q)
    requires Occurs(s, words[start] + [c]) && SameEnds(s, words[start] + [c], words[q])
    requires forall v {:trigger mid[v]} :: 0 <= v < |words| ==> Opened(a.next[v], mid[v], words[v], s, c, |words|)
    ensures forall v {:trigger next[v]} :: 0 <= v < |words|
              ==> Redirected(mid[v], next[v], words[v], words[start] + [c], c, q, clone)
  {
    hide Reads;
    var x := words[start];
    forall v | 0 <= v < |words| ensures Redirected(mid[v], next[v], words[v], x + [c], c, q, clone) {
      SuffixSnoc(words[v], x, c, c);
      if IsSuffix(words[v], x) {
        ReadsOnLikeOld(a, words, s, c, x, v, mid[v]);
        if p >= 0 && |words[v]| <= |words[p]| {
          ReadsOnLikeOld(a, words, s, c, x, p, mid[p]);
          ShorterIsSuffix(x, words[p], words[v], |x|);
          if c in mid[v] && mid[v][c] == q { NoGap(a, words, s, c, q, x, p, v); }
        }
      }
    }
  }

  /** The first walk leaves the suffixes of the repeat's stem as they were. */
  lemma ReadsOnLikeOld(a: Tables, words: Labels, s: seq<int>, c: int, x: seq<int>, v: nat, mid: map<int, int>)
    requires Shape(a, words) && v < |words| && IsSuffix(words[v], x) && Occurs(s, x + [c])
    requires Opened(a.next[v], mid, words[v], s, c, |words|)
    ensures mid == a.next[v]
  {
    hide Reads;
    var e :| EndsAt(s, x + [c], e);
    SuffixSnoc(words[v], x, c, c);
    SuffixEndsAt(s, x + [c], words[v] + [c], e);
  }

  // ---------------------------------------------------------------- the empty automaton

  lemma EmptyNext()
    ensures NextAt(map[], [[]], [], [])
  {
    forall c ensures NextStep(map[], [[]], [], [], c) {
      assert !Occurs([], [] + [c]);
    }
  }

  lemma EmptyMaximal(w: seq<int>)
    ensures LeftMaximal([], w) <==> w == []
  {
    if w == [] {
      assert EndsAt([], w, 0);
      forall d ensures !ExtendsBy([], w, d) { assert !EndsAt([], [d] + w, 0); }
    }
  }

  lemma EmptyInv()
    ensures Inv(Tables([map[]], [-1], [0], 0), [[]], []) && Complete([[]], [])
  {
    hide LeftMaximal, NextAt;
    EmptyNext();
    EmptyMaximal([]);
    forall w | LeftMaximal([], w) ensures w in [[]] { EmptyMaximal(w); }
  }

  // ---------------------------------------------------------------- closing a step

  lemma SameStop(a: Tables, words: Labels, s: seq<int>, c: int, g: int, p: int)
    requires Inv(a, words, s) && WalkAt(a, words, s, c, g) && WalkAt(a, words, s, c, p)
    requires g >= 0 ==> c in a.next[g]
    requires p >= 0 ==> c in a.next[p]
    ensures g == p
    ensures p >= 0 ==> 0 <= a.next[p][c] < |words|
  {
    hide Reads;
    if p >= 0 {
      assert NextAt(a.next[p], words, s, words[p]) && NextStep(a.next[p], words, s, words[p], c);
    }
    if g >= 0 && p >= 0 { SuffixStateByLength(a, words, s, s, g, p); }
  }

  /** What one step leaves behind, besides the automaton's own invariant. */
  ghost predicate Stepped(b: Tables, words': Labels, t: seq<int>, state: int, len: int) {
    && Inv(b, words', t) && Complete(words', t)
    && CursorAt(b, words', t, state, len)
    && LongestRecurrence(t, len)
    && 0 < b.last < |b.link| && 0 <= b.link[b.last] < |b.length| && len == b.length[b.link[b.last]]
    && |words'| <= StateBound(|t|)
  }

  /** When the lengths agree, the state the walk leads to carries the longest repeat itself. */
  lemma PlainFound(a: Tables, words: Labels, s: seq<int>, c: int, g: int, q: int)
    requires Inv(a, words, s) && Complete(words, s) && WalkAt(a, words, s, c, g)
    requires g == -1 ==> q == 0
    requires g >= 0 ==> c in a.next[g] && q == a.next[g][c] && 0 <= q < |words| && a.length[g] + 1 == a.length[q]
    ensures LongestRepeat(s, c, words[q])
  {
    hide Reads;
    if g == -1 {
      WalkFailed(a, words, s, c);
    } else {
      WalkFound(a, words, s, c, g);
      assert NextAt(a.next[g], words, s, words[g]) && NextStep(a.next[g], words, s, words[g], c);
      var e :| EndsAt(s, words[q], e);
      ShorterIsSuffix(s, words[q], words[g] + [c], e);
    }
  }

  lemma PlainDone(a: Tables, words: Labels, s: seq<int>, c: int, g: int, q: int, b: Tables, counts: seq<int>)
    requires Inv(a, words, s) && Complete(words, s) && |words| <= StateBound(|s|)
    requires WalkAt(a, words, s, c, g)
    requires g == -1 ==> q == 0
    requires g >= 0 ==> c in a.next[g] && q == a.next[g][c] && 0 <= q < |words| && a.length[g] + 1 == a.length[q]
    requires PlainFrame(a, words, s, c, q, b)
    ensures Stepped(b, words + [s + [c]], s + [c], q, a.length[q])
    ensures OwnCounts(counts, words, s) ==> OwnCounts(counts + [1], words + [s + [c]], s + [c])
  {
    hide Reads, Opened, StatesAreMaximal, LinksAreLongest, NextsAreRight, Complete, LongestRecurrence;
    PlainFound(a, words, s, c, g, q);
    PlainStepInv(a, words, s, c, q, b);
    StaysComplete(words, words + [s + [c]], s, c, words[q]);
    RepeatIsRecurrence(s, c, words[q]);
    OldOccurs(a, words, s, c, words[q]);
    forall v | 0 <= v < |words| ensures OwnCount(words[v], s + [c]) == OwnCount(words[v], s) {
      OwnCountAppend(words[v], s, c);
    }
  }

  /** The longest repeat read off the walk is a proper suffix of the state it leads to, when the lengths differ. */
  lemma SplitFound(a: Tables, words: Labels, s: seq<int>, c: int, g: int, q: int)
    requires Inv(a, words, s) && Complete(words, s) && WalkAt(a, words, s, c, g)
    requires g >= 0 && c in a.next[g] && q == a.next[g][c] && 0 <= q < |words| && a.length[g] + 1 != a.length[q]
    ensures Splits(a, words, s, c, words[g] + [c], q)
  {
    hide Reads;
    var m := words[g] + [c];
    WalkFound(a, words, s, c, g);
    assert NextAt(a.next[g], words, s, words[g]) && NextStep(a.next[g], words, s, words[g], c);
    assert LeftMaximal(s, words[q]);
    var e :| EndsAt(s, words[q], e);
    if |words[q]| < |m| {
      ShorterIsSuffix(s, m, words[q], e);
      NotMaximalBelow(s, m, words[q]);
    }
    ShorterIsSuffix(s, words[q], m, e);
  }

  lemma CloneDone(a: Tables, words: Labels, s: seq<int>, c: int, g: int, q: int, mid: seq<map<int, int>>, b: Tables,
                  counts: seq<int>)
    requires Inv(a, words, s) && Complete(words, s) && |words| <= StateBound(|s|)
    requires WalkAt(a, words, s, c, g)
    requires g >= 0 && c in a.next[g] && q == a.next[g][c] && 0 <= q < |words| && a.length[g] + 1 != a.length[q]
    requires CloneFrame(a, words, s, c, words[g] + [c], q, mid, b)
    ensures Stepped(b, words + [s + [c], words[g] + [c]], s + [c], q, a.length[g] + 1)
    ensures OwnCounts(counts, words, s) ==> OwnCounts(counts + [1, 0], words + [s + [c], words[g] + [c]], s + [c])
  {
    hide Reads, Redirected, Opened, StatesAreMaximal, LinksAreLongest, NextsAreRight, SameEnds, Complete,
         LeftMaximal, LongestRepeat, LongestRecurrence;
    var m := words[g] + [c];
    SplitFound(a, words, s, c, g, q);
    assert CloneStep(a, words, s, c, m, q, mid, b);
    CloneStepInv(a, words, s, c, m, q, mid, b);
    assert LongestRepeat(s, c, m);
    StaysComplete(words, words + [s + [c], m], s, c, m);
    RepeatIsRecurrence(s, c, m);
    CloneKeepsTable(a, words, s, c, m, q, mid, b);
    SplitCounts(a, words, s, c, m, q);
  }

  /** The split state itself reads on unchanged: its table is the clone's, so the match cursor need not move. */
  lemma CloneKeepsTable(a: Tables, words: Labels, s: seq<int>, c: int, m: seq<int>, q: nat, mid: seq<map<int, int>>,
                        b: Tables)
    requires Shape(a, words) && CloneStep(a, words, s, c, m, q, mid, b)
    ensures b.next[q] == b.next[|words| + 1]
  {
    hide Reads;
    assert Redirected(mid[q], b.next[q], words[q], m, c, q, |words| + 1);
  }

  lemma SplitCounts(a: Tables, words: Labels, s: seq<int>, c: int, m: seq<int>, q: nat)
    requires Splits(a, words, s, c, m, q)
    ensures forall v :: 0 <= v < |words| ==> OwnCount(words[v], s + [c]) == OwnCount(words[v], s)
    ensures OwnCount(s + [c], s + [c]) == 1
    ensures OwnCount(m, s + [c]) == 0
    ensures |s| >= |words[q]|
  {
    hide Reads;
    OldOccurs(a, words, s, c, m);
    forall v | 0 <= v < |words| ensures OwnCount(words[v], s + [c]) == OwnCount(words[v], s) {
      OwnCountAppend(words[v], s, c);
    }
    OwnCountAppend(m, s, c);
    NotMaximalBelow(s, words[q], m);
    if m <= s { PrefixMaximal(s, m); }
  }

  lemma OwnCountAppend(w: seq<int>, s: seq<int>, c: int)
    requires w != s + [c]
    ensures OwnCount(w, s + [c]) == OwnCount(w, s)
  {
    if w <= s + [c] {
      assert |w| <= |s|;
      assert w == (s + [c])[..|w|] == s[..|w|];
    }
  }

  lemma PrefixMaximal(s: seq<int>, w: seq<int>)
    requires w <= s
    ensures LeftMaximal(s, w)
  {
    assert EndsAt(s, w, |w|);
  }

  // ---------------------------------------------------------------- occurrence counts

  /** Inserts `v` behind every state that is at least as long, as Python's stable descending sort does. */
  function InsertDescending(length: seq<int>, order: seq<int>, v: int): seq<int>
    requires 0 <= v < |length| && forall i :: 0 <= i < |order| ==> 0 <= order[i] < |length|
  {
    if order == [] || length[order[0]] < length[v] then [v] + order
    else [order[0]] + InsertDescending(length, order[1..], v)
  }

  function DescendingOrder(length: seq<int>, k: nat): (order: seq<int>)
    requires k <= |length|
    ensures forall i :: 0 <= i < |order| ==> 0 <= order[i] < |length|
    ensures |order| == k
  {
    if k == 0 then [] else
      InsertDescendingIsRight(length, DescendingOrder(length, k - 1), k - 1);
      InsertDescending(length, DescendingOrder(length, k - 1), k - 1)
  }

  ghost predicate Descending(length: seq<int>, order: seq<int>)
    requires forall i :: 0 <= i < |order| ==> 0 <= order[i] < |length|
  {
    forall i, j :: 0 <= i < j < |order| ==> length[order[i]] >= length[order[j]]
  }

  ghost predicate Distinct(order: seq<int>) {
    forall i, j :: 0 <= i < j < |order| ==> order[i] != order[j]
  }

  lemma {:induction false} InsertDescendingIsRight(length: seq<int>, order: seq<int>, v: int)
    requires 0 <= v < |length| && forall i :: 0 <= i < |order| ==> 0 <= order[i] < |length|
    ensures var o := InsertDescending(length, order, v);
            && |o| == |order| + 1
            && (forall i :: 0 <= i < |o| ==> 0 <= o[i] < |length|)
            && (forall u :: u in o <==> u in order || u == v)
            && (Descending(length, order) ==> Descending(length, o))
  {
    if order == [] || length[order[0]] < length[v] {
    } else {
      InsertDescendingIsRight(length, order[1..], v);
      var o := InsertDescending(length, order[1..], v);
      assert order == [order[0]] + order[1..];
      if Descending(length, order) {
        assert Descending(length, order[1..]);
        forall i | 0 <= i < |o| ensures length[order[0]] >= length[o[i]] {
          assert o[i] in o;
        }
      }
    }
  }

  lemma {:induction false} DescendingOrderIsRight(length: seq<int>, k: nat)
    requires k <= |length|
    ensures Descending(length, DescendingOrder(length, k))
    ensures forall u :: u in DescendingOrder(length, k) <==> 0 <= u < k
    ensures Distinct(DescendingOrder(length, k))
  {
    hide Distinct, Descending, InsertDescending;
    if k > 0 {
      DescendingOrderIsRight(length, k - 1);
      var o := DescendingOrder(length, k - 1);
      InsertDescendingIsRight(length, o, k - 1);
      InsertKeepsDistinct(length, o, k - 1);
    } else {
      NothingToOrder(length);
    }
  }

  lemma NothingToOrder(length: seq<int>)
    ensures Descending(length, []) && Distinct([])
  {
  }

  lemma {:induction false} InsertKeepsDistinct(length: seq<int>, order: seq<int>, v: int)
    requires 0 <= v < |length| && forall i :: 0 <= i < |order| ==> 0 <= order[i] < |length|
    requires v !in order && Distinct(order)
    ensures Distinct(InsertDescending(length, order, v))
  {
    if order == [] || length[order[0]] < length[v] {
    } else {
      InsertKeepsDistinct(length, order[1..], v);
      InsertDescendingIsRight(length, order[1..], v);
      var o := InsertDescending(length, order[1..], v);
      forall i | 0 <= i < |o| ensures o[i] != order[0] { assert o[i] in o; }
    }
  }

  ghost function PositiveEnds(s: seq<int>, w: seq<int>): set<int> {
    set e | 1 <= e <= |s| && EndsAt(s, w, e)
  }

  /** The end positions already added up at `v`: its own prefix, and those of its links' sources in `done`. */
  ghost function Covered(a: Tables, words: Labels, s: seq<int>, v: int, done: seq<int>): set<int>
    requires Shape(a, words) && 0 <= v < |words| && forall u :: u in done ==> 0 <= u < |words|
  {
    set e | 1 <= e <= |s| && EndsAt(s, words[v], e) && (words[v] == s[..e] || PassedUp(a, words, s, v, done, e))
  }

  ghost predicate PassedUp(a: Tables, words: Labels, s: seq<int>, v: int, done: seq<int>, e: int)
    requires Shape(a, words) && forall u :: u in done ==> 0 <= u < |words|
  {
    exists u :: u in done && a.link[u] == v && EndsAt(s, words[u], e)
  }

  lemma CoveredAtFirst(a: Tables, words: Labels, s: seq<int>, cnt: seq<int>)
    requires Shape(a, words) && OwnCounts(cnt, words, s)
    ensures forall v :: 0 <= v < |words| ==> cnt[v] == |Covered(a, words, s, v, [])|
  {
    forall v | 0 <= v < |words| ensures cnt[v] == |Covered(a, words, s, v, [])| {
      var w := words[v];
      OwnPrefix(w, s);
      assert Covered(a, words, s, v, []) == if w != [] && w <= s then {|w|} else {};
    }
  }

  lemma OwnPrefix(w: seq<int>, s: seq<int>)
    ensures forall e :: 1 <= e <= |s| && EndsAt(s, w, e) && w == s[..e] <==> w != [] && w <= s && e == |w|
  {
  }

  /** Above a state on the link path of a prefix there is the state that passes that prefix's end up to it. */
  lemma PassingState(a: Tables, words: Labels, s: seq<int>, v: int, x: int, e: int) returns (u: int)
    requires Inv(a, words, s) && 0 <= v < |words| && 0 < x < |words| && x != v
    requires EndsAt(s, words[x], e) && IsSuffix(words[v], words[x])
    ensures 0 < u < |words| && a.link[u] == v && EndsAt(s, words[u], e)
    decreases |words[x]|
  {
    hide Reads;
    assert LinkAt(words, x, a.link[x]);
    if a.link[x] == v {
      u := x;
    } else {
      var l := a.link[x];
      SuffixEndsAt(s, words[x], words[l], e);
      ShorterIsSuffix(words[x], words[l], words[v], |words[x]|);
      assert l != 0;
      u := PassingState(a, words, s, v, l, e);
    }
  }

  /** Once every state linked to `v` is done, all end positions of `v` are covered. */
  lemma CoveredFull(a: Tables, words: Labels, s: seq<int>, v: int, done: seq<int>)
    requires Inv(a, words, s) && Complete(words, s) && 0 <= v < |words|
    requires forall u :: u in done ==> 0 <= u < |words|
    requires forall u :: 0 < u < |words| && a.link[u] == v ==> u in done
    ensures Covered(a, words, s, v, done) == PositiveEnds(s, words[v])
  {
    hide Reads, Complete, StatesAreMaximal, LinksAreLongest, NextsAreRight, PassedUp;
    forall e | 1 <= e <= |s| && EndsAt(s, words[v], e) && words[v] != s[..e]
      ensures PassedUp(a, words, s, v, done, e)
    {
      EndIsPassedUp(a, words, s, v, done, e);
    }
  }

  lemma EndIsPassedUp(a: Tables, words: Labels, s: seq<int>, v: int, done: seq<int>, e: int)
    requires Inv(a, words, s) && Complete(words, s) && 0 <= v < |words|
    requires forall u :: u in done ==> 0 <= u < |words|
    requires forall u :: 0 < u < |words| && a.link[u] == v ==> u in done
    requires 1 <= e <= |s| && EndsAt(s, words[v], e) && words[v] != s[..e]
    ensures PassedUp(a, words, s, v, done, e)
  {
    hide Reads;
    PrefixMaximal(s, s[..e]);
    PrefixEndsAt(s, e);
    var x :| 0 <= x < |words| && words[x] == s[..e];
    ShorterIsSuffix(s, words[x], words[v], e);
    var u := PassingState(a, words, s, v, x, e);
  }

  lemma PrefixEndsAt(s: seq<int>, e: int)
    requires 0 <= e <= |s|
    ensures EndsAt(s, s[..e], e)
  {
  }

  /** Different states linked to the same `v` have no end position in common. */
  lemma SiblingsDisjoint(a: Tables, words: Labels, s: seq<int>, u: int, i: int, e: int)
    requires Inv(a, words, s) && 0 < u < |words| && 0 < i < |words| && a.link[u] == a.link[i]
    requires EndsAt(s, words[u], e) && EndsAt(s, words[i], e)
    ensures u == i
  {
    hide Reads;
    assert LinkAt(words, u, a.link[u]) && LinkAt(words, i, a.link[i]);
    if |words[u]| <= |words[i]| {
      ShorterIsSuffix(s, words[i], words[u], e);
    } else {
      ShorterIsSuffix(s, words[u], words[i], e);
    }
  }

  lemma CoveredStep(a: Tables, words: Labels, s: seq<int>, order: seq<int>, k: nat)
    requires Inv(a, words, s) && Complete(words, s) && k < |order|
    requires (forall i :: 0 <= i < |order| ==> 0 <= order[i] < |words|) && forall u :: 0 <= u < |words| ==> u in order
    requires Descending(a.length, order) && Distinct(order)
    ensures forall v :: 0 <= v < |words| ==>
              |Covered(a, words, s, v, order[..k + 1])| == |Covered(a, words, s, v, order[..k])|
                + if a.link[order[k]] == v then |Covered(a, words, s, order[k], order[..k])| else 0
  {
    hide Reads;
    var i := order[k];
    var done := order[..k];
    assert i in order;
    assert order[..k + 1] == done + [i];
    assert forall u :: u in done ==> u in order;
    ChildrenFirst(a, words, s, order, k);
    CoveredFull(a, words, s, i, done);
    forall v | 0 <= v < |words|
      ensures |Covered(a, words, s, v, done + [i])| == |Covered(a, words, s, v, done)|
                + if a.link[i] == v then |Covered(a, words, s, i, done)| else 0
    {
      if a.link[i] == v {
        CoveredUnion(a, words, s, v, i, done);
        CoveredApart(a, words, s, v, i, done);
      } else {
        assert Covered(a, words, s, v, done + [i]) == Covered(a, words, s, v, done);
      }
    }
  }

  lemma ChildrenFirst(a: Tables, words: Labels, s: seq<int>, order: seq<int>, k: nat)
    requires Inv(a, words, s) && k < |order|
    requires (forall i :: 0 <= i < |order| ==> 0 <= order[i] < |words|) && forall u :: 0 <= u < |words| ==> u in order
    requires Descending(a.length, order)
    ensures forall u :: 0 < u < |words| && a.link[u] == order[k] ==> u in order[..k]
  {
    hide Reads;
    forall u | 0 < u < |words| && a.link[u] == order[k] ensures u in order[..k] {
      assert LinkAt(words, u, a.link[u]);
      assert u in order;
      var j :| 0 <= j < |order| && order[j] == u;
      assert j < k;
      assert order[..k][j] == u;
    }
  }

  lemma CoveredUnion(a: Tables, words: Labels, s: seq<int>, v: int, i: int, done: seq<int>)
    requires Inv(a, words, s) && 0 < i < |words| && 0 <= v < |words| && a.link[i] == v
    requires forall u :: u in done ==> 0 <= u < |words|
    ensures Covered(a, words, s, v, done + [i]) == Covered(a, words, s, v, done) + PositiveEnds(s, words[i])
  {
    hide Reads;
    assert LinkAt(words, i, v);
    forall e | EndsAt(s, words[i], e) && e > 0 ensures e in Covered(a, words, s, v, done + [i]) {
      SuffixEndsAt(s, words[i], words[v], e);
      assert i in done + [i];
    }
    forall e | e in Covered(a, words, s, v, done) ensures e in Covered(a, words, s, v, done + [i]) {
      if words[v] != s[..e] {
        assert PassedUp(a, words, s, v, done, e);
        var u :| u in done && a.link[u] == v && EndsAt(s, words[u], e);
        assert u in done + [i];
      }
    }
  }

  lemma CoveredApart(a: Tables, words: Labels, s: seq<int>, v: int, i: int, done: seq<int>)
    requires Inv(a, words, s) && 0 < i < |words| && 0 <= v < |words| && a.link[i] == v
    requires i !in done && forall u :: u in done ==> 0 <= u < |words|
    ensures Covered(a, words, s, v, done) !! PositiveEnds(s, words[i])
  {
    hide Reads;
    assert LinkAt(words, i, v);
    forall e | e in Covered(a, words, s, v, done) ensures !EndsAt(s, words[i], e) {
      if EndsAt(s, words[i], e) && words[v] != s[..e] {
        assert PassedUp(a, words, s, v, done, e);
        var u :| u in done && a.link[u] == v && EndsAt(s, words[u], e);
        SiblingsDisjoint(a, words, s, u, i, e);
      }
    }
  }

  lemma CoveredAtLast(a: Tables, words: Labels, s: seq<int>, v: int, order: seq<int>)
    requires Inv(a, words, s) && Complete(words, s) && 0 <= v < |words|
    requires forall u :: u in order <==> 0 <= u < |words|
    ensures |Covered(a, words, s, v, order)| == if v == 0 then |s| else |EndPos(s, words[v])|
  {
    CoveredFull(a, words, s, v, order);
    if v == 0 {
      EmptyWordEnds(s, |s|);
    } else {
      assert words[v] != words[0];
      assert EndPos(s, words[v]) == PositiveEnds(s, words[v]);
    }
  }

  lemma {:induction false} EmptyWordEnds(s: seq<int>, k: nat)
    requires k <= |s|
    ensures |set e | 1 <= e <= k && EndsAt(s, [], e)| == k
  {
    if k > 0 {
      EmptyWordEnds(s, k - 1);
      assert EndsAt(s, [], k);
      assert (set e | 1 <= e <= k && EndsAt(s, [], e)) == (set e | 1 <= e <= k - 1 && EndsAt(s, [], e)) + {k};
    } else {
      assert (set e | 1 <= e <= k && EndsAt(s, [], e)) == {};
    }
  }

  // ---------------------------------------------------------------- the language of the automaton

  /** The state reached from the root by reading `w`, or -1. */
  function Read(next: seq<map<int, int>>, w: seq<int>): int {
    if w == [] then 0 else
      var v := Read(next, w[..|w| - 1]);
      if 0 <= v < |next| && w[|w| - 1] in next[v] then next[v][w[|w| - 1]] else -1
  }

  /** Exactly the substrings of the stream can be read, and each leads to the state with its end positions. */
  lemma {:induction false} ReadIsRight(a: Tables, words: Labels, s: seq<int>, w: seq<int>)
    requires Inv(a, words, s)
    ensures Occurs(s, w) <==> 0 <= Read(a.next, w) < |words|
    ensures !Occurs(s, w) <==> Read(a.next, w) == -1
    ensures Occurs(s, w) ==> SameEnds(s, w, words[Read(a.next, w)])
    decreases |w|
  {
    hide Reads;
    if w == [] {
      assert LeftMaximal(s, words[0]);
    } else {
      var x, c := w[..|w| - 1], w[|w| - 1];
      assert w == x + [c];
      ReadIsRight(a, words, s, x);
      if Occurs(s, x) {
        var v := Read(a.next, x);
        assert NextAt(a.next[v], words, s, words[v]) && NextStep(a.next[v], words, s, words[v], c);
        SameEndsSnoc(s, x, words[v], c);
        assert Occurs(s, w) <==> Occurs(s, words[v] + [c]);
      } else {
        forall e ensures !EndsAt(s, x + [c], e) { EndsAtSnoc(s, x, c, e); }
      }
    }
  }

  /** Two substrings share a state exactly when they end at the same positions. */
  lemma SameStateIffSameEnds(a: Tables, words: Labels, s: seq<int>, x: seq<int>, y: seq<int>)
    requires Inv(a, words, s) && Occurs(s, x) && Occurs(s, y)
    ensures Read(a.next, x) == Read(a.next, y) <==> EndPos(s, x) == EndPos(s, y)
  {
    hide Reads;
    ReadIsRight(a, words, s, x);
    ReadIsRight(a, words, s, y);
    var u, v := Read(a.next, x), Read(a.next, y);
    if EndPos(s, x) == EndPos(s, y) {
      forall e ensures EndsAt(s, words[u], e) <==> EndsAt(s, words[v], e) {
        assert e in EndPos(s, x) <==> e in EndPos(s, y);
      }
      assert LeftMaximal(s, words[u]) && LeftMaximal(s, words[v]);
      MaximalUnique(s, words[u], words[v]);
    }
  }

  /** Every non-empty substring is counted at the state it is read into. */
  lemma CountOfWord(a: Tables, words: Labels, s: seq<int>, w: seq<int>)
    requires Inv(a, words, s) && w != [] && Occurs(s, w)
    ensures 0 < Read(a.next, w) < |words| && EndPos(s, w) == EndPos(s, words[Read(a.next, w)])
  {
    hide Reads;
    ReadIsRight(a, words, s, w);
    if Read(a.next, w) == 0 {
      PrefixEndsAt(s, 0);
    }
  }

  /** The link of a state parts its suffixes: the longer ones share the state's end positions, the others do not. */
  lemma LinkPartsSuffixes(a: Tables, words: Labels, s: seq<int>, v: int, w: seq<int>)
    requires Inv(a, words, s) && Complete(words, s) && 0 < v < |words| && IsSuffix(w, words[v])
    ensures SameEnds(s, w, words[v]) <==> |w| > |words[a.link[v]]|
  {
    hide Reads;
    var l := a.link[v];
    assert LinkAt(words, v, l);
    if |w| <= |words[l]| {
      ShorterIsSuffix(words[v], words[l], w, |words[v]|);
      if SameEnds(s, w, words[v]) {
        Between(s, w, words[l], words[v]);
        MaximalUnique(s, words[l], words[v]);
      }
    } else {
      AboveLink(a, words, s, v, w);
    }
  }

  lemma {:induction false} AboveLink(a: Tables, words: Labels, s: seq<int>, v: int, w: seq<int>)
    requires Inv(a, words, s) && Complete(words, s) && 0 < v < |words|
    requires IsSuffix(w, words[v]) && |w| > |words[a.link[v]]|
    ensures SameEnds(s, w, words[v])
    decreases |words[v]| - |w|
  {
    assert LinkAt(words, v, a.link[v]);
    var x := words[v];
    var e :| EndsAt(s, x, e);
    SuffixEndsAt(s, x, w, e);
    if |w| == |x| {
      ShorterIsSuffix(s, x, w, e);
    } else {
      assert !LeftMaximal(s, w);
      var d :| ExtendsBy(s, w, d);
      ShorterIsSuffix(s, x, [d] + w, e);
      AboveLink(a, words, s, v, [d] + w);
      forall e' ensures EndsAt(s, w, e') <==> EndsAt(s, x, e') {
        if EndsAt(s, x, e') { SuffixEndsAt(s, x, w, e'); }
      }
    }
  }
}
