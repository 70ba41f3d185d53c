/** Occurrences of a word in a token stream, and the left-maximal words that a suffix automaton uses as states. */
module Words {

  /** The `|w|` tokens of `s` just before position `e` are `w`. */
  predicate Reads(s: seq<int>, w: seq<int>, e: int)
    requires |w| <= e <= |s|
  {
    s[e - |w|..e] == w
  }

  /** An occurrence of `w` in `s` ends just before position `e`. */
  predicate EndsAt(s: seq<int>, w: seq<int>, e: int) {
    |w| <= e <= |s| && Reads(s, w, e)
  }

  predicate IsSuffix(w: seq<int>, s: seq<int>) {
    EndsAt(s, w, |s|)
  }

  ghost predicate Occurs(s: seq<int>, w: seq<int>) {
    exists e :: EndsAt(s, w, e)
  }

  ghost function EndPos(s: seq<int>, w: seq<int>): set<int> {
    set e | 0 <= e <= |s| && EndsAt(s, w, e)
  }

  ghost predicate SameEnds(s: seq<int>, x: seq<int>, y: seq<int>) {
    forall e :: EndsAt(s, x, e) <==> EndsAt(s, y, e)
  }

  /** Every occurrence of `w` is preceded by the token `d`. */
  ghost predicate ExtendsBy(s: seq<int>, w: seq<int>, d: int) {
    forall e :: EndsAt(s, w, e) ==> EndsAt(s, [d] + w, e)
  }

  /** `w` occurs, and no single token precedes all of its occurrences: it is the longest word of its class. */
  ghost predicate LeftMaximal(s: seq<int>, w: seq<int>) {
    Occurs(s, w) && forall d :: !ExtendsBy(s, w, d)
  }

  /** `w` is the longest suffix of `s + [c]` that occurs in `s`. */
  ghost predicate LongestRepeat(s: seq<int>, c: int, w: seq<int>) {
    && IsSuffix(w, s + [c])
    && Occurs(s, w)
    && forall x :: IsSuffix(x, s + [c]) && Occurs(s, x) ==> |x| <= |w|
  }

  lemma SuffixEndsAt(s: seq<int>, x: seq<int>, w: seq<int>, e: int)
    requires IsSuffix(w, x) && EndsAt(s, x, e)
    ensures EndsAt(s, w, e)
  {
    assert s[e - |w|..e] == s[e - |x|..e][|x| - |w|..];
  }

  lemma ShorterIsSuffix(s: seq<int>, x: seq<int>, w: seq<int>, e: int)
    requires EndsAt(s, x, e) && EndsAt(s, w, e) && |w| <= |x|
    ensures IsSuffix(w, x)
    ensures |w| == |x| ==> w == x
  {
    assert s[e - |w|..e] == s[e - |x|..e][|x| - |w|..];
  }

  lemma EndsAtAppend(s: seq<int>, c: int, w: seq<int>, e: int)
    ensures e <= |s| ==> (EndsAt(s + [c], w, e) <==> EndsAt(s, w, e))
    ensures e == |s| + 1 ==> (EndsAt(s + [c], w, e) <==> IsSuffix(w, s + [c]))
  {
    if |w| <= e <= |s| {
      assert (s + [c])[e - |w|..e] == s[e - |w|..e];
    }
  }

  lemma EndsAtSnoc(s: seq<int>, w: seq<int>, c: int, e: int)
    ensures EndsAt(s, w + [c], e) <==> 1 <= e <= |s| && EndsAt(s, w, e - 1) && s[e - 1] == c
  {
    var x := w + [c];
    if EndsAt(s, x, e) {
      assert s[e - |x|..e][..|w|] == s[e - 1 - |w|..e - 1];
      assert x[..|w|] == w;
      assert s[e - |x|..e][|w|] == s[e - 1];
    }
  }

  /** A word one token longer than `w` on the left, read off an occurrence of a longer word. */
  lemma OneLonger(x: seq<int>, w: seq<int>) returns (d: int)
    requires IsSuffix(w, x) && |w| < |x|
    ensures IsSuffix([d] + w, x)
  {
    d := x[|x| - |w| - 1];
    assert x[|x| - |w| - 1..] == [d] + w;
  }

  /** If a suffix of `x` has no occurrence outside those of `x`, it is not left-maximal unless it is `x`. */
  lemma NotMaximalBelow(s: seq<int>, x: seq<int>, w: seq<int>)
    requires IsSuffix(w, x) && |w| < |x|
    requires forall e :: EndsAt(s, w, e) ==> EndsAt(s, x, e)
    ensures !LeftMaximal(s, w)
  {
    hide Reads;
    var d := OneLonger(x, w);
    forall e | EndsAt(s, w, e) ensures EndsAt(s, [d] + w, e) {
      SuffixEndsAt(s, x, [d] + w, e);
    }
    assert ExtendsBy(s, w, d);
  }

  lemma MaximalUnique(s: seq<int>, x: seq<int>, y: seq<int>)
    requires LeftMaximal(s, x) && LeftMaximal(s, y) && SameEnds(s, x, y)
    ensures x == y
  {
    hide Reads;
    var e :| EndsAt(s, x, e);
    if |x| <= |y| {
      ShorterIsSuffix(s, y, x, e);
      if |x| < |y| { NotMaximalBelow(s, y, x); }
    } else {
      ShorterIsSuffix(s, x, y, e);
      NotMaximalBelow(s, x, y);
    }
  }

  /** A word lying between two words with the same occurrences has those occurrences too. */
  lemma Between(s: seq<int>, x: seq<int>, y: seq<int>, z: seq<int>)
    requires IsSuffix(x, y) && IsSuffix(y, z) && SameEnds(s, x, z)
    ensures SameEnds(s, y, z) && SameEnds(s, x, y)
  {
    hide Reads;
    forall e ensures EndsAt(s, y, e) <==> EndsAt(s, z, e) {
      if EndsAt(s, y, e) { SuffixEndsAt(s, y, x, e); }
      if EndsAt(s, z, e) { SuffixEndsAt(s, z, y, e); }
    }
  }

  lemma SuffixTrans(w: seq<int>, x: seq<int>, y: seq<int>)
    requires IsSuffix(w, x) && IsSuffix(x, y)
    ensures IsSuffix(w, y)
  {
    SuffixEndsAt(y, x, w, |y|);
  }

  lemma SuffixSnoc(w: seq<int>, x: seq<int>, c: int, d: int)
    ensures IsSuffix(w + [c], x + [d]) <==> IsSuffix(w, x) && c == d
  {
    EndsAtSnoc(x + [d], w, c, |x| + 1);
    EndsAtAppend(x, d, w, |x|);
  }

  lemma OccursAppend(s: seq<int>, c: int, w: seq<int>)
    ensures Occurs(s + [c], w) <==> Occurs(s, w) || IsSuffix(w, s + [c])
  {
    hide Reads;
    forall e ensures EndsAt(s + [c], w, e) ==> EndsAt(s, w, e) || IsSuffix(w, s + [c]) {
      EndsAtAppend(s, c, w, e);
    }
    if e :| EndsAt(s, w, e) {
      EndsAtAppend(s, c, w, e);
    }
  }

  /** Words with the same occurrences keep that when one token is appended to both. */
  lemma SameEndsSnoc(s: seq<int>, x: seq<int>, y: seq<int>, c: int)
    requires SameEnds(s, x, y)
    ensures SameEnds(s, x + [c], y + [c])
  {
    hide Reads;
    forall e ensures EndsAt(s, x + [c], e) <==> EndsAt(s, y + [c], e) {
      EndsAtSnoc(s, x, c, e);
      EndsAtSnoc(s, y, c, e);
    }
  }

  /** The suffix of `s` that can be read on with `c` inside `s` gives the longest repeat: it is left-maximal. */
  lemma RepeatStemMaximal(s: seq<int>, c: int, x: seq<int>)
    requires LongestRepeat(s, c, x + [c])
    ensures IsSuffix(x, s) && LeftMaximal(s, x)
  {
    hide Reads;
    SuffixSnoc(x, s, c, c);
    forall d ensures !ExtendsBy(s, x, d) {
      if ExtendsBy(s, x, d) {
        var e :| EndsAt(s, x + [c], e);
        EndsAtSnoc(s, x, c, e);
        EndsAtSnoc(s, [d] + x, c, e);
        SuffixSnoc([d] + x, s, c, c);
      }
    }
  }

  /** Appending a token makes exactly two words left-maximal: the whole stream and the longest repeat. */
  lemma NewMaximal(s: seq<int>, c: int, m: seq<int>, w: seq<int>)
    requires LongestRepeat(s, c, m)
    ensures LeftMaximal(s + [c], w) <==> LeftMaximal(s, w) || w == s + [c] || w == m
  {
    var t := s + [c];
    OccursAppend(s, c, w);
    if LeftMaximal(s, w) {
      StaysMaximal(s, c, w);
    } else if w == t {
      assert EndsAt(t, t, |t|);
    } else if w == m {
      RepeatBecomesMaximal(s, c, m);
    } else if LeftMaximal(t, w) {
      OnlyRepeatBecomesMaximal(s, c, m, w);
    }
  }

  lemma StaysMaximal(s: seq<int>, c: int, w: seq<int>)
    requires LeftMaximal(s, w)
    ensures LeftMaximal(s + [c], w)
  {
    hide Reads;
    OccursAppend(s, c, w);
    forall d ensures !ExtendsBy(s + [c], w, d) {
      assert !ExtendsBy(s, w, d);
      var e :| EndsAt(s, w, e) && !EndsAt(s, [d] + w, e);
      EndsAtAppend(s, c, w, e);
      EndsAtAppend(s, c, [d] + w, e);
    }
  }

  lemma RepeatBecomesMaximal(s: seq<int>, c: int, m: seq<int>)
    requires LongestRepeat(s, c, m)
    ensures LeftMaximal(s + [c], m)
  {
    hide Reads;
    OccursAppend(s, c, m);
    var e :| EndsAt(s, m, e);
    EndsAtAppend(s, c, m, e);
    forall d ensures !ExtendsBy(s + [c], m, d) {
      EndsAtAppend(s, c, [d] + m, e);
      EndsAtAppend(s, c, [d] + m, |s| + 1);
      EndsAtAppend(s, c, m, |s| + 1);
    }
  }

  lemma OnlyRepeatBecomesMaximal(s: seq<int>, c: int, m: seq<int>, w: seq<int>)
    requires LongestRepeat(s, c, m)
    requires LeftMaximal(s + [c], w) && !LeftMaximal(s, w) && w != s + [c]
    ensures w == m
  {
    var t := s + [c];
    OccursAppend(s, c, w);
    if !Occurs(s, w) {
      forall e | EndsAt(t, w, e) ensures EndsAt(t, t, e) {
        EndsAtAppend(s, c, w, e);
      }
      NotMaximalBelow(t, t, w);
      assert false;
    }
    var d :| ExtendsBy(s, w, d);
    assert !ExtendsBy(t, w, d);
    var e :| EndsAt(t, w, e) && !EndsAt(t, [d] + w, e);
    EndsAtAppend(s, c, w, e);
    EndsAtAppend(s, c, [d] + w, e);
    assert e == |t| && IsSuffix(w, t);
    ShorterIsSuffix(t, m, w, |t|);
    if |w| < |m| {
      var d' := OneLonger(m, w);
      var e' :| EndsAt(s, m, e');
      SuffixEndsAt(s, m, [d'] + w, e');
      SuffixEndsAt(s, m, w, e');
      ShorterIsSuffix(s, [d'] + w, [d] + w, e');
      assert ([d'] + w)[0] == ([d] + w)[0];
      SuffixTrans([d] + w, m, t);
    }
  }
}
