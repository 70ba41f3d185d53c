/** Draft trees and the oracle that accepts their longest path along the truth. */
module Drafts {
  import opened Backoff

  /** A node's parent is -1 at the root level. */
  datatype DraftNode = DraftNode(tok: int, parent: int)

  /** Parents come before their children. */
  ghost predicate Topological(nodes: seq<DraftNode>) {
    forall i :: 0 <= i < |nodes| ==> -1 <= nodes[i].parent < i
  }

  ghost predicate SiblingDistinct(nodes: seq<DraftNode>) {
    forall i, j :: 0 <= i < j < |nodes| && nodes[i].parent == nodes[j].parent ==> nodes[i].tok != nodes[j].tok
  }

  ghost predicate AtMostTwoChildren(nodes: seq<DraftNode>) {
    forall i, j, k :: 0 <= i < j < k < |nodes| ==> !(nodes[i].parent == nodes[j].parent == nodes[k].parent)
  }

  class DraftTree {
    var nodes: seq<DraftNode>

    constructor ()
      ensures nodes == []
    {
      nodes := [];
    }

    method Add(tok: int, parent: int) returns (i: nat)
      requires parent < |nodes|
      modifies this
      ensures nodes == old(nodes) + [DraftNode(tok, parent)] && i == old(|nodes|)
    {
      i := |nodes|;
      nodes := nodes + [DraftNode(tok, parent)];
    }

    /** Follows, from the root level on, the first later child each time. */
    method Chain() returns (toks: seq<int>)
      ensures toks == ChainFrom(nodes, 0, -1)
    {
      toks := [];
      var parent := -1;
      for i := 0 to |nodes|
        invariant toks + ChainFrom(nodes, i, parent) == ChainFrom(nodes, 0, -1)
      {
        if nodes[i].parent == parent {
          toks := toks + [nodes[i].tok];
          parent := i;
        }
      }
    }
  }

  function ChainFrom(nodes: seq<DraftNode>, i: nat, parent: int): seq<int>
    decreases |nodes| - i
  {
    if i >= |nodes| then []
    else if nodes[i].parent == parent then [nodes[i].tok] + ChainFrom(nodes, i + 1, i)
    else ChainFrom(nodes, i + 1, parent)
  }

  /** A tree grown as a single chain reads back as the chain. */
  lemma {:induction false} ChainReadsBack(nodes: seq<DraftNode>, i: nat)
    requires i <= |nodes| && forall k :: 0 <= k < |nodes| ==> nodes[k].parent == k - 1
    ensures ChainFrom(nodes, i, i - 1) == Toks(nodes[i..])
    decreases |nodes| - i
  {
    if i < |nodes| {
      ChainReadsBack(nodes, i + 1);
      assert nodes[i..][1..] == nodes[i + 1..];
    }
  }

  function Toks(nodes: seq<DraftNode>): seq<int> {
    if nodes == [] then [] else [nodes[0].tok] + Toks(nodes[1..])
  }

  // ---------------------------------------------------------------- paths

  /** The tokens from the root level down to node `v`; node -1 is the context itself. */
  function PathTo(nodes: seq<DraftNode>, v: int): seq<int>
    decreases v
  {
    if 0 <= v < |nodes| && nodes[v].parent < v then PathTo(nodes, nodes[v].parent) + [nodes[v].tok] else []
  }

  function CommonPrefix(a: seq<int>, b: seq<int>): nat {
    if a == [] || b == [] || a[0] != b[0] then 0 else 1 + CommonPrefix(a[1..], b[1..])
  }

  // ---------------------------------------------------------------- the oracle

  /** The first node from `from` on that is a child of `cur` and, if `tok` is given, carries it. */
  function FirstChild(nodes: seq<DraftNode>, cur: int, tok: Option<int>, from: nat): (r: Option<nat>)
    ensures r.Some? ==>
            from <= r.value < |nodes| && nodes[r.value].parent == cur && (tok.Some? ==> nodes[r.value].tok == tok.value)
    ensures r.Some? ==> forall k :: from <= k < r.value ==>
            nodes[k].parent != cur || (tok.Some? && nodes[k].tok != tok.value)
    ensures r.None? ==> forall k :: from <= k < |nodes| ==>
            nodes[k].parent != cur || (tok.Some? && nodes[k].tok != tok.value)
    decreases |nodes| - from
  {
    if from >= |nodes| then None
    else if nodes[from].parent == cur && (tok.None? || nodes[from].tok == tok.value) then Some(from)
    else FirstChild(nodes, cur, tok, from + 1)
  }

  /** The matching child at `pos`, unless the truth has ended there. */
  function Hit(nodes: seq<DraftNode>, truth: seq<int>, pos: nat, cur: int): Option<nat> {
    if pos < |truth| then FirstChild(nodes, cur, Some(truth[pos]), 0) else None
  }

  /** Where the oracle's walk ends, started at node `cur` with the truth at `pos`. */
  function WalkEnd(nodes: seq<DraftNode>, truth: seq<int>, pos: nat, cur: int): int
    requires Topological(nodes) && -1 <= cur < |nodes|
    decreases |nodes| - cur
  {
    var hit := Hit(nodes, truth, pos, cur);
    if hit.None? then cur else WalkEnd(nodes, truth, pos + 1, hit.value)
  }

  function Accepted(nodes: seq<DraftNode>, truth: seq<int>, p: nat): seq<int>
    requires Topological(nodes)
  {
    PathTo(nodes, WalkEnd(nodes, truth, p, -1))
  }

  /** The token a greedy verifier would have compared where the walk stopped: the first child of the last node. */
  function RejectedTok(nodes: seq<DraftNode>, truth: seq<int>, p: nat): Option<int>
    requires Topological(nodes)
  {
    var first := FirstChild(nodes, WalkEnd(nodes, truth, p, -1), None, 0);
    if first.None? then None else Some(nodes[first.value].tok)
  }

  /** The nodes whose parent is `cur`, in insertion order. */
  function ChildrenOf(nodes: seq<DraftNode>, cur: int, n: nat): seq<nat>
    requires n <= |nodes|
  {
    if n == 0 then [] else ChildrenOf(nodes, cur, n - 1) + if nodes[n - 1].parent == cur then [n - 1] else []
  }

  lemma {:induction false} ChildrenAre(nodes: seq<DraftNode>, cur: int, n: nat)
    requires n <= |nodes|
    ensures var kids := ChildrenOf(nodes, cur, n);
            && (forall i :: 0 <= i < |kids| ==> kids[i] < n && nodes[kids[i]].parent == cur)
            && (forall i, j :: 0 <= i < j < |kids| ==> kids[i] < kids[j])
            && (forall k :: 0 <= k < n && nodes[k].parent == cur ==> k in kids)
  {
    if n > 0 { ChildrenAre(nodes, cur, n - 1); }
  }

  /** Child lists for every node, the root level first. */
  method ChildLists(nodes: seq<DraftNode>) returns (children: seq<seq<nat>>)
    requires Topological(nodes)
    ensures |children| == |nodes| + 1
    ensures forall c :: 0 <= c < |children| ==> children[c] == ChildrenOf(nodes, c - 1, |nodes|)
  {
    children := seq(|nodes| + 1, _ => []);
    for i := 0 to |nodes|
      invariant |children| == |nodes| + 1
      invariant forall c :: 0 <= c < |children| ==> children[c] == ChildrenOf(nodes, c - 1, i)
    {
      var c := nodes[i].parent + 1;
      children := children[c := children[c] + [i]];
    }
  }

  /** Accepts the first child that matches the truth, over and over. */
  method OracleAccept(nodes: seq<DraftNode>, truth: seq<int>, p: nat)
    returns (acc: nat, path: seq<int>, rejected: Option<int>)
    requires Topological(nodes)
    ensures path == Accepted(nodes, truth, p) && acc == |path| && rejected == RejectedTok(nodes, truth, p)
  {
    hide ChildrenOf, WalkEnd, PathTo, Hit, FirstChild;
    var children := ChildLists(nodes);
    path := [];
    var cur := 0;
    PathStep(nodes, truth, p, -1);
    while true
      invariant 0 <= cur <= |nodes| && path == PathTo(nodes, cur - 1)
      invariant WalkEnd(nodes, truth, p + |path|, cur - 1) == WalkEnd(nodes, truth, p, -1)
      decreases |nodes| - cur
    {
      var kids := children[cur];
      FirstOfChildren(nodes, cur - 1);
      PathStep(nodes, truth, p + |path|, cur - 1);
      if kids == [] {
        HitIsChild(nodes, truth, p + |path|, cur - 1);
        return |path|, path, None;
      }
      var hit := FindHit(nodes, truth, p + |path|, cur - 1, kids);
      if hit.None? {
        return |path|, path, Some(nodes[kids[0]].tok);
      }
      HitIsChild(nodes, truth, p + |path|, cur - 1);
      PathStep(nodes, truth, p + |path| + 1, hit.value);
      path := path + [nodes[hit.value].tok];
      cur := hit.value + 1;
    }
  }

  /** The first child is the head of the child list. */
  lemma FirstOfChildren(nodes: seq<DraftNode>, cur: int)
    ensures var kids := ChildrenOf(nodes, cur, |nodes|);
            && (kids == [] <==> FirstChild(nodes, cur, None, 0).None?)
            && (kids != [] ==> kids[0] < |nodes| && FirstChild(nodes, cur, None, 0) == Some(kids[0]))
  {
    hide ChildrenOf;
    ChildrenAre(nodes, cur, |nodes|);
  }

  /** The children in order, up to the first that matches the truth. */
  method FindHit(nodes: seq<DraftNode>, truth: seq<int>, pos: nat, cur: int, kids: seq<nat>) returns (hit: Option<nat>)
    requires kids == ChildrenOf(nodes, cur, |nodes|)
    ensures hit == Hit(nodes, truth, pos, cur)
  {
    hide ChildrenOf;
    ChildrenAre(nodes, cur, |nodes|);
    for i := 0 to |kids|
      invariant pos < |truth| ==> forall j :: 0 <= j < i ==> nodes[kids[j]].tok != truth[pos]
    {
      if pos < |truth| && nodes[kids[i]].tok == truth[pos] {
        return Some(kids[i]);
      }
    }
    hit := None;
  }

  lemma PathStep(nodes: seq<DraftNode>, truth: seq<int>, pos: nat, cur: int)
    requires Topological(nodes) && -1 <= cur < |nodes|
    ensures cur == -1 ==> PathTo(nodes, cur) == []
    ensures cur >= 0 ==> PathTo(nodes, cur) == PathTo(nodes, nodes[cur].parent) + [nodes[cur].tok]
    ensures Hit(nodes, truth, pos, cur).None? ==> WalkEnd(nodes, truth, pos, cur) == cur
    ensures Hit(nodes, truth, pos, cur).Some? ==> Hit(nodes, truth, pos, cur).value > cur
    ensures Hit(nodes, truth, pos, cur).Some? ==>
              WalkEnd(nodes, truth, pos, cur) == WalkEnd(nodes, truth, pos + 1, Hit(nodes, truth, pos, cur).value)
  {
  }

  // ---------------------------------------------------------------- what the oracle promises

  /** The walk only goes down, along matching tokens, by nodes of growing index. */
  lemma {:induction false} WalkGoesDown(nodes: seq<DraftNode>, truth: seq<int>, pos: nat, cur: int)
    requires Topological(nodes) && -1 <= cur < |nodes|
    ensures var w := WalkEnd(nodes, truth, pos, cur);
            && cur <= w < |nodes|
            && |PathTo(nodes, cur)| <= |PathTo(nodes, w)| && |PathTo(nodes, w)| - |PathTo(nodes, cur)| <= w - cur
            && PathTo(nodes, w)[..|PathTo(nodes, cur)|] == PathTo(nodes, cur)
            && (pos <= |truth| ==> pos + |PathTo(nodes, w)| - |PathTo(nodes, cur)| <= |truth|)
            && (forall i :: |PathTo(nodes, cur)| <= i < |PathTo(nodes, w)| ==>
                  pos + i - |PathTo(nodes, cur)| < |truth| &&
                  PathTo(nodes, w)[i] == truth[pos + i - |PathTo(nodes, cur)|])
    decreases |nodes| - cur
  {
    hide PathTo;
    PathStep(nodes, truth, pos, cur);
    var hit := Hit(nodes, truth, pos, cur);
    if hit.Some? {
      PathStep(nodes, truth, pos, hit.value);
      WalkGoesDown(nodes, truth, pos + 1, hit.value);
      var w := WalkEnd(nodes, truth, pos + 1, hit.value);
      var path := PathTo(nodes, w);
      var n := |PathTo(nodes, cur)|;
      assert path[..n + 1][..n] == path[..n];
      assert path[n] == path[..n + 1][n];
    }
  }

  /** The accepted path spells out the truth, and uses each node at most once. */
  lemma AcceptedIsTruth(nodes: seq<DraftNode>, truth: seq<int>, p: nat)
    requires Topological(nodes) && p <= |truth|
    ensures var path := Accepted(nodes, truth, p);
            p + |path| <= |truth| && path == truth[p..p + |path|] && |path| <= |nodes|
  {
    hide PathTo, WalkEnd;
    PathStep(nodes, truth, p, -1);
    WalkGoesDown(nodes, truth, p, -1);
  }

  /** Where the truth goes on, the rejected token is not what comes next. */
  lemma RejectedIsWrong(nodes: seq<DraftNode>, truth: seq<int>, p: nat)
    requires Topological(nodes) && p + |Accepted(nodes, truth, p)| < |truth| && RejectedTok(nodes, truth, p).Some?
    ensures RejectedTok(nodes, truth, p).value != truth[p + |Accepted(nodes, truth, p)|]
  {
    hide PathTo, WalkEnd;
    PathStep(nodes, truth, p, -1);
    StopsWithoutHit(nodes, truth, p, -1);
  }

  /** The node where the walk stops: its path is accepted, and no child carries the next token. */
  ghost predicate StopsAt(nodes: seq<DraftNode>, truth: seq<int>, p: nat, path: seq<int>, w: int) {
    && -1 <= w < |nodes| && PathTo(nodes, w) == path
    && forall k :: 0 <= k < |nodes| && nodes[k].parent == w ==>
         p + |path| >= |truth| || nodes[k].tok != truth[p + |path|]
  }

  /** The rejected token is the first child of the node where the walk stops; there is none exactly if that
      is a leaf. */
  lemma RejectedIsFirstDrafted(nodes: seq<DraftNode>, truth: seq<int>, p: nat) returns (w: int)
    requires Topological(nodes)
    ensures StopsAt(nodes, truth, p, Accepted(nodes, truth, p), w)
    ensures RejectedTok(nodes, truth, p).None? <==> forall k :: 0 <= k < |nodes| ==> nodes[k].parent != w
    ensures RejectedTok(nodes, truth, p).Some? ==>
              exists k :: 0 <= k < |nodes| && nodes[k] == DraftNode(RejectedTok(nodes, truth, p).value, w) &&
                          forall i :: 0 <= i < k ==> nodes[i].parent != w
  {
    hide PathTo, WalkEnd;
    w := WalkEnd(nodes, truth, p, -1);
    PathStep(nodes, truth, p, -1);
    StopsWithoutHit(nodes, truth, p, -1);
    WalkStays(nodes, truth, p, -1);
    var first := FirstChild(nodes, w, None, 0);
    if first.Some? { assert nodes[first.value] == DraftNode(RejectedTok(nodes, truth, p).value, w); }
  }

  lemma {:induction false} WalkStays(nodes: seq<DraftNode>, truth: seq<int>, pos: nat, cur: int)
    requires Topological(nodes) && -1 <= cur < |nodes|
    ensures -1 <= WalkEnd(nodes, truth, pos, cur) < |nodes|
    decreases |nodes| - cur
  {
    hide Hit;
    HitIsChild(nodes, truth, pos, cur);
    var hit := Hit(nodes, truth, pos, cur);
    if hit.Some? { WalkStays(nodes, truth, pos + 1, hit.value); }
  }

  lemma {:induction false} StopsWithoutHit(nodes: seq<DraftNode>, truth: seq<int>, pos: nat, cur: int)
    requires Topological(nodes) && -1 <= cur < |nodes|
    ensures var w := WalkEnd(nodes, truth, pos, cur);
            |PathTo(nodes, w)| >= |PathTo(nodes, cur)| &&
            Hit(nodes, truth, pos + |PathTo(nodes, w)| - |PathTo(nodes, cur)|, w).None?
    decreases |nodes| - cur
  {
    hide PathTo, Hit;
    PathStep(nodes, truth, pos, cur);
    var hit := Hit(nodes, truth, pos, cur);
    if hit.Some? {
      HitIsChild(nodes, truth, pos, cur);
      PathStep(nodes, truth, pos, hit.value);
      StopsWithoutHit(nodes, truth, pos + 1, hit.value);
    }
  }

  lemma HitIsChild(nodes: seq<DraftNode>, truth: seq<int>, pos: nat, cur: int)
    ensures var hit := Hit(nodes, truth, pos, cur);
            hit.Some? ==> pos < |truth| && hit.value < |nodes| && nodes[hit.value] == DraftNode(truth[pos], cur)
                          && FirstChild(nodes, cur, None, 0).Some?
  {
  }

  /** Every node on the way down to `v` is the first child of its parent with its token. */
  ghost predicate FirstOnPath(nodes: seq<DraftNode>, v: int)
    decreases v
  {
    0 <= v < |nodes| && nodes[v].parent < v ==>
      FirstChild(nodes, nodes[v].parent, Some(nodes[v].tok), 0) == Some(v) && FirstOnPath(nodes, nodes[v].parent)
  }

  /** A node of this kind whose path follows the truth lies on the walk. */
  lemma {:induction false} MatchedIsOnWalk(nodes: seq<DraftNode>, truth: seq<int>, p: nat, v: int)
    requires Topological(nodes) && p <= |truth| && -1 <= v < |nodes| && FirstOnPath(nodes, v)
    requires PathTo(nodes, v) <= truth[p..]
    ensures WalkEnd(nodes, truth, p, -1) == WalkEnd(nodes, truth, p + |PathTo(nodes, v)|, v)
    decreases v
  {
    PathStep(nodes, truth, p, v);
    if v >= 0 {
      var u := nodes[v].parent;
      var pos := p + |PathTo(nodes, u)|;
      MatchedIsOnWalk(nodes, truth, p, u);
      assert truth[p..][pos - p] == PathTo(nodes, v)[pos - p] == nodes[v].tok;
      PathStep(nodes, truth, pos, u);
    }
  }

  lemma {:induction false} AncestorAt(nodes: seq<DraftNode>, v: int, m: nat) returns (w: int)
    requires Topological(nodes) && -1 <= v < |nodes| && m <= |PathTo(nodes, v)|
    ensures -1 <= w <= v && PathTo(nodes, w) == PathTo(nodes, v)[..m]
    decreases v
  {
    if m == |PathTo(nodes, v)| {
      w := v;
    } else {
      w := AncestorAt(nodes, nodes[v].parent, m);
    }
  }

  lemma {:induction false} CommonPrefixIs(a: seq<int>, b: seq<int>)
    ensures CommonPrefix(a, b) <= |a| && a[..CommonPrefix(a, b)] <= b
  {
    if a != [] && b != [] && a[0] == b[0] {
      CommonPrefixIs(a[1..], b[1..]);
      var n := CommonPrefix(a[1..], b[1..]);
      assert a[..n + 1] == [a[0]] + a[1..][..n];
      assert b == [b[0]] + b[1..];
    }
  }

  /** No root path follows the truth further than the accepted one, if some node of the walked kind spells it too. */
  lemma LongestAlong(nodes: seq<DraftNode>, truth: seq<int>, p: nat, v: int, m: nat, w: int)
    requires Topological(nodes) && p <= |truth| && -1 <= v < |nodes| && -1 <= w < |nodes| && FirstOnPath(nodes, w)
    requires m == CommonPrefix(PathTo(nodes, v), truth[p..]) && m <= |PathTo(nodes, v)|
    requires PathTo(nodes, w) == PathTo(nodes, v)[..m]
    ensures m <= |Accepted(nodes, truth, p)|
  {
    hide PathTo, WalkEnd, CommonPrefix, FirstOnPath;
    PathStep(nodes, truth, p, -1);
    CommonPrefixIs(PathTo(nodes, v), truth[p..]);
    MatchedIsOnWalk(nodes, truth, p, w);
    WalkGoesDown(nodes, truth, p + m, w);
  }

  lemma {:induction false} DistinctIsFirst(nodes: seq<DraftNode>, v: int)
    requires Topological(nodes) && SiblingDistinct(nodes) && -1 <= v < |nodes|
    ensures FirstOnPath(nodes, v)
    decreases v
  {
    if v >= 0 {
      DistinctIsFirst(nodes, nodes[v].parent);
      var first := FirstChild(nodes, nodes[v].parent, Some(nodes[v].tok), 0);
      assert first.Some? && nodes[first.value].parent == nodes[v].parent && nodes[first.value].tok == nodes[v].tok;
    }
  }

  /** On a tree with distinct siblings, no root path follows the truth further than the one the first-match walk
      accepts. */
  lemma AcceptedIsLongest(nodes: seq<DraftNode>, truth: seq<int>, p: nat, v: int)
    requires Topological(nodes) && SiblingDistinct(nodes) && p <= |truth| && -1 <= v < |nodes|
    ensures CommonPrefix(PathTo(nodes, v), truth[p..]) <= |Accepted(nodes, truth, p)|
  {
    hide PathTo, Accepted, CommonPrefix, FirstOnPath;
    var m := CommonPrefix(PathTo(nodes, v), truth[p..]);
    CommonPrefixIs(PathTo(nodes, v), truth[p..]);
    var w := AncestorAt(nodes, v, m);
    DistinctIsFirst(nodes, w);
    LongestAlong(nodes, truth, p, v, m, w);
  }

  /** The walk finds the longest path whatever the truth is. */
  ghost predicate AlwaysLongest(nodes: seq<DraftNode>)
    requires Topological(nodes)
  {
    forall truth: seq<int>, p: nat, v: int :: p <= |truth| && -1 <= v < |nodes| ==> NotBeyond(nodes, truth, p, v)
  }

  ghost predicate NotBeyond(nodes: seq<DraftNode>, truth: seq<int>, p: nat, v: int)
    requires Topological(nodes) && p <= |truth|
  {
    CommonPrefix(PathTo(nodes, v), truth[p..]) <= |Accepted(nodes, truth, p)|
  }

  /** What a repeated sibling leads to can also be reached through the first of its kind. */
  ghost predicate Unshadowed(nodes: seq<DraftNode>) {
    forall v :: 0 <= v < |nodes| ==> Spelled(nodes, v)
  }

  ghost predicate Spelled(nodes: seq<DraftNode>, v: int) {
    exists w :: SpelledFirst(nodes, v, w)
  }

  ghost predicate SpelledFirst(nodes: seq<DraftNode>, v: int, w: int) {
    -1 <= w < |nodes| && FirstOnPath(nodes, w) && PathTo(nodes, w) == PathTo(nodes, v)
  }

  /** Exactly on such trees is the accepted path always the longest one. */
  lemma LongestIffUnshadowed(nodes: seq<DraftNode>)
    requires Topological(nodes)
    ensures AlwaysLongest(nodes) <==> Unshadowed(nodes)
  {
    hide PathTo, Accepted, CommonPrefix, FirstOnPath;
    if Unshadowed(nodes) {
      forall truth: seq<int>, p: nat, v: int | p <= |truth| && -1 <= v < |nodes| ensures NotBeyond(nodes, truth, p, v) {
        var m := CommonPrefix(PathTo(nodes, v), truth[p..]);
        CommonPrefixIs(PathTo(nodes, v), truth[p..]);
        var u := AncestorAt(nodes, v, m);
        var w := SpellFirst(nodes, u);
        LongestAlong(nodes, truth, p, v, m, w);
      }
    }
    if AlwaysLongest(nodes) {
      forall v | 0 <= v < |nodes| ensures Spelled(nodes, v) {
        var path := PathTo(nodes, v);
        assert path[0..] == path;
        assert NotBeyond(nodes, path, 0, v);
        WholePrefix(path);
        AcceptedIsTruth(nodes, path, 0);
        assert path[0..|path|] == path;
        WalkIsFirst(nodes, path);
        assert SpelledFirst(nodes, v, WalkEnd(nodes, path, 0, -1));
      }
    }
  }

  lemma SpellFirst(nodes: seq<DraftNode>, u: int) returns (w: int)
    requires Unshadowed(nodes) && -1 <= u < |nodes|
    ensures SpelledFirst(nodes, u, w)
  {
    hide PathTo;
    if u == -1 {
      w := -1;
    } else {
      assert Spelled(nodes, u);
      w :| SpelledFirst(nodes, u, w);
    }
  }

  lemma {:induction false} WholePrefix(a: seq<int>)
    ensures CommonPrefix(a, a) == |a|
  {
    if a != [] { WholePrefix(a[1..]); }
  }

  /** The walk enters first matching children only. */
  lemma WalkIsFirst(nodes: seq<DraftNode>, truth: seq<int>)
    requires Topological(nodes)
    ensures var w := WalkEnd(nodes, truth, 0, -1);
            -1 <= w < |nodes| && FirstOnPath(nodes, w) && Accepted(nodes, truth, 0) == PathTo(nodes, w)
  {
    WalkStaysFirst(nodes, truth, 0, -1);
  }

  lemma {:induction false} WalkStaysFirst(nodes: seq<DraftNode>, truth: seq<int>, pos: nat, cur: int)
    requires Topological(nodes) && -1 <= cur < |nodes| && FirstOnPath(nodes, cur)
    ensures var w := WalkEnd(nodes, truth, pos, cur); -1 <= w < |nodes| && FirstOnPath(nodes, w)
    decreases |nodes| - cur
  {
    PathStep(nodes, truth, pos, cur);
    var hit := Hit(nodes, truth, pos, cur);
    if hit.Some? { WalkStaysFirst(nodes, truth, pos + 1, hit.value); }
  }

  /** With repeated siblings the walk can miss the longest path: it enters the first of two equal children for good. */
  lemma RepeatedSiblingsMislead()
    ensures var nodes := [DraftNode(1, -1), DraftNode(1, -1), DraftNode(2, 1)];
            && Topological(nodes) && !SiblingDistinct(nodes)
            && Accepted(nodes, [1, 2], 0) == [1] && PathTo(nodes, 2) == [1, 2]
  {
    var nodes := [DraftNode(1, -1), DraftNode(1, -1), DraftNode(2, 1)];
    PathStep(nodes, [1, 2], 0, -1);
    PathStep(nodes, [1, 2], 1, 0);
    PathStep(nodes, [1, 2], 0, 2);
    PathStep(nodes, [1, 2], 0, 1);
    assert nodes[0].parent == nodes[1].parent && nodes[0].tok == nodes[1].tok;
  }
}
