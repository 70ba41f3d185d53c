/** Which span is proposed: the best of all fresh spans that the query's own keys reach. */
module SpanChoice {
  import opened Bits
  import opened Signatures
  import opened Types
  import opened Spans
  import opened Backoff
  import opened Answers
  import opened Evidence

  /** The query probes this key: some order of its signatures, under some active tier of its scopes. */
  ghost predicate Probed(p: StoreParams, sigs: seq<Word>, scopes: seq<Word>, seg: int, key: Word) {
    exists i: nat, depth: nat ::
      && i < |sigs| && i + 2 <= 8 && depth < |scopes| && depth in p.scopeDepths
      && key == SpanKey(sigs[i], i + 2, scopes[depth], seg)
  }

  /** A probed span of the query's segment whose stamp is current. */
  ghost predicate Eligible(p: StoreParams, epochs: EpochTable, spans: map<Word, Span>, sigs: seq<Word>,
                           scopes: seq<Word>, seg: int, key: Word)
  {
    && Probed(p, sigs, scopes, seg, key) && key in spans
    && spans[key].seg == seg && spans[key].epoch == CounterNow(epochs, spans[key].scope, spans[key].dom)
  }

  /** Seen more often, or as often and longer, or both alike and under the smaller key. */
  predicate Better(s: Span, key: Word, t: Span, key': Word) {
    if s.count != t.count then s.count > t.count
    else if |s.toks| != |t.toks| then |s.toks| > |t.toks|
    else key < key'
  }

  // ---------------------------------------------------------------- the keys that are probed, in order

  function TierKeys(p: StoreParams, sig: Word, order: nat, scopes: seq<Word>, seg: int, depth: nat): seq<Word>
    requires order <= MAX_ORDER
    decreases |scopes| - depth
  {
    if depth >= |scopes| then [] else
      (if depth in p.scopeDepths then [SpanKey(sig, order, scopes[depth], seg)] else [])
      + TierKeys(p, sig, order, scopes, seg, depth + 1)
  }

  function QueryKeys(p: StoreParams, sigs: seq<Word>, scopes: seq<Word>, seg: int, i: nat): seq<Word>
    decreases |sigs| - i
  {
    if i >= |sigs| || 2 + i > MAX_ORDER then [] else
      TierKeys(p, sigs[i], 2 + i, scopes, seg, 0) + QueryKeys(p, sigs, scopes, seg, i + 1)
  }

  lemma {:induction false} TierKeysAre(p: StoreParams, sig: Word, order: nat, scopes: seq<Word>, seg: int, depth: nat,
                                       key: Word)
    requires order <= MAX_ORDER
    ensures key in TierKeys(p, sig, order, scopes, seg, depth) <==>
            exists d: nat :: depth <= d < |scopes| && d in p.scopeDepths && key == SpanKey(sig, order, scopes[d], seg)
    decreases |scopes| - depth
  {
    hide SpanKey;
    if depth < |scopes| { TierKeysAre(p, sig, order, scopes, seg, depth + 1, key); }
  }

  lemma {:induction false} QueryKeysAre(p: StoreParams, sigs: seq<Word>, scopes: seq<Word>, seg: int, i: nat, key: Word)
    ensures key in QueryKeys(p, sigs, scopes, seg, i) <==>
            exists j: nat, d: nat :: i <= j < |sigs| && j + 2 <= 8 && d < |scopes| && d in p.scopeDepths &&
                                     key == SpanKey(sigs[j], j + 2, scopes[d], seg)
    decreases |sigs| - i
  {
    hide SpanKey;
    if i < |sigs| && 2 + i <= MAX_ORDER {
      QueryKeysAre(p, sigs, scopes, seg, i + 1, key);
      TierKeysAre(p, sigs[i], 2 + i, scopes, seg, 0, key);
    }
  }

  // ---------------------------------------------------------------- the search is a tournament over these keys

  function Tournament(epochs: EpochTable, spans: map<Word, Span>, keys: seq<Word>, seg: int,
                      best: Option<Word>): (r: Option<Word>)
    requires best.Some? ==> best.value in spans
    ensures r.Some? ==> r.value in spans
  {
    if keys == [] then best
    else Tournament(epochs, spans, keys[1..], seg, BetterSpan(epochs, spans, keys[0], seg, best))
  }

  lemma {:induction false} TournamentConcat(epochs: EpochTable, spans: map<Word, Span>, a: seq<Word>, b: seq<Word>,
                                            seg: int, best: Option<Word>)
    requires best.Some? ==> best.value in spans
    ensures Tournament(epochs, spans, a + b, seg, best) ==
            Tournament(epochs, spans, b, seg, Tournament(epochs, spans, a, seg, best))
  {
    hide BetterSpan;
    if a == [] {
      assert a + b == b;
    } else {
      assert (a + b)[1..] == a[1..] + b;
      TournamentConcat(epochs, spans, a[1..], b, seg, BetterSpan(epochs, spans, a[0], seg, best));
    }
  }

  lemma {:induction false} DepthsTournament(p: StoreParams, epochs: EpochTable, spans: map<Word, Span>, sig: Word,
                                            order: nat, scopes: seq<Word>, seg: int, depth: nat, best: Option<Word>)
    requires order <= MAX_ORDER && (best.Some? ==> best.value in spans)
    ensures FindDepths(p, epochs, spans, sig, order, scopes, seg, depth, best) ==
            Tournament(epochs, spans, TierKeys(p, sig, order, scopes, seg, depth), seg, best)
    decreases |scopes| - depth
  {
    hide SpanKey, BetterSpan;
    if depth < |scopes| {
      var key := SpanKey(sig, order, scopes[depth], seg);
      var next := if depth in p.scopeDepths then BetterSpan(epochs, spans, key, seg, best) else best;
      DepthsTournament(p, epochs, spans, sig, order, scopes, seg, depth + 1, next);
      var rest := TierKeys(p, sig, order, scopes, seg, depth + 1);
      assert ([key] + rest)[1..] == rest && [] + rest == rest;
    }
  }

  lemma {:induction false} SpanTournament(p: StoreParams, epochs: EpochTable, spans: map<Word, Span>, sigs: seq<Word>,
                                          scopes: seq<Word>, seg: int, i: nat, best: Option<Word>)
    requires best.Some? ==> best.value in spans
    ensures FindSpan(p, epochs, spans, sigs, scopes, seg, i, best) ==
            Tournament(epochs, spans, QueryKeys(p, sigs, scopes, seg, i), seg, best)
    decreases |sigs| - i
  {
    hide TierKeys, BetterSpan, FindDepths;
    if i < |sigs| && 2 + i <= MAX_ORDER {
      DepthsTournament(p, epochs, spans, sigs[i], 2 + i, scopes, seg, 0, best);
      var next := FindDepths(p, epochs, spans, sigs[i], 2 + i, scopes, seg, 0, best);
      SpanTournament(p, epochs, spans, sigs, scopes, seg, i + 1, next);
      TournamentConcat(epochs, spans, TierKeys(p, sigs[i], 2 + i, scopes, seg, 0),
                       QueryKeys(p, sigs, scopes, seg, i + 1), seg, best);
    }
  }

  /** A span that may win. */
  predicate Entered(epochs: EpochTable, spans: map<Word, Span>, seg: int, key: Word) {
    && key in spans && spans[key].seg == seg
    && spans[key].epoch == CounterNow(epochs, spans[key].scope, spans[key].dom)
  }

  lemma OneMatch(epochs: EpochTable, spans: map<Word, Span>, key: Word, seg: int, best: Option<Word>)
    requires best.Some? ==> Entered(epochs, spans, seg, best.value)
    ensures var r := BetterSpan(epochs, spans, key, seg, best);
            && (r.None? <==> best.None? && !Entered(epochs, spans, seg, key))
            && (r.Some? ==> (r == best || r == Some(key)) && Entered(epochs, spans, seg, r.value))
            && (r.Some? && best.Some? && r != best ==> Better(spans[r.value], r.value, spans[best.value], best.value))
            && (r.Some? && r.value != key && Entered(epochs, spans, seg, key) ==>
                  Better(spans[r.value], r.value, spans[key], key))
  {
  }

  lemma BetterTransitive(s: Span, a: Word, t: Span, b: Word, u: Span, c: Word)
    requires Better(s, a, t, b) && Better(t, b, u, c)
    ensures Better(s, a, u, c)
  {
  }

  lemma {:induction false} WinnerIsBest(epochs: EpochTable, spans: map<Word, Span>, keys: seq<Word>, seg: int,
                                        best: Option<Word>)
    requires best.Some? ==> Entered(epochs, spans, seg, best.value)
    ensures var r := Tournament(epochs, spans, keys, seg, best);
            && (r.Some? <==> best.Some? || exists k :: k in keys && Entered(epochs, spans, seg, k))
            && (r.Some? ==> (r == best || r.value in keys) && Entered(epochs, spans, seg, r.value))
            && (r.Some? && best.Some? && r != best ==> Better(spans[r.value], r.value, spans[best.value], best.value))
            && (r.Some? ==> forall k :: k in keys && k != r.value && Entered(epochs, spans, seg, k) ==>
                                        Better(spans[r.value], r.value, spans[k], k))
  {
    hide Better, CounterNow, BetterSpan;
    if keys != [] {
      var mid := BetterSpan(epochs, spans, keys[0], seg, best);
      OneMatch(epochs, spans, keys[0], seg, best);
      WinnerIsBest(epochs, spans, keys[1..], seg, mid);
      var r := Tournament(epochs, spans, keys, seg, best);
      assert keys == [keys[0]] + keys[1..];
      if r.Some? && mid.Some? && r != mid {
        if best.Some? && mid != best {
          BetterTransitive(spans[r.value], r.value, spans[mid.value], mid.value, spans[best.value], best.value);
        }
        if mid.value != keys[0] && Entered(epochs, spans, seg, keys[0]) {
          BetterTransitive(spans[r.value], r.value, spans[mid.value], mid.value, spans[keys[0]], keys[0]);
        }
      }
    }
  }

  lemma EligibleIs(p: StoreParams, epochs: EpochTable, spans: map<Word, Span>, sigs: seq<Word>, scopes: seq<Word>,
                   seg: int, key: Word)
    ensures Eligible(p, epochs, spans, sigs, scopes, seg, key) <==>
            key in QueryKeys(p, sigs, scopes, seg, 0) && Entered(epochs, spans, seg, key)
  {
    hide SpanKey, QueryKeys;
    QueryKeysAre(p, sigs, scopes, seg, 0, key);
  }

  /** The search finds a span exactly when one is eligible, and then the best of them all. */
  lemma FindSpanIsBest(p: StoreParams, epochs: EpochTable, spans: map<Word, Span>, sigs: seq<Word>, scopes: seq<Word>,
                       seg: int)
    ensures var r := FindSpan(p, epochs, spans, sigs, scopes, seg, 0, None);
            && (r.Some? <==> exists k :: Eligible(p, epochs, spans, sigs, scopes, seg, k))
            && (r.Some? ==>
                  && Eligible(p, epochs, spans, sigs, scopes, seg, r.value)
                  && forall k :: Eligible(p, epochs, spans, sigs, scopes, seg, k) && k != r.value ==>
                       Better(spans[r.value], r.value, spans[k], k))
  {
    hide Better, Entered, Eligible, FindSpan, QueryKeys, Tournament;
    forall k ensures Eligible(p, epochs, spans, sigs, scopes, seg, k) <==>
                     k in QueryKeys(p, sigs, scopes, seg, 0) && Entered(epochs, spans, seg, k)
    {
      EligibleIs(p, epochs, spans, sigs, scopes, seg, k);
    }
    SpanTournament(p, epochs, spans, sigs, scopes, seg, 0, None);
    WinnerIsBest(epochs, spans, QueryKeys(p, sigs, scopes, seg, 0), seg, None);
  }

  /** What is proposed from version 2 on: body, count and every break of the best eligible span, breaks ascending. */
  lemma ProposesTheBest(p: StoreParams, epochs: EpochTable, spans: map<Word, Span>, sigs: seq<Word>, scopes: seq<Word>,
                        seg: int)
    ensures var r := SpanAnswer(p, epochs, spans, sigs, scopes, seg);
            && (r.Some? <==> p.version >= 2 && exists k :: Eligible(p, epochs, spans, sigs, scopes, seg, k))
            && (r.Some? ==>
                  && Eligible(p, epochs, spans, sigs, scopes, seg, r.value.key)
                  && var s := spans[r.value.key];
                  && r.value.tokens == s.toks && r.value.count == s.count
                  && (forall i, j :: 0 <= i < j < |r.value.breaks| ==> r.value.breaks[i].0 < r.value.breaks[j].0)
                  && (forall off, count :: (off, count) in r.value.breaks <==>
                        off in s.breaks && off < |s.toks| && s.breaks[off].count == count)
                  && (forall k :: Eligible(p, epochs, spans, sigs, scopes, seg, k) && k != r.value.key ==>
                        Better(s, r.value.key, spans[k], k)))
  {
    hide Eligible, FindSpan, Better;
    FindSpanIsBest(p, epochs, spans, sigs, scopes, seg);
    var best := FindSpan(p, epochs, spans, sigs, scopes, seg, 0, None);
    if best.Some? { BreaksAreListed(spans[best.value].breaks, 0, |spans[best.value].toks|); }
  }
}
