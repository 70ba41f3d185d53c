/** The 64-bit signatures of context suffixes and the key folding built on them. */
module Signatures {
  import opened Bits

  const MIN_ORDER: int := 2
  const MAX_ORDER: int := 8

  lemma OrderRange()
    ensures MIN_ORDER == 2 && MAX_ORDER == 8
  {
  }

  const MULT: Word := 0x9E37_79B9_7F4A_7C15
  const MIX_A: Word := 0xBF58_476D_1CE4_E5B9
  const MIX_B: Word := 0x94D0_49BB_1331_11EB
  const ORDER_MULT: Word := 0xA076_1D64_78BD_642F
  const SEG_MULT: Word := 0xE703_7ED1_A0B4_28DB
  const SPAN_SALT: Word := 0x5CA1_AB1E_5CA1_AB1E

  /** The inverses modulo 2^64 of the two mixing multipliers and of the rolling one. */
  const UNMIX_A: Word := 0x96DE_1B17_3F11_9089
  const UNMIX_B: Word := 0x3196_42B2_D24D_8EC3
  const UNMULT: Word := 0xF1DE_83E1_9937_733D

  // ---------------------------------------------------------------- fmix64 and its inverse

  function XorShift(x: Word, k: nat): Word {
    ShrSmaller(x, k);
    XorWord(x, Shr(x, k))
  }

  /** Undoes a xor-shift by at least 22 bits. */
  function UnXorShift(x: Word, k: nat): Word {
    ShrSmaller(x, k);
    ShrSmaller(x, 2 * k);
    XorWord(XorWord(x, Shr(x, k)), Shr(x, 2 * k))
  }

  /** The splitmix64 finalizer on a 64-bit word. */
  function Mix(x: Word): Word {
    XorShift(Times(XorShift(Times(XorShift(x, 30), MIX_A), 27), MIX_B), 31)
  }

  function Unmix(x: Word): Word {
    UnXorShift(Times(UnXorShift(Times(UnXorShift(x, 31), UNMIX_B), 27), UNMIX_A), 30)
  }

  lemma ShiftedOut(x: Word, k: nat)
    requires k >= 64
    ensures Shr(x, k) == 0
  {
    WordBits();
    ShrAll(x, 64);
    ShrShr(x, 64, k - 64);
    ShrSmaller(0, k - 64);
  }

  lemma ShiftCancels(x: Word, k: nat)
    requires 22 <= k
    ensures UnXorShift(XorShift(x, k), k) == x
    ensures XorShift(UnXorShift(x, k), k) == x
  {
    hide Xor, Shr;
    var a, b := Shr(x, k), Shr(x, 2 * k);
    ShiftedOut(x, 3 * k);
    ShrShr(x, k, k); ShrShr(x, k, 2 * k); ShrShr(x, 2 * k, k);
    // z = x ^ a; z >> k = a ^ b; z >> 2k = b
    ShrXor(x, a, k);
    ShrXor(x, a, 2 * k);
    XorZero(b);
    XorAssoc(x, a, Xor(a, b));
    XorAssoc(a, a, b);
    XorSelf(a); XorZero(b);
    XorCancel(x, b);
    // z = (x ^ a) ^ b; z >> k = (a ^ b) ^ 0
    ShrXor(Xor(x, a), b, k);
    XorZero(Xor(a, b));
    XorAssoc(x, a, b);
    XorCancel(x, Xor(a, b));
  }

  /** fmix64 is a bijection on 64-bit words: `Unmix` is its two-sided inverse. */
  lemma MixBijective(x: Word)
    ensures Unmix(Mix(x)) == x && Mix(Unmix(x)) == x
  {
    hide XorShift, UnXorShift, Times;
    ShiftCancels(x, 30);
    var y := XorShift(x, 30);
    TimesInverse(y, MIX_A, UNMIX_A);
    ShiftCancels(Times(y, MIX_A), 27);
    var z := XorShift(Times(y, MIX_A), 27);
    TimesInverse(z, MIX_B, UNMIX_B);
    ShiftCancels(Times(z, MIX_B), 31);

    ShiftCancels(x, 31);
    var z' := UnXorShift(x, 31);
    TimesInverse(z', UNMIX_B, MIX_B);
    ShiftCancels(Times(z', UNMIX_B), 27);
    var y' := UnXorShift(Times(z', UNMIX_B), 27);
    TimesInverse(y', UNMIX_A, MIX_A);
    ShiftCancels(Times(y', UNMIX_A), 30);
  }

  lemma MixInjective(x: Word, y: Word)
    ensures Mix(x) == Mix(y) <==> x == y
  {
    hide Mix, Unmix;
    MixBijective(x);
    MixBijective(y);
  }

  /** fmix64 on a Python integer, which is masked to 64 bits first. */
  function Fmix64(x: int): Word {
    Mix(x % WORD_SIZE)
  }

  // ---------------------------------------------------------------- keys

  function OrderSalt(order: int): Word
    requires 0 <= order <= MAX_ORDER
  {
    Times(order + 1, ORDER_MULT)
  }

  /** Only the low two bits of the segment enter the key. */
  function SegSalt(seg: int): Word {
    Times(seg % 4 + 3, SEG_MULT)
  }

  /** The hot-table key of a suffix signature in a scope and segment. */
  function FoldKey(sig: Word, order: int, scope: Word, seg: int): Word
    requires 0 <= order <= MAX_ORDER
  {
    Mix(XorWord(XorWord(XorWord(sig, OrderSalt(order)), scope), SegSalt(seg)))
  }

  /** The span table keeps a key space of its own. */
  function SpanKey(sig: Word, order: int, scope: Word, seg: int): Word
    requires 0 <= order <= MAX_ORDER
  {
    Mix(XorWord(FoldKey(sig, order, scope, seg), SPAN_SALT))
  }

  lemma SaltsDiffer(o: int, o': int, g: int, g': int)
    requires 0 <= o <= MAX_ORDER && 0 <= o' <= MAX_ORDER
    ensures OrderSalt(o) == OrderSalt(o') <==> o == o'
    ensures SegSalt(g) == SegSalt(g') <==> g % 4 == g' % 4
  {
    hide Times;
    TimesInverse(o + 1, ORDER_MULT, 0x939C_72E4_AF1E_62CF);
    TimesInverse(o' + 1, ORDER_MULT, 0x939C_72E4_AF1E_62CF);
    TimesInverse(g % 4 + 3, SEG_MULT, 0x2E1B_9953_F3B3_9353);
    TimesInverse(g' % 4 + 3, SEG_MULT, 0x2E1B_9953_F3B3_9353);
  }

  /** Contexts that differ in exactly one coordinate never share a key. */
  lemma FoldKeySeparates(sig: Word, sig': Word, o: int, o': int, scope: Word, scope': Word, seg: int, seg': int)
    requires 0 <= o <= MAX_ORDER && 0 <= o' <= MAX_ORDER
    ensures FoldKey(sig, o, scope, seg) == FoldKey(sig', o, scope, seg) <==> sig == sig'
    ensures FoldKey(sig, o, scope, seg) == FoldKey(sig, o', scope, seg) <==> o == o'
    ensures FoldKey(sig, o, scope, seg) == FoldKey(sig, o, scope', seg) <==> scope == scope'
    ensures FoldKey(sig, o, scope, seg) == FoldKey(sig, o, scope, seg') <==> seg % 4 == seg' % 4
  {
    hide Mix, OrderSalt, SegSalt, XorWord;
    SaltsDiffer(o, o', seg, seg');
    var so, so', sg, sg' := OrderSalt(o), OrderSalt(o'), SegSalt(seg), SegSalt(seg');
    XorWordInjective(sig, sig', so);
    XorWordInjective(so, so', sig);
    XorWordInjective(XorWord(sig, so), XorWord(sig', so), scope);
    XorWordInjective(XorWord(sig, so), XorWord(sig, so'), scope);
    XorWordInjective(scope, scope', XorWord(sig, so));
    var x := XorWord(XorWord(sig, so), scope);
    XorWordInjective(x, XorWord(XorWord(sig', so), scope), sg);
    XorWordInjective(x, XorWord(XorWord(sig, so'), scope), sg);
    XorWordInjective(x, XorWord(XorWord(sig, so), scope'), sg);
    XorWordInjective(sg, sg', x);
    MixInjective(XorWord(x, sg), XorWord(XorWord(XorWord(sig', so), scope), sg));
    MixInjective(XorWord(x, sg), XorWord(XorWord(XorWord(sig, so'), scope), sg));
    MixInjective(XorWord(x, sg), XorWord(XorWord(XorWord(sig, so), scope'), sg));
    MixInjective(XorWord(x, sg), XorWord(x, sg'));
  }

  /** Span keys collide exactly when the hot keys they are made of do. */
  lemma SpanKeyFollowsFoldKey(sig: Word, sig': Word, o: int, o': int, scope: Word, scope': Word, seg: int, seg': int)
    requires 0 <= o <= MAX_ORDER && 0 <= o' <= MAX_ORDER
    ensures SpanKey(sig, o, scope, seg) == SpanKey(sig', o', scope', seg') <==>
            FoldKey(sig, o, scope, seg) == FoldKey(sig', o', scope', seg')
  {
    hide Mix, FoldKey, XorWord;
    var k, k' := FoldKey(sig, o, scope, seg), FoldKey(sig', o', scope', seg');
    XorWordInjective(k, k', SPAN_SALT);
    MixInjective(XorWord(k, SPAN_SALT), XorWord(k', SPAN_SALT));
  }

  /** The store's inlined probe, with the scope and segment parts folded in advance, is `FoldKey`. */
  lemma InlinedKey(sig: Word, order: int, scope: Word, seg: int)
    requires 0 <= order <= MAX_ORDER
    ensures Mix(XorWord(XorWord(sig, OrderSalt(order)), XorWord(scope, SegSalt(seg)))) ==
            FoldKey(sig, order, scope, seg)
  {
    hide Mix, OrderSalt, SegSalt, Xor;
    XorAssoc(XorWord(sig, OrderSalt(order)), scope, SegSalt(seg));
  }

  // ---------------------------------------------------------------- signatures of token runs

  function Roll(h: Word, tok: int): Word {
    (h * MULT + Fmix64(tok + 1)) % WORD_SIZE
  }

  /** The position-sensitive signature of a token sequence. */
  function SigOf(toks: seq<int>): Word {
    if toks == [] then 0 else Roll(SigOf(toks[..|toks| - 1]), toks[|toks| - 1])
  }

  method ComputeSigOf(toks: seq<int>) returns (h: Word)
    ensures h == SigOf(toks)
  {
    hide Roll;
    h := 0;
    for i := 0 to |toks|
      invariant h == SigOf(toks[..i])
    {
      assert toks[..i + 1][..i] == toks[..i];
      h := Roll(h, toks[i]);
    }
    assert toks[..|toks|] == toks;
  }

  /** One step keeps different signatures apart, and different tokens. */
  lemma RollSeparates(h: Word, g: Word, t: int, u: int)
    ensures Roll(h, t) == Roll(g, t) <==> h == g
    ensures Roll(h, t) == Roll(h, u) <==> t % WORD_SIZE == u % WORD_SIZE
  {
    hide Mix, Times, Roll;
    RollIs(h, t);
    RollIs(g, t);
    RollIs(h, u);
    MixInjective((t + 1) % WORD_SIZE, (u + 1) % WORD_SIZE);
    NextToken(t, u);
    SumSeparates(Times(h, MULT), Times(g, MULT), Fmix64(t + 1));
    SumSeparates(Fmix64(t + 1), Fmix64(u + 1), Times(h, MULT));
    TimesInverse(h, MULT, UNMULT);
    TimesInverse(g, MULT, UNMULT);
  }

  lemma RollIs(h: Word, t: int)
    ensures Roll(h, t) == (Times(h, MULT) + Fmix64(t + 1)) % WORD_SIZE
  {
    hide Mix, Fmix64;
    SumModulo(h * MULT, Fmix64(t + 1));
  }

  lemma SumModulo(x: int, z: int)
    ensures (x + z) % WORD_SIZE == (x % WORD_SIZE + z) % WORD_SIZE
  {
  }

  lemma NextToken(t: int, u: int)
    ensures (t + 1) % WORD_SIZE == (u + 1) % WORD_SIZE <==> t % WORD_SIZE == u % WORD_SIZE
  {
  }

  lemma SumSeparates(x: Word, y: Word, z: Word)
    ensures (x + z) % WORD_SIZE == (y + z) % WORD_SIZE <==> x == y
  {
  }

  /** Windows that differ in exactly one token, modulo 2^64, have different signatures. */
  lemma {:induction false} SigSeparates(a: seq<int>, t: int, u: int, b: seq<int>)
    ensures SigOf(a + [t] + b) == SigOf(a + [u] + b) <==> t % WORD_SIZE == u % WORD_SIZE
  {
    hide Roll;
    if b == [] {
      assert a + [t] + b == a + [t] && (a + [t])[..|a|] == a;
      assert a + [u] + b == a + [u] && (a + [u])[..|a|] == a;
      RollSeparates(SigOf(a), SigOf(a), t, u);
    } else {
      var c, last := b[..|b| - 1], b[|b| - 1];
      assert (a + [t] + b)[..|a| + |b|] == a + [t] + c;
      assert (a + [u] + b)[..|a| + |b|] == a + [u] + c;
      SigSeparates(a, t, u, c);
      RollSeparates(SigOf(a + [t] + c), SigOf(a + [u] + c), last, last);
    }
  }

  function LastTokens(toks: seq<int>, n: nat): seq<int> {
    if |toks| <= n then toks else toks[|toks| - n..]
  }

  /** Signatures of the last 2, 3, ... 8 tokens, as far as the stream reaches. */
  function StackOf(toks: seq<int>): (sigs: seq<Word>)
    ensures |sigs| == if |toks| < MIN_ORDER then 0 else if |toks| > MAX_ORDER then 7 else |toks| - 1
  {
    var hi := if |toks| < MAX_ORDER then |toks| else MAX_ORDER;
    var at: nat -> Word := (i: nat) => SigOf(LastTokens(toks, MIN_ORDER + i));
    seq<Word>(if hi < MIN_ORDER then 0 else hi - 1, at)
  }

  lemma LastOfLast(toks: seq<int>, n: nat, m: nat)
    requires n <= m
    ensures LastTokens(LastTokens(toks, m), n) == LastTokens(toks, n)
  {
  }

  /** Eight tokens of context give the same signature stack as the whole stream. */
  lemma TailKeepsStack(toks: seq<int>)
    ensures StackOf(LastTokens(toks, MAX_ORDER)) == StackOf(toks)
  {
    hide SigOf;
    var tail := LastTokens(toks, MAX_ORDER);
    forall i | 0 <= i < |StackOf(toks)| ensures StackOf(tail)[i] == StackOf(toks)[i] {
      LastOfLast(toks, MIN_ORDER + i, MAX_ORDER);
    }
  }

  /** And the stacks stay equal when both streams go on with the same tokens. */
  lemma TailKeepsStackAfter(toks: seq<int>, more: seq<int>)
    ensures StackOf(LastTokens(toks, MAX_ORDER) + more) == StackOf(toks + more)
  {
    TailKeepsStack(LastTokens(toks, MAX_ORDER) + more);
    TailKeepsStack(toks + more);
    assert LastTokens(LastTokens(toks, MAX_ORDER) + more, MAX_ORDER) == LastTokens(toks + more, MAX_ORDER);
  }

  class RollingSigStack {
    const sigs: array<Word>
    var n: nat
    ghost var stream: seq<int>

    ghost predicate Valid()
      reads this, sigs
    {
      && sigs.Length == MAX_ORDER + 1
      && n == |stream|
      && forall o {:trigger sigs[o]} :: 1 <= o <= MAX_ORDER ==> sigs[o] == SigOf(LastTokens(stream, o))
    }

    constructor ()
      ensures Valid() && stream == [] && fresh(sigs)
    {
      sigs := new Word[MAX_ORDER + 1](_ => 0);
      n := 0;
      stream := [];
    }

    /** Overwrites the slots from the highest order down, each from its lower neighbour's previous value. */
    method Push(tok: int)
      requires Valid()
      modifies this, sigs
      ensures Valid() && stream == old(stream) + [tok]
    {
      hide Roll, SigOf, Fmix64;
      var o := MAX_ORDER;
      while o > 1
        invariant 1 <= o <= MAX_ORDER && stream == old(stream) && n == old(n)
        invariant forall k {:trigger sigs[k]} :: 1 <= k <= o ==> sigs[k] == old(sigs[k])
        invariant forall k {:trigger sigs[k]} :: o < k <= MAX_ORDER ==> sigs[k] == SigOf(LastTokens(stream + [tok], k))
      {
        RollLast(stream, tok, o);
        assert sigs[o - 1] == SigOf(LastTokens(stream, o - 1));
        sigs[o] := Roll(sigs[o - 1], tok);
        o := o - 1;
      }
      RollLast(stream, tok, 1);
      sigs[1] := Fmix64(tok + 1);
      n := n + 1;
      stream := stream + [tok];
    }

    method PushMany(toks: seq<int>)
      requires Valid()
      modifies this, sigs
      ensures Valid() && stream == old(stream) + toks
    {
      for i := 0 to |toks|
        invariant Valid() && stream == old(stream) + toks[..i]
      {
        Push(toks[i]);
        assert toks[..i + 1] == toks[..i] + [toks[i]];
      }
      assert toks[..|toks|] == toks;
    }

    method StackList() returns (stack: seq<Word>)
      requires Valid()
      ensures stack == StackOf(stream)
    {
      hide SigOf;
      var hi := if n < MAX_ORDER then n else MAX_ORDER;
      stack := [];
      var order := MIN_ORDER;
      while order <= hi
        invariant MIN_ORDER <= order && (order <= hi + 1 || order == MIN_ORDER)
        invariant |stack| == order - MIN_ORDER
        invariant forall i :: 0 <= i < |stack| ==> stack[i] == SigOf(LastTokens(stream, MIN_ORDER + i))
      {
        stack := stack + [sigs[order]];
        order := order + 1;
      }
    }

    method Clone() returns (c: RollingSigStack)
      requires Valid()
      ensures c.Valid() && c.stream == stream && fresh(c) && fresh(c.sigs)
    {
      c := new RollingSigStack();
      forall o | 0 <= o <= MAX_ORDER {
        c.sigs[o] := sigs[o];
      }
      c.n := n;
      c.stream := stream;
    }
  }

  lemma RollLast(stream: seq<int>, tok: int, o: nat)
    requires 1 <= o <= MAX_ORDER
    ensures o > 1 ==> SigOf(LastTokens(stream + [tok], o)) == Roll(SigOf(LastTokens(stream, o - 1)), tok)
    ensures o == 1 ==> SigOf(LastTokens(stream + [tok], o)) == Fmix64(tok + 1)
  {
    hide Roll, Fmix64;
    var l := LastTokens(stream + [tok], o);
    assert l[..|l| - 1] == LastTokens(stream, o - 1);
    assert l[|l| - 1] == tok;
    if o == 1 { RollZero(tok); }
  }

  lemma RollZero(tok: int)
    ensures Roll(0, tok) == Fmix64(tok + 1)
  {
    hide Fmix64;
  }
}
