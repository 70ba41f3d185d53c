/** Verify outcomes and the parameters of the store. */
module Types {
  import opened Bits
  import HotEntries
  import Backoff

  const THINK: int := 0
  const TOOL: int := 1
  const CODE: int := 2
  const TEXT: int := 3

  /** One verify step's harvest. `scopes` lists the session, repository and tenant ids, most specific first. */
  datatype Event = Event(
    scopes: seq<Word>, ctxTail: seq<int>, draft: seq<int>, acceptedLen: nat, bonus: int,
    topkIds: seq<seq<int>>, topkQ8s: seq<seq<int>>, seg: seq<int>, fileId: nat)
  {
    /** The tokens this step committed: the accepted prefix and the bonus or correction. */
    function Realized(): (r: seq<int>)
      ensures r != []
    {
      draft[..if acceptedLen < |draft| then acceptedLen else |draft|] + [bonus]
    }

    /** The segment of a realized position; a short array repeats its last entry. */
    function SegAt(pos: nat): int {
      if seg == [] then TEXT else seg[if pos < |seg| - 1 then pos else |seg| - 1]
    }

    /** Only code positions belong to a file's epoch domain. */
    function DomAt(pos: nat): nat {
      if SegAt(pos) == CODE then fileId else 0
    }

    ghost predicate WellFormed() {
      scopes != [] && |topkIds| <= |topkQ8s|
    }
  }

  datatype StoreParams = StoreParams(
    version: int, entry: HotEntries.Params, queueCap: int, maxEntries: nat, compactEvery: nat,
    orders: set<int>, scopeDepths: set<int>,
    spanMinLen: int, spanMaxLen: int, spanOrders: set<int>, spanScopeDepths: set<int>,
    backoff: Backoff.BackoffParams)
  {
    ghost predicate Sane() {
      entry.Sane() && backoff.Sane()
    }

    /** Of a scope stack this long, no level beyond the scope decay table is active. */
    ghost predicate TiersFit(levels: nat) {
      forall depth :: depth in scopeDepths && 0 <= depth < levels ==> depth < 8
    }
  }

  lemma FewTiersFit(p: StoreParams, levels: nat)
    requires levels <= 8
    ensures p.TiersFit(levels)
  {
  }
}
