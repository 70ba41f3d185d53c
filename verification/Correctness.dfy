/** What the store as a whole guarantees. */
module Correctness {
  import opened Bits
  import opened Signatures
  import opened Types
  import opened HotTables
  import opened SpanHistory
  import opened LockStep
  import opened Ledgers
  import opened Answers
  import opened Backoff
  import EntryRuns
  import Counting
  import Bounds

  /** `r` answers the query in the ledger that the operations built, through its hashed keys. */
  ghost predicate LedgerAnswers(p: StoreParams, ops: seq<LedgerOp>, s: Site, r: Option<Posterior>)
    requires OpsOk(ops) && p.Sane()
  {
    IsAnswer(p.backoff, SigMatches(p, LedgerAfter(p, ops).store.hot, StackOf(s.before), s.scopes, s.seg, 0), r)
  }

  /** `r` answers it in the plain table keyed by exact contexts that saw the same operations. */
  ghost predicate TableAnswers(p: StoreParams, ops: seq<LedgerOp>, s: Site, r: Option<Posterior>)
    requires WellFormedOps(TableOps(ops)) && p.Sane()
  {
    IsAnswer(p.backoff, Matches(p, EXACT, Run(p, EXACT, TableOps(ops)).hot, s), r)
  }

  /** After any operations, a lookup through hashed keys, caches, lazy invalidation and eviction gives the one posterior
      that the exact table gives, provided no two contexts spoken about share a key. */
  lemma AnswersLikeTheExactTable(p: StoreParams, all: iset<Context>, ops: seq<LedgerOp>, s: Site,
                                 r: Option<Posterior>, r': Option<Posterior>)
    requires OpsOk(ops) && WellFormedOps(TableOps(ops)) && p.Sane()
    requires InjectiveOn(Hash, all) && OpsIn(p, TableOps(ops), all) && SiteIn(p, s, all)
    ensures LedgerAnswers(p, ops, s, r) <==> TableAnswers(p, ops, s, r)
    ensures LedgerAnswers(p, ops, s, r) && TableAnswers(p, ops, s, r') ==> r == r'
  {
    hide IsAnswer, SigMatches, Matches, LedgerAfter, Run, InjectiveOn, SiteIn;
    HotHalf(p, ops);
    SigMatchesAre(p, LedgerAfter(p, ops).store.hot, s);
    LookupInLockStep(p, all, TableOps(ops), s);
    var ms := Matches(p, EXACT, Run(p, EXACT, TableOps(ops)).hot, s);
    if IsAnswer(p.backoff, ms, r) && IsAnswer(p.backoff, ms, r') { AnswerUnique(p.backoff, ms, r, r'); }
  }

  /** What the ledger has counted for a token under the hashed key of a context. */
  ghost function LedgerCount(p: StoreParams, ops: seq<LedgerOp>, c: Context, k: EntryRuns.Counter, tok: int): nat
    requires OpsOk(ops)
  {
    var h := LedgerAfter(p, ops).store.hot;
    if Hash(c) in h.table.m then EntryRuns.CountOf(k, h.table.m[Hash(c)], tok) else 0
  }

  /** In every reachable ledger the counts are true: never more than the applied positions that realized, or refused,
      the token after these very tokens, in this scope and segment; and exactly as many while nothing disturbs them. */
  lemma CountsTellTheTruth(p: StoreParams, all: iset<Context>, ops: seq<LedgerOp>, c: Context, k: EntryRuns.Counter,
                           tok: int, mentioned: set<int>)
    requires OpsOk(ops) && WellFormedOps(TableOps(ops))
    requires InjectiveOn(Hash, all) && OpsIn(p, TableOps(ops), all) && c in all
    ensures var seen := Counting.LogCount(p, Bounds.AppliedLog(p, EXACT, TableOps(ops)), c, Counting.Token(k, tok));
            && LedgerCount(p, ops, c, k, tok) <= seen
            && (Counting.Undisturbed(p, TableOps(ops), c, k, tok, mentioned) ==> LedgerCount(p, ops, c, k, tok) == seen)
  {
    hide LedgerAfter, Run, InjectiveOn, Mirror, OpsIn, Counting.LogCount, Bounds.AppliedLog, Counting.Undisturbed;
    hide EntryRuns.CountOf;
    HotHalf(p, ops);
    RunInLockStep(p, Hash, all, TableOps(ops));
    MirrorLookup(Hash, all, Run(p, EXACT, TableOps(ops)).hot.table, Run(p, Hash, TableOps(ops)).hot.table, c);
    Counting.AtMostSeen(p, TableOps(ops), c, k, tok);
    if Counting.Undisturbed(p, TableOps(ops), c, k, tok, mentioned) {
      Counting.ExactlySeen(p, TableOps(ops), c, k, tok, mentioned);
    }
  }

  /** In every reachable ledger, a break of a span counts applied drafts that equal the span's current tokens up to that
      offset and were rejected there: at least one, and never more than there were. */
  lemma BreaksTellTheTruth(p: StoreParams, ops: seq<LedgerOp>)
    requires OpsOk(ops)
    ensures SpanOpsOk(Trace(p, ops)) && SpansOk(Applied(Trace(p, ops)), LedgerAfter(p, ops).spans.spans)
  {
    hide SpansOk, LedgerAfter, WorldRun, Trace;
    SpanHalf(p, ops);
    BreaksFollowContent(p, Trace(p, ops));
  }

  /** In every reachable ledger, a session's closed runs and its open run spell out what the session realized. */
  lemma RunsSpellOutSessions(p: StoreParams, ops: seq<LedgerOp>, sid: Word)
    requires OpsOk(ops) && p.version >= 2
    ensures SpanOpsOk(Trace(p, ops))
    ensures ClosedTokens(RunLog(p, Trace(p, ops)), sid) + OpenTokens(LedgerAfter(p, ops).spans.runs, sid)
         == SessionTokens(Trace(p, ops), sid)
  {
    hide LedgerAfter, WorldRun, Trace, ClosedTokens, OpenTokens, SessionTokens, RunLog;
    SpanHalf(p, ops);
    RunsPartitionSessions(p, Trace(p, ops), sid);
  }
}
