/**
 * The expiry cleanup: every chunk of `jobs_vector` whose deadline lies before the
 * current instant is deleted. The clock is a parameter.
 */
module CleanupExpiredJobs {
  import opened Documents
  import opened VectorStore
  import RagService

  /** `{"deadline": {"$lt": now}}`. */
  function ExpiredQuery(now: int): Query
  {
    FieldLt("deadline", now)
  }

  /** The store `run_cleanup` leaves at instant `now`. */
  function AfterCleanup(docs: seq<Document>, now: int): seq<Document>
  {
    Remove(docs, ExpiredQuery(now))
  }

  /** Whether a stored chunk carries a deadline the range queries can compare. */
  predicate HasDeadline(d: Document)
  {
    "deadline" in d.metadata && d.metadata["deadline"].Int?
  }

  /**
   * `run_cleanup` at instant `now`: count the expired chunks, return early when there
   * are none, otherwise delete them. Returns the count and the number deleted
   * (0 on the early return).
   */
  method RunCleanup(jobs: Collection, now: int) returns (countToDelete: nat, deletedCount: nat)
    modifies jobs
    ensures countToDelete == |Select(old(jobs.docs), ExpiredQuery(now))|
    ensures jobs.docs == AfterCleanup(old(jobs.docs), now)
    ensures deletedCount == countToDelete
    ensures countToDelete == 0 ==> jobs.docs == old(jobs.docs)
  {
    var query := ExpiredQuery(now);
    countToDelete := jobs.CountDocuments(query);
    if countToDelete == 0 {
      NoneExpiredUnchanged(jobs.docs, now);
      deletedCount := 0;
      return;
    }
    CountSplit(jobs.docs, query);
    deletedCount := jobs.DeleteMany(query);
  }

  /** With nothing expired the store is already what the cleanup would leave. */
  lemma NoneExpiredUnchanged(docs: seq<Document>, now: int)
    requires |Select(docs, ExpiredQuery(now))| == 0
    ensures AfterCleanup(docs, now) == docs
  {
    forall k | 0 <= k < |docs| ensures !Matches(ExpiredQuery(now), docs[k]) {
      assert docs[k] in docs;
      assert docs[k] !in Select(docs, ExpiredQuery(now));
    }
    NoneMatch(docs, ExpiredQuery(now));
  }

  /** After the cleanup no chunk has a deadline before `now`. */
  lemma NoExpiredRemain(docs: seq<Document>, now: int)
    ensures Select(AfterCleanup(docs, now), ExpiredQuery(now)) == []
    ensures forall d :: d in AfterCleanup(docs, now) ==> !(HasDeadline(d) && d.metadata["deadline"].i < now)
  {
    SelectAfterRemoveSame(docs, ExpiredQuery(now));
  }

  /**
   * The cleanup deletes exactly the expired chunks: the ones it keeps are the others,
   * in their order, and it deletes as many chunks as it counted.
   */
  lemma CleanupDeletesExactlyExpired(docs: seq<Document>, now: int)
    ensures forall d :: d in docs && !Matches(ExpiredQuery(now), d) ==> d in AfterCleanup(docs, now)
    ensures |docs| - |AfterCleanup(docs, now)| == |Select(docs, ExpiredQuery(now))|
  {
    CountSplit(docs, ExpiredQuery(now));
  }

  /**
   * Chunks that are still active at `now`, or at any later instant, are not deleted:
   * what the retrieval filter sees after the cleanup is what it saw before.
   */
  lemma CleanupKeepsActive(docs: seq<Document>, now: int, t: int)
    requires t >= now
    ensures Select(AfterCleanup(docs, now), RagService.ActiveQuery(t)) == Select(docs, RagService.ActiveQuery(t))
  {
    forall d | Matches(RagService.ActiveQuery(t), d) ensures !Matches(ExpiredQuery(now), d) {
    }
    SelectAfterRemove(docs, ExpiredQuery(now), RagService.ActiveQuery(t));
  }

  /** Running the cleanup twice at the same instant leaves what running it once leaves. */
  lemma CleanupIdempotent(docs: seq<Document>, now: int)
    ensures AfterCleanup(AfterCleanup(docs, now), now) == AfterCleanup(docs, now)
  {
    RemoveIdempotent(docs, ExpiredQuery(now));
  }

  /**
   * The cleanup filter is the complement of the retrieval filter on chunks that carry
   * a deadline; a chunk without one (missing or `null`) matches neither, so it is never
   * deleted and never retrieved.
   */
  lemma ExpiredIsComplementOfActive(d: Document, now: int)
    ensures HasDeadline(d) ==> (Matches(ExpiredQuery(now), d) <==> !Matches(RagService.ActiveQuery(now), d))
    ensures !HasDeadline(d) ==> !Matches(ExpiredQuery(now), d) && !Matches(RagService.ActiveQuery(now), d)
  {
  }

  /** Over a whole store: every chunk with a deadline is either expired or active, never both. */
  lemma {:induction false} StoreSplitsByDeadline(docs: seq<Document>, now: int)
    requires forall k :: 0 <= k < |docs| ==> HasDeadline(docs[k])
    ensures |Select(docs, ExpiredQuery(now))| + |Select(docs, RagService.ActiveQuery(now))| == |docs|
    decreases |docs|
  {
    if |docs| > 0 {
      StoreSplitsByDeadline(docs[1..], now);
    }
  }
}
