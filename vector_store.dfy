/**
 * A MongoDB collection of chunk records, reduced to what the program asks of it:
 * `count_documents`, `delete_many` and inserting prepared documents. The collection's
 * contents are a sequence of documents in insertion order.
 */
module VectorStore {
  import opened Documents

  /**
   * The query documents the program passes to MongoDB:
   * `{}`, `{"job_id": id}`, `{"deadline": {"$lt": t}}` and `{"deadline": {"$gte": t}}`.
   */
  datatype Query =
    | MatchAll
    | FieldEquals(key: string, value: Value)
    | FieldLt(key: string, bound: int)
    | FieldGte(key: string, bound: int)

  /**
   * MongoDB's matching rule for these queries. Equality with `null` also matches a
   * missing field; a range comparison only matches a present field of the same type
   * (a missing or `null` deadline is neither before nor after any instant).
   */
  predicate Matches(q: Query, d: Document)
  {
    match q
    case MatchAll => true
    case FieldEquals(k, v) =>
      if v == Null then k !in d.metadata || d.metadata[k] == Null
      else k in d.metadata && d.metadata[k] == v
    case FieldLt(k, t) => k in d.metadata && d.metadata[k].Int? && d.metadata[k].i < t
    case FieldGte(k, t) => k in d.metadata && d.metadata[k].Int? && d.metadata[k].i >= t
  }

  /** The documents a query finds, in store order. */
  function Select(docs: seq<Document>, q: Query): (r: seq<Document>)
    ensures |r| <= |docs|
    ensures forall d :: d in r <==> d in docs && Matches(q, d)
  {
    if |docs| == 0 then []
    else if Matches(q, docs[0]) then [docs[0]] + Select(docs[1..], q)
    else Select(docs[1..], q)
  }

  /** The documents `delete_many(q)` leaves behind, in store order. */
  function Remove(docs: seq<Document>, q: Query): (r: seq<Document>)
    ensures |r| <= |docs|
    ensures forall d :: d in r <==> d in docs && !Matches(q, d)
  {
    if |docs| == 0 then []
    else if Matches(q, docs[0]) then Remove(docs[1..], q)
    else [docs[0]] + Remove(docs[1..], q)
  }

  /** `count_documents(q)`. */
  function Count(docs: seq<Document>, q: Query): nat
  {
    if |docs| == 0 then 0
    else (if Matches(q, docs[0]) then 1 else 0) + Count(docs[1..], q)
  }

  /** A delete removes exactly as many documents as a count with the same query reports. */
  lemma {:induction false} CountSplit(docs: seq<Document>, q: Query)
    ensures Count(docs, q) == |Select(docs, q)|
    ensures |Remove(docs, q)| == |docs| - Count(docs, q)
  {
    if |docs| > 0 {
      CountSplit(docs[1..], q);
    }
  }

  lemma {:induction false} SelectConcat(a: seq<Document>, b: seq<Document>, q: Query)
    ensures Select(a + b, q) == Select(a, q) + Select(b, q)
  {
    if |a| > 0 {
      var ab := a + b;
      assert ab[0] == a[0] && ab[1..] == a[1..] + b;
      var tail := Select(a[1..], q);
      SelectConcat(a[1..], b, q);
      if Matches(q, a[0]) {
        calc {
          Select(ab, q);
          [a[0]] + Select(ab[1..], q);
          [a[0]] + (tail + Select(b, q));
          ([a[0]] + tail) + Select(b, q);
        }
      } else {
        assert Select(ab, q) == Select(ab[1..], q);
        assert Select(a, q) == tail;
      }
    } else {
      assert a + b == b;
    }
  }

  lemma {:induction false} RemoveConcat(a: seq<Document>, b: seq<Document>, q: Query)
    ensures Remove(a + b, q) == Remove(a, q) + Remove(b, q)
  {
    if |a| > 0 {
      var ab := a + b;
      assert ab[0] == a[0] && ab[1..] == a[1..] + b;
      var tail := Remove(a[1..], q);
      RemoveConcat(a[1..], b, q);
      if Matches(q, a[0]) {
        assert Remove(ab, q) == Remove(ab[1..], q);
        assert Remove(a, q) == tail;
      } else {
        calc {
          Remove(ab, q);
          [a[0]] + Remove(ab[1..], q);
          [a[0]] + (tail + Remove(b, q));
          ([a[0]] + tail) + Remove(b, q);
        }
      }
    } else {
      assert a + b == b;
    }
  }

  /** When no document matches, a delete changes nothing and a find finds nothing. */
  lemma {:induction false} NoneMatch(docs: seq<Document>, q: Query)
    requires forall k :: 0 <= k < |docs| ==> !Matches(q, docs[k])
    ensures Remove(docs, q) == docs
    ensures Select(docs, q) == []
    ensures Count(docs, q) == 0
  {
    if |docs| > 0 {
      NoneMatch(docs[1..], q);
    }
  }

  /** When every document matches, a find returns the whole sequence and a delete empties it. */
  lemma {:induction false} AllMatch(docs: seq<Document>, q: Query)
    requires forall k :: 0 <= k < |docs| ==> Matches(q, docs[k])
    ensures Select(docs, q) == docs
    ensures Remove(docs, q) == []
  {
    if |docs| > 0 {
      assert Matches(q, docs[0]);
      AllMatch(docs[1..], q);
      assert Select(docs, q) == [docs[0]] + Select(docs[1..], q);
      assert [docs[0]] + docs[1..] == docs;
    }
  }

  /** Deleting twice with the same query is deleting once. */
  lemma RemoveIdempotent(docs: seq<Document>, q: Query)
    ensures Remove(Remove(docs, q), q) == Remove(docs, q)
  {
    var r := Remove(docs, q);
    forall k | 0 <= k < |r| ensures !Matches(q, r[k]) {
      assert r[k] in r;
    }
    NoneMatch(r, q);
  }

  /**
   * Deleting with one query does not change what a second query finds, when no
   * document can match both.
   */
  lemma {:induction false} SelectAfterRemove(docs: seq<Document>, gone: Query, kept: Query)
    requires forall d :: Matches(kept, d) ==> !Matches(gone, d)
    ensures Select(Remove(docs, gone), kept) == Select(docs, kept)
  {
    if |docs| > 0 {
      SelectAfterRemove(docs[1..], gone, kept);
    }
  }

  /** Deleting with a query, then finding with it, finds nothing. */
  lemma SelectAfterRemoveSame(docs: seq<Document>, q: Query)
    ensures Select(Remove(docs, q), q) == []
  {
    var r := Remove(docs, q);
    forall k | 0 <= k < |r| ensures !Matches(q, r[k]) {
      assert r[k] in r;
    }
    NoneMatch(r, q);
  }

  /** A MongoDB collection object, updated in place by the program. */
  class Collection {
    var docs: seq<Document>

    constructor (initial: seq<Document>)
      ensures docs == initial
    {
      docs := initial;
    }

    /** `count_documents(q)`. */
    method CountDocuments(q: Query) returns (n: nat)
      ensures n == |Select(docs, q)|
    {
      CountSplit(docs, q);
      n := Count(docs, q);
    }

    /** `delete_many(q)`; the result is the `deleted_count` of the `DeleteResult`. */
    method DeleteMany(q: Query) returns (deletedCount: nat)
      modifies this
      ensures docs == Remove(old(docs), q)
      ensures deletedCount == |old(docs)| - |docs|
    {
      CountSplit(docs, q);
      deletedCount := Count(docs, q);
      docs := Remove(docs, q);
    }

    /** `MongoDBAtlasVectorSearch.from_documents(...)`: the documents are appended (embeddings are not modelled). */
    method InsertMany(batch: seq<Document>)
      modifies this
      ensures docs == old(docs) + batch
    {
      docs := docs + batch;
    }
  }
}
