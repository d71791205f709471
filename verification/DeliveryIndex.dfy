/**
  The secondary indexes of the delivery cache, as values, and what a listing may return.
 */
module DeliveryIndex {
  import opened Common
  import opened DeliveryTimeline
  import opened DeliveryBuilder

  datatype Dimension =
    | BySymbol | ByStrategy | ByTimeframe | ByStatus | ByLevel
    | ByConfidenceBucket | ByCreatedDate | ByUpdatedDate

  function ConfidenceBucket(confidence: real): string {
    if confidence >= 0.95 then "0.95-1.00"
    else if confidence >= 0.90 then "0.90-0.95"
    else if confidence >= 0.80 then "0.80-0.90"
    else if confidence >= 0.70 then "0.70-0.80"
    else if confidence >= 0.60 then "0.60-0.70"
    else "below-0.60"
  }

  /** The key a document is filed under in each index; an empty key is never filed. */
  function KeyOf(dateKey: Instant -> string, doc: Document, d: Dimension): string {
    match d
    case BySymbol => doc.symbol
    case ByStrategy => doc.strategy
    case ByTimeframe => doc.timeframe
    case ByStatus => doc.status
    case ByLevel => doc.level
    case ByConfidenceBucket => ConfidenceBucket(doc.confidence)
    case ByCreatedDate => if IsZeroTime(doc.createdAt) then "" else dateKey(doc.createdAt)
    case ByUpdatedDate => if IsZeroTime(doc.updatedAt) then "" else dateKey(doc.updatedAt)
  }

  function AddIndex(index: Index, key: string, id: string): Index {
    if key == "" then index else index[key := Held(index, key) + {id}]
  }

  function RemoveIndex(index: Index, key: string, id: string): Index {
    if key == "" || key !in index then index
    else
      var rest := index[key] - {id};
      if rest == {} then index - {key} else index[key := rest]
  }

  /** Whether `id` belongs under `key`. */
  predicate Files(
      dateKey: Instant -> string, docs: map<string, Stored>, d: Dimension, key: string, id: string) {
    && id in docs
    && docs[id].document.id != ""
    && key != ""
    && KeyOf(dateKey, docs[id].document, d) == key
  }

  /** The index holds exactly the ids it should, and no empty set is left behind. */
  ghost predicate Exact(
      dateKey: Instant -> string, index: Index, docs: map<string, Stored>, d: Dimension) {
    && (forall key :: key in index ==> index[key] != {})
    && forall key, id :: id in Held(index, key) <==> Files(dateKey, docs, d, key, id)
  }

  /** The same with `skip` taken out of every set. */
  ghost predicate ExactBut(dateKey: Instant -> string, index: Index, docs: map<string, Stored>,
                           d: Dimension, skip: string) {
    && (forall key :: key in index ==> index[key] != {})
    && forall key, id ::
         id in Held(index, key) <==> id != skip && Files(dateKey, docs, d, key, id)
  }

  function Unindexed(dateKey: Instant -> string, index: Index, d: Dimension, id: string,
                     doc: Document): Index {
    if doc.id == "" then index else RemoveIndex(index, KeyOf(dateKey, doc, d), id)
  }

  function Indexed(dateKey: Instant -> string, index: Index, d: Dimension, id: string,
                   doc: Document): Index {
    if doc.id == "" then index else AddIndex(index, KeyOf(dateKey, doc, d), id)
  }

  lemma UnindexedExact(dateKey: Instant -> string, index: Index, docs: map<string, Stored>,
                       d: Dimension, id: string)
    requires Exact(dateKey, index, docs, d) && id in docs
    ensures ExactBut(dateKey, Unindexed(dateKey, index, d, id, docs[id].document), docs, d, id)
  {
    var doc := docs[id].document;
    var after := Unindexed(dateKey, index, d, id, doc);
    forall key, i
      ensures i in Held(after, key) <==> i != id && Files(dateKey, docs, d, key, i)
    {
      assert i in Held(index, key) <==> Files(dateKey, docs, d, key, i);
    }
  }

  lemma IndexedExact(dateKey: Instant -> string, index: Index, docs: map<string, Stored>,
                     d: Dimension, id: string, s: Stored)
    requires ExactBut(dateKey, index, docs, d, id)
    ensures Exact(dateKey, Indexed(dateKey, index, d, id, s.document), docs[id := s], d)
  {
    var after := Indexed(dateKey, index, d, id, s.document);
    forall key, i
      ensures i in Held(after, key) <==> Files(dateKey, docs[id := s], d, key, i)
    {
      assert i in Held(index, key) <==> i != id && Files(dateKey, docs, d, key, i);
    }
  }

  /** Taking a document out, changing it and filing it again keeps the index exact. */
  lemma RefiledExact(dateKey: Instant -> string, index: Index, docs: map<string, Stored>,
                     d: Dimension, id: string, s: Stored)
    requires Exact(dateKey, index, docs, d) && id in docs
    ensures Exact(dateKey, Indexed(dateKey, Unindexed(dateKey, index, d, id, docs[id].document),
                                   d, id, s.document), docs[id := s], d)
  {
    UnindexedExact(dateKey, index, docs, d, id);
    IndexedExact(dateKey, Unindexed(dateKey, index, d, id, docs[id].document), docs, d, id, s);
  }

  /** An exact index is determined by the documents: updating it can lose or invent nothing. */
  lemma ExactUnique(dateKey: Instant -> string, a: Index, b: Index, docs: map<string, Stored>,
                    d: Dimension)
    requires Exact(dateKey, a, docs, d) && Exact(dateKey, b, docs, d)
    ensures a == b
  {
    forall key
      ensures Held(a, key) == Held(b, key)
      ensures key in a <==> Held(a, key) != {}
      ensures key in b <==> Held(b, key) != {}
    {
      forall id
        ensures id in Held(a, key) <==> id in Held(b, key)
      {
        assert id in Held(a, key) <==> Files(dateKey, docs, d, key, id);
        assert id in Held(b, key) <==> Files(dateKey, docs, d, key, id);
      }
    }
    assert forall key :: key in a ==> key in b && a[key] == Held(a, key) == Held(b, key) == b[key];
    assert forall key :: key in b ==> key in a;
  }

  datatype Filter = Filter(
    symbol: string,
    strategy: string,
    timeframe: string,
    status: string,
    level: string,
    confidenceMin: real,
    confidenceBucket: string,
    createdAfter: Instant,
    updatedAfter: Instant,
    limit: int
  )

  predicate Matches(f: Filter, doc: Document) {
    && (f.symbol != "" ==> doc.symbol == f.symbol)
    && (f.strategy != "" ==> doc.strategy == f.strategy)
    && (f.timeframe != "" ==> doc.timeframe == f.timeframe)
    && (f.status != "" ==> doc.status == f.status)
    && (f.level != "" ==> doc.level == f.level)
    && (f.confidenceMin > 0.0 ==> doc.confidence >= f.confidenceMin)
    && (f.confidenceBucket != "" ==> ConfidenceBucket(doc.confidence) == f.confidenceBucket)
    && (!IsZeroTime(f.createdAfter) ==> doc.createdAt >= f.createdAfter)
    && (!IsZeroTime(f.updatedAfter) ==> doc.updatedAt >= f.updatedAfter)
  }

  /** A document that is in the cache under an id. */
  predicate Live(docs: map<string, Stored>, doc: Document) {
    doc.id != "" && doc.id in docs && docs[doc.id].document == doc
  }

  /** What a scan of every document finds. */
  predicate Found(docs: map<string, Stored>, f: Filter, doc: Document) {
    Live(docs, doc) && Matches(f, doc)
  }

  ghost predicate NewestFirst(docs: seq<Document>) {
    forall i, j :: 0 <= i < j < |docs| ==> docs[i].updatedAt >= docs[j].updatedAt
  }

  function Cut(docs: seq<Document>, limit: int): seq<Document> {
    if 0 < limit < |docs| then docs[..limit] else docs
  }

  /** A full scan, filtered, newest first. */
  ghost predicate IsScan(docs: map<string, Stored>, f: Filter, all: seq<Document>) {
    && NewestFirst(all)
    && NoRepeats(all)
    && forall doc :: doc in all <==> Found(docs, f, doc)
  }

  ghost predicate IsListing(docs: map<string, Stored>, f: Filter, out: seq<Document>) {
    exists all :: IsScan(docs, f, all) && out == Cut(all, f.limit)
  }

  /**
    A listing is newest first and repeats nothing; every entry was asked for; and a document
    that was asked for is missing only when the limit was reached by others at least as new.
   */
  lemma ListingMeaning(docs: map<string, Stored>, f: Filter, out: seq<Document>, doc: Document)
    requires IsListing(docs, f, out)
    ensures NewestFirst(out) && NoRepeats(out)
    ensures f.limit > 0 ==> |out| <= f.limit
    ensures doc in out ==> Found(docs, f, doc)
    ensures Found(docs, f, doc) && doc !in out ==>
              f.limit > 0 && |out| == f.limit && forall x :: x in out ==> x.updatedAt >= doc.updatedAt
  {
  }

  /** What the name of a confidence bucket says about a document in it. */
  ghost predicate InBucket(name: string, confidence: real) {
    || (name == "0.95-1.00" && 0.95 <= confidence)
    || (name == "0.90-0.95" && 0.90 <= confidence < 0.95)
    || (name == "0.80-0.90" && 0.80 <= confidence < 0.90)
    || (name == "0.70-0.80" && 0.70 <= confidence < 0.80)
    || (name == "0.60-0.70" && 0.60 <= confidence < 0.70)
    || (name == "below-0.60" && confidence < 0.60)
  }

  lemma BucketNames(name: string, confidence: real)
    ensures ConfidenceBucket(confidence) == name <==> InBucket(name, confidence)
  {
  }

  /** A criterion that is set but not met; an empty text, a bound of zero and Go's zero time set none. */
  ghost predicate Fails(f: Filter, doc: Document) {
    || (f.symbol != "" && doc.symbol != f.symbol)
    || (f.strategy != "" && doc.strategy != f.strategy)
    || (f.timeframe != "" && doc.timeframe != f.timeframe)
    || (f.status != "" && doc.status != f.status)
    || (f.level != "" && doc.level != f.level)
    || (f.confidenceMin > 0.0 && doc.confidence < f.confidenceMin)
    || (f.confidenceBucket != "" && !InBucket(f.confidenceBucket, doc.confidence))
    || (f.createdAfter != -62_135_596_800_000_000_000 && doc.createdAt < f.createdAfter)
    || (f.updatedAfter != -62_135_596_800_000_000_000 && doc.updatedAt < f.updatedAfter)
  }

  /**
    A cached document is listed unless it fails a criterion, or the limit was reached by others
    at least as new; a document that is not cached or fails one is never listed.
   */
  lemma ListedIff(docs: map<string, Stored>, f: Filter, out: seq<Document>, doc: Document)
    requires IsListing(docs, f, out)
    ensures doc in out ==> doc.id != "" && doc.id in docs && docs[doc.id].document == doc && !Fails(f, doc)
    ensures doc.id != "" && doc.id in docs && docs[doc.id].document == doc && !Fails(f, doc) && doc !in out ==>
              f.limit > 0 && |out| == f.limit && forall x :: x in out ==> x.updatedAt >= doc.updatedAt
  {
    hide IsListing, ConfidenceBucket, InBucket;
    ListingMeaning(docs, f, out, doc);
    BucketNames(f.confidenceBucket, doc.confidence);
  }
}
