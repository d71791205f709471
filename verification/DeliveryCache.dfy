/**
  The delivery cache: documents by id, and eight secondary indexes that follow every update.
 */
module DeliveryCache {
  import opened Common
  import opened DeliveryTimeline
  import opened DeliveryBuilder
  import opened DeliveryIndex

  type Documents = map<string, Stored>

  function Before(docs: Documents, id: string): Stored {
    if id in docs then docs[id] else NOTHING_STORED
  }

  /** The cache after one addressed update, as a value. */
  function AfterUpdate(format: real -> string, docs: Documents, u: Update): Documents
    requires !u.Feedback?
  {
    docs[u.id := Applied(format, Before(docs, u.id), u)]
  }

  /** The cache after a feedback update, which reaches every document. */
  function AfterFeedback(format: real -> string, docs: Documents, u: Update): Documents
    requires u.Feedback?
  {
    map id | id in docs :: Applied(format, docs[id], u)
  }

  /** What every cached document satisfies. */
  ghost predicate WellKept(docs: Documents) {
    forall id :: id in docs ==> docs[id].document.id == id && Sound(docs[id].document.timeline)
  }

  lemma UpdateKeeps(format: real -> string, docs: Documents, u: Update)
    requires WellKept(docs) && !u.Feedback?
    ensures WellKept(AfterUpdate(format, docs, u))
    ensures Sound(Before(docs, u.id).document.timeline)
    ensures Extends(Before(docs, u.id), Applied(format, Before(docs, u.id), u))
  {
    AppliedKeeps(format, Before(docs, u.id), u);
  }

  lemma FeedbackKeeps(format: real -> string, docs: Documents, u: Update)
    requires WellKept(docs) && u.Feedback?
    ensures WellKept(AfterFeedback(format, docs, u))
    ensures forall id :: id in docs ==> Extends(docs[id], Applied(format, docs[id], u))
  {
    forall id | id in docs
      ensures Applied(format, docs[id], u).document.id == id
      ensures Sound(Applied(format, docs[id], u).document.timeline)
      ensures Extends(docs[id], Applied(format, docs[id], u))
    {
      AppliedKeeps(format, docs[id], u);
    }
  }

  function AfterAny(format: real -> string, docs: Documents, u: Update): Documents {
    if u.Feedback? then AfterFeedback(format, docs, u) else AfterUpdate(format, docs, u)
  }

  /** The documents after a run of updates of any kind, for any ids. */
  function CacheRun(format: real -> string, us: seq<Update>): Documents {
    if us == [] then map[]
    else AfterAny(format, CacheRun(format, us[..|us| - 1]), us[|us| - 1])
  }

  predicate Concerns(u: Update, id: string) {
    u.Feedback? || u.id == id
  }

  /** The updates of a run that concern one document. */
  function Own(id: string, us: seq<Update>): seq<Update> {
    if us == [] then []
    else
      var own := Own(id, us[..|us| - 1]);
      if Concerns(us[|us| - 1], id) then own + [us[|us| - 1]] else own
  }

  /**
    Documents do not interfere: each is what its own updates alone make of it, and feedback
    that comes before a document exists leaves no trace.
   */
  lemma {:induction false} DocumentsIndependent(format: real -> string, us: seq<Update>, id: string)
    ensures WellKept(CacheRun(format, us))
    ensures Before(CacheRun(format, us), id) == AppliedAll(format, NOTHING_STORED, Own(id, us))
  {
    if us != [] {
      var front, u := us[..|us| - 1], us[|us| - 1];
      var docs := CacheRun(format, front);
      DocumentsIndependent(format, front, id);
      if u.Feedback? {
        FeedbackKeeps(format, docs, u);
      } else {
        UpdateKeeps(format, docs, u);
      }
      var own := Own(id, front);
      assert (own + [u])[..|own|] == own;
      if id !in docs {
        IgnoresFeedback(format, u);
      }
    }
  }

  lemma IgnoresFeedback(format: real -> string, u: Update)
    ensures u.Feedback? ==> Applied(format, NOTHING_STORED, u) == NOTHING_STORED
  {
  }

  /** What a document that is filed under a key carries, index by index. */
  ghost predicate Carries(dateKey: Instant -> string, doc: Document, d: Dimension, key: string) {
    match d
    case BySymbol => doc.symbol == key
    case ByStrategy => doc.strategy == key
    case ByTimeframe => doc.timeframe == key
    case ByStatus => doc.status == key
    case ByLevel => doc.level == key
    case ByConfidenceBucket => InBucket(key, doc.confidence)
    case ByCreatedDate => doc.createdAt != -62_135_596_800_000_000_000 && dateKey(doc.createdAt) == key
    case ByUpdatedDate => doc.updatedAt != -62_135_596_800_000_000_000 && dateKey(doc.updatedAt) == key
  }

  lemma FiledMeans(dateKey: Instant -> string, index: Index, docs: Documents, d: Dimension,
                   key: string, id: string)
    requires Exact(dateKey, index, docs, d) && WellKept(docs) && key != "" && id != ""
    ensures id in Held(index, key) <==> id in docs && Carries(dateKey, docs[id].document, d, key)
  {
    hide ConfidenceBucket, InBucket, Held, Sound;
    assert id in Held(index, key) <==> Files(dateKey, docs, d, key, id);
    if id in docs {
      BucketNames(key, docs[id].document.confidence);
    }
  }

  class Cache {
    const builder: Builder
    const dateKey: Instant -> string
    var byId: map<string, StoredDocument>
    var bySymbol: Index
    var byStrategy: Index
    var byTimeframe: Index
    var byStatus: Index
    var byLevel: Index
    var byConfidenceBucket: Index
    var byCreatedDate: Index
    var byUpdatedDate: Index

    ghost function IndexOf(d: Dimension): Index
      reads this`bySymbol, this`byStrategy, this`byTimeframe, this`byStatus,
            this`byLevel, this`byConfidenceBucket, this`byCreatedDate, this`byUpdatedDate
    {
      match d
      case BySymbol => bySymbol
      case ByStrategy => byStrategy
      case ByTimeframe => byTimeframe
      case ByStatus => byStatus
      case ByLevel => byLevel
      case ByConfidenceBucket => byConfidenceBucket
      case ByCreatedDate => byCreatedDate
      case ByUpdatedDate => byUpdatedDate
    }

    ghost function Docs(): Documents
      reads this`byId, byId.Values
    {
      map id | id in byId :: byId[id].View()
    }

    ghost predicate Separate()
      reads this`byId
    {
      forall i, j :: i in byId && j in byId && i != j ==> byId[i] != byId[j]
    }

    ghost predicate AllExact(docs: Documents)
      reads this`bySymbol, this`byStrategy, this`byTimeframe, this`byStatus,
            this`byLevel, this`byConfidenceBucket, this`byCreatedDate, this`byUpdatedDate
    {
      forall d :: Exact(dateKey, IndexOf(d), docs, d)
    }

    /** Every index agrees with the documents, and every document is well kept. */
    ghost predicate Valid()
      reads this, byId.Values
    {
      Separate() && WellKept(Docs()) && AllExact(Docs())
    }

    constructor (builder: Builder, dateKey: Instant -> string)
      ensures Valid() && Docs() == map[]
      ensures this.builder == builder && this.dateKey == dateKey
    {
      this.builder, this.dateKey := builder, dateKey;
      byId := map[];
      bySymbol, byStrategy, byTimeframe, byStatus := map[], map[], map[], map[];
      byLevel, byConfidenceBucket, byCreatedDate, byUpdatedDate := map[], map[], map[], map[];
    }

    /** The four indexes of what a document is about. */
    method UnindexSubject(id: string, doc: Document)
      modifies this`bySymbol, this`byStrategy, this`byTimeframe, this`byStatus
      ensures bySymbol == RemoveIndex(old(bySymbol), doc.symbol, id)
      ensures byStrategy == RemoveIndex(old(byStrategy), doc.strategy, id)
      ensures byTimeframe == RemoveIndex(old(byTimeframe), doc.timeframe, id)
      ensures byStatus == RemoveIndex(old(byStatus), doc.status, id)
    {
      hide RemoveIndex;
      bySymbol := RemoveIndex(bySymbol, doc.symbol, id);
      byStrategy := RemoveIndex(byStrategy, doc.strategy, id);
      byTimeframe := RemoveIndex(byTimeframe, doc.timeframe, id);
      byStatus := RemoveIndex(byStatus, doc.status, id);
    }

    /** The indexes of level, confidence and dates; a document without a date is not filed by it. */
    method UnindexFigures(id: string, doc: Document)
      modifies this`byLevel, this`byConfidenceBucket, this`byCreatedDate, this`byUpdatedDate
      ensures byLevel == RemoveIndex(old(byLevel), KeyOf(dateKey, doc, ByLevel), id)
      ensures byConfidenceBucket
              == RemoveIndex(old(byConfidenceBucket), KeyOf(dateKey, doc, ByConfidenceBucket), id)
      ensures byCreatedDate == RemoveIndex(old(byCreatedDate), KeyOf(dateKey, doc, ByCreatedDate), id)
      ensures byUpdatedDate == RemoveIndex(old(byUpdatedDate), KeyOf(dateKey, doc, ByUpdatedDate), id)
    {
      hide RemoveIndex, ConfidenceBucket;
      NoKey(byCreatedDate, id);
      NoKey(byUpdatedDate, id);
      byLevel := RemoveIndex(byLevel, doc.level, id);
      byConfidenceBucket :=
        RemoveIndex(byConfidenceBucket, ConfidenceBucket(doc.confidence), id);
      if !IsZeroTime(doc.createdAt) {
        byCreatedDate := RemoveIndex(byCreatedDate, dateKey(doc.createdAt), id);
      }
      if !IsZeroTime(doc.updatedAt) {
        byUpdatedDate := RemoveIndex(byUpdatedDate, dateKey(doc.updatedAt), id);
      }
    }

    method Unindex(id: string, doc: Document)
      modifies this
      ensures byId == old(byId)
      ensures forall d :: IndexOf(d) == Unindexed(dateKey, old(IndexOf(d)), d, id, doc)
    {
      hide RemoveIndex, ConfidenceBucket;
      if doc.id == "" {
        return;
      }
      UnindexSubject(id, doc);
      UnindexFigures(id, doc);
      forall d
        ensures IndexOf(d) == Unindexed(dateKey, old(IndexOf(d)), d, id, doc)
      {
        match d {
          case BySymbol =>
          case ByStrategy =>
          case ByTimeframe =>
          case ByStatus =>
          case ByLevel =>
          case ByConfidenceBucket =>
          case ByCreatedDate =>
          case ByUpdatedDate =>
        }
      }
    }

    method IndexSubject(id: string, doc: Document)
      modifies this`bySymbol, this`byStrategy, this`byTimeframe, this`byStatus
      ensures bySymbol == AddIndex(old(bySymbol), doc.symbol, id)
      ensures byStrategy == AddIndex(old(byStrategy), doc.strategy, id)
      ensures byTimeframe == AddIndex(old(byTimeframe), doc.timeframe, id)
      ensures byStatus == AddIndex(old(byStatus), doc.status, id)
    {
      hide AddIndex;
      bySymbol := AddIndex(bySymbol, doc.symbol, id);
      byStrategy := AddIndex(byStrategy, doc.strategy, id);
      byTimeframe := AddIndex(byTimeframe, doc.timeframe, id);
      byStatus := AddIndex(byStatus, doc.status, id);
    }

    method IndexFigures(id: string, doc: Document)
      modifies this`byLevel, this`byConfidenceBucket, this`byCreatedDate, this`byUpdatedDate
      ensures byLevel == AddIndex(old(byLevel), KeyOf(dateKey, doc, ByLevel), id)
      ensures byConfidenceBucket
              == AddIndex(old(byConfidenceBucket), KeyOf(dateKey, doc, ByConfidenceBucket), id)
      ensures byCreatedDate == AddIndex(old(byCreatedDate), KeyOf(dateKey, doc, ByCreatedDate), id)
      ensures byUpdatedDate == AddIndex(old(byUpdatedDate), KeyOf(dateKey, doc, ByUpdatedDate), id)
    {
      hide AddIndex, ConfidenceBucket;
      NoKey(byCreatedDate, id);
      NoKey(byUpdatedDate, id);
      byLevel := AddIndex(byLevel, doc.level, id);
      byConfidenceBucket := AddIndex(byConfidenceBucket, ConfidenceBucket(doc.confidence), id);
      if !IsZeroTime(doc.createdAt) {
        byCreatedDate := AddIndex(byCreatedDate, dateKey(doc.createdAt), id);
      }
      if !IsZeroTime(doc.updatedAt) {
        byUpdatedDate := AddIndex(byUpdatedDate, dateKey(doc.updatedAt), id);
      }
    }

    method AddToIndexes(id: string, doc: Document)
      modifies this
      ensures byId == old(byId)
      ensures forall d :: IndexOf(d) == Indexed(dateKey, old(IndexOf(d)), d, id, doc)
    {
      hide AddIndex, ConfidenceBucket;
      if doc.id == "" {
        return;
      }
      IndexSubject(id, doc);
      IndexFigures(id, doc);
      forall d
        ensures IndexOf(d) == Indexed(dateKey, old(IndexOf(d)), d, id, doc)
      {
        match d {
          case BySymbol =>
          case ByStrategy =>
          case ByTimeframe =>
          case ByStatus =>
          case ByLevel =>
          case ByConfidenceBucket =>
          case ByCreatedDate =>
          case ByUpdatedDate =>
        }
      }
    }

    /** An absent id is given an empty document, which no index knows. */
    method GetOrCreate(id: string) returns (stored: StoredDocument, found: bool)
      requires Separate() && AllExact(Docs())
      modifies this
      ensures found == (id in old(byId))
      ensures byId == old(byId)[id := stored]
      ensures found ==> stored == old(byId)[id]
      ensures !found ==> fresh(stored)
      ensures stored.View() == Before(old(Docs()), id)
      ensures Separate()
      ensures Docs() == old(Docs())[id := stored.View()]
      ensures AllExact(Docs())
    {
      if id in byId {
        return byId[id], true;
      }
      ghost var before := Docs();
      stored := new StoredDocument();
      found := false;
      byId := byId[id := stored];
      assert Docs() == before[id := NOTHING_STORED];
      forall d
        ensures Exact(dateKey, IndexOf(d), Docs(), d)
      {
        EmptyIsNotFiled(dateKey, IndexOf(d), before, d, id);
      }
    }

    method Merge(stored: StoredDocument, u: Update)
      requires Sound(stored.document.timeline)
      modifies stored
      ensures stored.View() == Applied(builder.formatPrice, old(stored.View()), u)
    {
      hide Applied;
      match u {
        case State(_, _, _, _, _, _, _, _, _) => builder.ApplyState(stored, u);
        case Intelligence(_, _, _, _, _, _, _, _, _) => builder.ApplyIntelligence(stored, u);
        case Quality(_, _, _, _, _, _, _, _, _, _, _) => builder.ApplyQuality(stored, u);
        case Feedback(_) => builder.ApplyFeedback(stored, u);
        case AlertRaised(_, _) => builder.ApplyAlert(stored, u);
      }
    }

    /** A stored document is taken out of the indexes, updated and filed again. */
    method Refile(id: string, stored: StoredDocument, u: Update)
      requires Separate() && AllExact(Docs())
      requires id in byId && byId[id] == stored && Sound(stored.document.timeline)
      modifies this, stored
      ensures byId == old(byId)
      ensures AllExact(Docs())
      ensures Docs() == old(Docs())[id := Applied(builder.formatPrice, old(stored.View()), u)]
    {
      hide Applied, Indexed, Unindexed, Exact;
      ghost var before := Docs();
      Unindex(id, stored.document);
      Merge(stored, u);
      AddToIndexes(id, stored.document);
      assert Docs() == before[id := stored.View()];
      forall d
        ensures Exact(dateKey, IndexOf(d), Docs(), d)
      {
        RefiledExact(dateKey, old(IndexOf(d)), before, d, id, stored.View());
      }
    }

    method Take(u: Update) returns (stored: StoredDocument, found: bool)
      requires Separate() && AllExact(Docs()) && !u.Feedback?
      requires Sound(Before(Docs(), u.id).document.timeline)
      modifies this, byId.Values
      ensures Separate() && AllExact(Docs())
      ensures u.id in byId && byId[u.id] == stored
      ensures Docs() == AfterUpdate(builder.formatPrice, old(Docs()), u)
      ensures found == (u.id in old(byId))
      ensures fresh(byId.Values - old(byId.Values))
    {
      hide Applied, Exact, Sound, Before;
      stored, found := GetOrCreate(u.id);
      Refile(u.id, stored, u);
    }

    /** One addressed update: state, intelligence, quality or alert. */
    method Apply(u: Update) returns (doc: Document, found: bool)
      requires Valid() && !u.Feedback?
      modifies this, byId.Values
      ensures Valid()
      ensures Docs() == AfterUpdate(builder.formatPrice, old(Docs()), u)
      ensures doc == Docs()[u.id].document
      ensures found == (u.id in old(Docs()))
      ensures fresh(byId.Values - old(byId.Values))
    {
      hide Applied, AllExact, Extends, WellKept, Sound, Before;
      UpdateKeeps(builder.formatPrice, Docs(), u);
      var stored;
      stored, found := Take(u);
      doc := stored.document;
    }

    /** The next document of the loop below takes the feedback, unless it has no id. */
    method FeedbackOne(id: string, u: Update, sofar: seq<Document>, ghost before: Documents,
                       ghost done: set<string>) returns (updated: seq<Document>)
      requires Separate() && AllExact(Docs()) && WellKept(before)
      requires u.Feedback? && id in byId && id !in done
      requires Docs() == Partly(builder.formatPrice, before, done, u)
      requires Collected(Docs(), done, sofar)
      modifies this, byId.Values
      ensures byId == old(byId) && AllExact(Docs())
      ensures Docs() == Partly(builder.formatPrice, before, done + {id}, u)
      ensures Collected(Docs(), done + {id}, updated)
    {
      hide Applied, Exact, Files, Extends, Live, Collected;
      var stored := byId[id];
      assert id in Docs();
      assert stored.View() == before[id] == Docs()[id];
      PartlyStep(builder.formatPrice, before, done, id, u);
      CollectedStep(Docs(), done, sofar, id, Applied(builder.formatPrice, before[id], u));
      if stored.document.id == "" {
        assert Docs()[id := before[id]] == Docs();
        return sofar;
      }
      Refile(id, stored, u);
      assert stored.View() == Docs()[id];
      updated := sofar + [stored.document];
    }

    /** Every document under an id takes the feedback; ids are visited in any order. */
    method ApplyFeedback(u: Update) returns (updated: seq<Document>)
      requires Valid() && u.Feedback?
      modifies this, byId.Values
      ensures Valid() && byId == old(byId)
      ensures Docs() == AfterFeedback(builder.formatPrice, old(Docs()), u)
      ensures NoRepeats(updated) && forall doc :: doc in updated <==> Live(Docs(), doc)
    {
      hide Applied, Exact, Sound, Extends, Live, Collected, Partly, AfterFeedback;
      ghost var before := Docs();
      FeedbackKeeps(builder.formatPrice, before, u);
      updated := [];
      var remaining := byId.Keys;
      ghost var done: set<string> := {};
      NoneYet(builder.formatPrice, before, u);
      while remaining != {}
        invariant remaining + done == byId.Keys && remaining !! done
        invariant byId == old(byId) && AllExact(Docs())
        invariant Docs() == Partly(builder.formatPrice, before, done, u)
        invariant Collected(Docs(), done, updated)
        decreases |remaining|
      {
        var id :| id in remaining;
        updated := FeedbackOne(id, u, updated, before, done);
        remaining, done := remaining - {id}, done + {id};
      }
      AllCollected(builder.formatPrice, before, u, done, updated);
    }

    /** Which documents each index holds under a key: those that carry it, and the zero time is no date. */
    lemma IndexesMean(key: string, id: string)
      requires Valid() && key != "" && id != ""
      ensures id in Held(bySymbol, key) <==> id in Docs() && Docs()[id].document.symbol == key
      ensures id in Held(byStrategy, key) <==> id in Docs() && Docs()[id].document.strategy == key
      ensures id in Held(byTimeframe, key) <==> id in Docs() && Docs()[id].document.timeframe == key
      ensures id in Held(byStatus, key) <==> id in Docs() && Docs()[id].document.status == key
      ensures id in Held(byLevel, key) <==> id in Docs() && Docs()[id].document.level == key
      ensures id in Held(byConfidenceBucket, key)
              <==> id in Docs() && InBucket(key, Docs()[id].document.confidence)
      ensures id in Held(byCreatedDate, key)
              <==> id in Docs() && Docs()[id].document.createdAt != -62_135_596_800_000_000_000
                   && dateKey(Docs()[id].document.createdAt) == key
      ensures id in Held(byUpdatedDate, key)
              <==> id in Docs() && Docs()[id].document.updatedAt != -62_135_596_800_000_000_000
                   && dateKey(Docs()[id].document.updatedAt) == key
    {
      hide KeyOf, InBucket, Exact, Files;
      assert Exact(dateKey, IndexOf(BySymbol), Docs(), BySymbol);
      assert Exact(dateKey, IndexOf(ByStrategy), Docs(), ByStrategy);
      assert Exact(dateKey, IndexOf(ByTimeframe), Docs(), ByTimeframe);
      assert Exact(dateKey, IndexOf(ByStatus), Docs(), ByStatus);
      assert Exact(dateKey, IndexOf(ByLevel), Docs(), ByLevel);
      assert Exact(dateKey, IndexOf(ByConfidenceBucket), Docs(), ByConfidenceBucket);
      assert Exact(dateKey, IndexOf(ByCreatedDate), Docs(), ByCreatedDate);
      assert Exact(dateKey, IndexOf(ByUpdatedDate), Docs(), ByUpdatedDate);
      FiledMeans(dateKey, bySymbol, Docs(), BySymbol, key, id);
      FiledMeans(dateKey, byStrategy, Docs(), ByStrategy, key, id);
      FiledMeans(dateKey, byTimeframe, Docs(), ByTimeframe, key, id);
      FiledMeans(dateKey, byStatus, Docs(), ByStatus, key, id);
      FiledMeans(dateKey, byLevel, Docs(), ByLevel, key, id);
      FiledMeans(dateKey, byConfidenceBucket, Docs(), ByConfidenceBucket, key, id);
      FiledMeans(dateKey, byCreatedDate, Docs(), ByCreatedDate, key, id);
      FiledMeans(dateKey, byUpdatedDate, Docs(), ByUpdatedDate, key, id);
    }

    /** The ids to look at: those of one index, picked by the first criterion that is set. */
    method CandidateIds(f: Filter) returns (ids: set<string>)
      requires Valid()
      ensures forall doc :: Found(Docs(), f, doc) ==> doc.id in ids
    {
      var d: Dimension, key;
      if f.symbol != "" {
        d, key, ids := BySymbol, f.symbol, Held(bySymbol, f.symbol);
      } else if f.strategy != "" {
        d, key, ids := ByStrategy, f.strategy, Held(byStrategy, f.strategy);
      } else if f.timeframe != "" {
        d, key, ids := ByTimeframe, f.timeframe, Held(byTimeframe, f.timeframe);
      } else if f.status != "" {
        d, key, ids := ByStatus, f.status, Held(byStatus, f.status);
      } else if f.level != "" {
        d, key, ids := ByLevel, f.level, Held(byLevel, f.level);
      } else if f.confidenceBucket != "" {
        d, key, ids :=
          ByConfidenceBucket, f.confidenceBucket, Held(byConfidenceBucket, f.confidenceBucket);
      } else {
        return byId.Keys;
      }
      forall doc | Found(Docs(), f, doc)
        ensures doc.id in ids
      {
        FiledUnderKey(dateKey, IndexOf(d), Docs(), d, key, doc);
      }
    }

    /**
      Listing through one index gives what filtering a scan of every document gives, newest
      first and cut at the limit.
     */
    method List(f: Filter) returns (out: seq<Document>)
      requires Valid()
      ensures IsListing(Docs(), f, out)
    {
      var ids := CandidateIds(f);
      var remaining := ids;
      var found: seq<Document> := [];
      while remaining != {}
        invariant NoRepeats(found)
        invariant forall doc :: doc in found ==> doc.id !in remaining
        invariant forall doc :: doc in found <==>
                                  Found(Docs(), f, doc) && doc.id in ids && doc.id !in remaining
        decreases |remaining|
      {
        var id :| id in remaining;
        remaining := remaining - {id};
        if id in byId && byId[id].document.id != "" {
          var doc := byId[id].document;
          assert Docs()[id].document == doc && doc.id == id;
          if Matches(f, doc) {
            found := found + [doc];
          }
        }
      }
      var all := SortDocuments(found);
      SameElements(found, all);
      assert IsScan(Docs(), f, all);
      out := if f.limit > 0 && |all| > f.limit then all[..f.limit] else all;
    }
  }

  /** The cache while some ids have taken the feedback. */
  function Partly(format: real -> string, docs: Documents, done: set<string>, u: Update): Documents {
    map id | id in docs :: if id in done then Applied(format, docs[id], u) else docs[id]
  }

  /** A document without an id ignores feedback. */
  lemma PartlyStep(format: real -> string, docs: Documents, done: set<string>, id: string, u: Update)
    requires u.Feedback? && WellKept(docs) && id in docs && id !in done
    ensures Partly(format, docs, done + {id}, u)
            == Partly(format, docs, done, u)[id := Applied(format, docs[id], u)]
    ensures docs[id].document.id == "" ==> Applied(format, docs[id], u) == docs[id]
    ensures Applied(format, docs[id], u).document.id == id
  {
    SortedOfSorted(docs[id].document.timeline);
  }

  /** One document for every id in `done`. */
  ghost predicate Collected(docs: Documents, done: set<string>, out: seq<Document>) {
    NoRepeats(out) && forall doc :: doc in out <==> Live(docs, doc) && doc.id in done
  }

  lemma NoneYet(format: real -> string, docs: Documents, u: Update)
    ensures Partly(format, docs, {}, u) == docs
    ensures Collected(docs, {}, [])
  {
  }

  lemma CollectedStep(docs: Documents, done: set<string>, out: seq<Document>, id: string, s: Stored)
    requires Collected(docs, done, out) && id !in done && s.document.id == id
    ensures Collected(docs[id := s], done + {id}, if id == "" then out else out + [s.document])
  {
  }

  lemma AllCollected(format: real -> string, docs: Documents, u: Update, all: set<string>,
                     out: seq<Document>)
    requires u.Feedback? && docs.Keys <= all
    requires Collected(Partly(format, docs, all, u), all, out)
    ensures Partly(format, docs, all, u) == AfterFeedback(format, docs, u)
    ensures NoRepeats(out)
    ensures forall doc :: doc in out <==> Live(AfterFeedback(format, docs, u), doc)
  {
  }

  lemma FiledUnderKey(dateKey: Instant -> string, index: Index, docs: Documents, d: Dimension,
                      key: string, doc: Document)
    requires Exact(dateKey, index, docs, d) && Live(docs, doc)
    requires key != "" && KeyOf(dateKey, doc, d) == key
    ensures doc.id in Held(index, key)
  {
  }

  method InsertDocument(docs: seq<Document>, doc: Document) returns (r: seq<Document>)
    requires NewestFirst(docs)
    ensures NewestFirst(r)
    ensures multiset(r) == multiset(docs) + multiset{doc}
  {
    var k := 0;
    while k < |docs| && docs[k].updatedAt >= doc.updatedAt
      invariant 0 <= k <= |docs|
      invariant forall j :: 0 <= j < k ==> docs[j].updatedAt >= doc.updatedAt
    {
      k := k + 1;
    }
    assert docs == docs[..k] + docs[k..];
    r := docs[..k] + [doc] + docs[k..];
  }

  /** Some arrangement, newest first; documents of one instant may come in any order. */
  method SortDocuments(docs: seq<Document>) returns (sorted: seq<Document>)
    ensures multiset(sorted) == multiset(docs)
    ensures NewestFirst(sorted)
  {
    sorted := [];
    var i := 0;
    while i < |docs|
      invariant 0 <= i <= |docs|
      invariant multiset(sorted) == multiset(docs[..i])
      invariant NewestFirst(sorted)
    {
      assert docs[..i + 1] == docs[..i] + [docs[i]];
      sorted := InsertDocument(sorted, docs[i]);
      i := i + 1;
    }
    assert docs[..|docs|] == docs;
  }

  lemma NoKey(index: Index, id: string)
    ensures AddIndex(index, "", id) == index
    ensures RemoveIndex(index, "", id) == index
  {
  }

  lemma EmptyIsNotFiled(dateKey: Instant -> string, index: Index, docs: Documents, d: Dimension,
                        id: string)
    requires Exact(dateKey, index, docs, d) && id !in docs
    ensures Exact(dateKey, index, docs[id := NOTHING_STORED], d)
  {
  }
}
