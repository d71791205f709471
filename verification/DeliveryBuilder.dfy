/**
  Delivery documents and the five kinds of update that assemble them.
 */
module DeliveryBuilder {
  import opened Common
  import opened DeliveryTimeline

  datatype Alert = Alert(
    alertId: string,
    alertType: string,
    message: string,
    reason: string,
    generatedAt: Instant
  )

  datatype Document = Document(
    id: string,
    symbol: string,
    timeframe: string,
    strategy: string,
    recommendation: string,
    level: string,
    status: string,
    stateLabel: string,
    confidence: real,
    entryPrice: real,
    timeline: seq<Entry>,
    alerts: seq<Alert>,
    createdAt: Instant,
    updatedAt: Instant,
    closedAt: Option<Instant>
  )

  const EMPTY_DOCUMENT :=
    Document("", "", "", "", "", "", "", "", 0.0, 0.0, [], [], ZERO_TIME, ZERO_TIME, None)

  const CLOSED := "CLOSED"

  /** The value of a stored document. */
  datatype Stored = Stored(document: Document, hadEntryPrice: bool, feedbackApplied: bool)

  const NOTHING_STORED := Stored(EMPTY_DOCUMENT, false, false)

  datatype Update =
    | State(id: string, symbol: string, timeframe: string, strategy: string,
            recommendation: string, status: string, confidence: real, latest: Entry, at: Instant)
    | Intelligence(id: string, symbol: string, timeframe: string, strategy: string,
                   recommendation: string, status: string, confidence: real,
                   stateLabel: string, generatedAt: Instant)
    | Quality(id: string, symbol: string, timeframe: string, strategy: string,
              recommendation: string, status: string, confidence: real, outcome: string,
              entryPrice: real, evaluatedAt: Instant, generatedAt: Instant)
    | Feedback(timestamp: Instant)
    | AlertRaised(id: string, alert: Alert)

  function StatusLabel(status: string): string {
    match status
    case "CREATED" => "Created"
    case "ACTIVE" => "Active"
    case "WATCH" => "Watch"
    case "EXIT_RECOMMENDED" => "Exit Recommended"
    case "CLOSED" => "Closed"
    case _ => status
  }

  function WithId(doc: Document, id: string): Document {
    if doc.id != "" then doc else doc.(id := id)
  }

  function QualityOffers(format: real -> string, hadEntryPrice: bool, u: Update): seq<Entry>
    requires u.Quality?
  {
    var evaluated := Entry(u.evaluatedAt, "Quality Evaluated", "", "", u.outcome);
    if u.entryPrice > 0.0 && !hadEntryPrice
    then [Entry(u.evaluatedAt, "Entry Triggered", "", "", format(u.entryPrice)), evaluated]
    else [evaluated]
  }

  /** The entries an update offers to the timeline of a document. */
  function Offers(format: real -> string, s: Stored, u: Update): seq<Entry> {
    match u
    case State(_, _, _, _, _, _, _, latest, _) =>
      [latest.(event := MapStateEvent(latest.event))]
    case Intelligence(_, _, _, _, _, _, _, _, _) => []
    case Quality(_, _, _, _, _, _, _, _, _, _, _) => QualityOffers(format, s.hadEntryPrice, u)
    case Feedback(timestamp) =>
      if s.document.id == "" || s.feedbackApplied then []
      else [Entry(timestamp, "Feedback Updated", "", "", "")]
    case AlertRaised(_, alert) =>
      [Entry(alert.generatedAt, "Alert Generated", alert.reason, "", alert.alertType)]
  }

  /** Everything an update does to a stored document except for its timeline. */
  function Merged(s: Stored, u: Update): Stored {
    var doc := s.document;
    match u
    case State(id, symbol, timeframe, strategy, recommendation, status, confidence, _, at) =>
      s.(document := WithId(doc, id).(
        createdAt := if IsZeroTime(doc.createdAt) then at else doc.createdAt,
        symbol := symbol, timeframe := timeframe, strategy := strategy,
        recommendation := if recommendation != "" then recommendation else doc.recommendation,
        level := if recommendation != "" then recommendation else doc.level,
        status := status, confidence := confidence, stateLabel := StatusLabel(status),
        updatedAt := at,
        closedAt := if status == CLOSED then Some(at) else doc.closedAt))
    case Intelligence(id, symbol, timeframe, strategy, recommendation, status, confidence,
                      stateLabel, generatedAt) =>
      s.(document := WithId(doc, id).(
        symbol := symbol, timeframe := timeframe, strategy := strategy,
        recommendation := recommendation, level := recommendation,
        status := status, confidence := confidence,
        stateLabel := if stateLabel == "" then StatusLabel(status) else stateLabel,
        updatedAt := generatedAt))
    case Quality(id, symbol, timeframe, strategy, recommendation, status, confidence, _,
                 entryPrice, _, generatedAt) =>
      s.(hadEntryPrice := s.hadEntryPrice || entryPrice > 0.0,
         document := WithId(doc, id).(
        symbol := symbol, timeframe := timeframe, strategy := strategy,
        recommendation := if recommendation != "" then recommendation else doc.recommendation,
        level := if recommendation != "" then recommendation else doc.level,
        status := if status != "" then status else doc.status,
        stateLabel := if status != "" then StatusLabel(status) else doc.stateLabel,
        confidence := if confidence > 0.0 then confidence else doc.confidence,
        entryPrice := entryPrice, updatedAt := generatedAt))
    case Feedback(timestamp) =>
      if doc.id == "" then s
      else s.(feedbackApplied := true, document := doc.(updatedAt := timestamp))
    case AlertRaised(id, alert) =>
      s.(document := WithId(doc, id).(
        alerts := doc.alerts + [alert], updatedAt := alert.generatedAt))
  }

  function Applied(format: real -> string, s: Stored, u: Update): Stored {
    var m := Merged(s, u);
    m.(document := m.document.(timeline := Placed(s.document.timeline, Offers(format, s, u))))
  }

  /** A stored document, updated through its reference. */
  class StoredDocument {
    var document: Document
    var hadEntryPrice: bool
    var feedbackApplied: bool

    constructor ()
      ensures View() == NOTHING_STORED
    {
      document, hadEntryPrice, feedbackApplied := EMPTY_DOCUMENT, false, false;
    }

    ghost function View(): Stored
      reads this
    {
      Stored(document, hadEntryPrice, feedbackApplied)
    }
  }

  /** The builder; `formatPrice` is the two-decimal text of a price. */
  class Builder {
    const formatPrice: real -> string

    constructor (format: real -> string)
      ensures formatPrice == format
    {
      formatPrice := format;
    }

    method EnsureStored(stored: StoredDocument, id: string)
      modifies stored
      ensures stored.View() == old(stored.View()).(document := WithId(old(stored.document), id))
    {
      if stored.document.id != "" {
        return;
      }
      stored.document := stored.document.(id := id);
    }

    method ApplyState(stored: StoredDocument, u: Update)
      requires u.State?
      modifies stored
      ensures stored.View() == Applied(formatPrice, old(stored.View()), u)
    {
      EnsureStored(stored, u.id);
      var doc := stored.document;
      if IsZeroTime(doc.createdAt) {
        doc := doc.(createdAt := u.at);
      }
      doc := doc.(symbol := u.symbol, timeframe := u.timeframe, strategy := u.strategy);
      if u.recommendation != "" {
        doc := doc.(recommendation := u.recommendation, level := u.recommendation);
      }
      doc := doc.(status := u.status, confidence := u.confidence,
                  stateLabel := StatusLabel(u.status), updatedAt := u.at);
      if u.status == CLOSED {
        doc := doc.(closedAt := Some(u.at));
      }
      ghost var before := doc.timeline;
      var entry := u.latest.(event := MapStateEvent(u.latest.event));
      var timeline := AppendTimelineEntry(doc.timeline, entry);
      OfferOne(before, entry);
      timeline := SortTimeline(timeline);
      stored.document := doc.(timeline := timeline);
    }

    method ApplyIntelligence(stored: StoredDocument, u: Update)
      requires u.Intelligence?
      requires InOrder(stored.document.timeline)
      modifies stored
      ensures stored.View() == Applied(formatPrice, old(stored.View()), u)
    {
      EnsureStored(stored, u.id);
      var doc := stored.document;
      doc := doc.(symbol := u.symbol, timeframe := u.timeframe, strategy := u.strategy,
                  level := u.recommendation, recommendation := u.recommendation,
                  confidence := u.confidence, status := u.status, stateLabel := u.stateLabel);
      if doc.stateLabel == "" {
        doc := doc.(stateLabel := StatusLabel(u.status));
      }
      stored.document := doc.(updatedAt := u.generatedAt);
      SortedOfSorted(doc.timeline);
    }

    method ApplyQuality(stored: StoredDocument, u: Update)
      requires u.Quality?
      modifies stored
      ensures stored.View() == Applied(formatPrice, old(stored.View()), u)
    {
      EnsureStored(stored, u.id);
      var doc := stored.document;
      doc := doc.(symbol := u.symbol, timeframe := u.timeframe, strategy := u.strategy);
      if u.recommendation != "" {
        doc := doc.(level := u.recommendation, recommendation := u.recommendation);
      }
      if u.confidence > 0.0 {
        doc := doc.(confidence := u.confidence);
      }
      if u.status != "" {
        doc := doc.(status := u.status, stateLabel := StatusLabel(u.status));
      }
      doc := doc.(entryPrice := u.entryPrice, updatedAt := u.generatedAt);
      var timeline := QualityTimeline(doc.timeline, stored.hadEntryPrice, u);
      if u.entryPrice > 0.0 && !stored.hadEntryPrice {
        stored.hadEntryPrice := true;
      }
      stored.document := doc.(timeline := timeline);
    }

    /** The entry price is announced once, ahead of the evaluation. */
    method QualityTimeline(timeline: seq<Entry>, hadEntryPrice: bool, u: Update)
      returns (r: seq<Entry>)
      requires u.Quality?
      ensures r == Placed(timeline, QualityOffers(formatPrice, hadEntryPrice, u))
    {
      var triggered := Entry(u.evaluatedAt, "Entry Triggered", "", "", formatPrice(u.entryPrice));
      var evaluated := Entry(u.evaluatedAt, "Quality Evaluated", "", "", u.outcome);
      r := timeline;
      if u.entryPrice > 0.0 && !hadEntryPrice {
        r := AppendTimelineEntry(r, triggered);
        OfferOne(timeline, triggered);
        OfferMore(timeline, [triggered], evaluated);
        assert [triggered] + [evaluated] == [triggered, evaluated];
      }
      OfferOne(timeline, evaluated);
      r := AppendTimelineEntry(r, evaluated);
      r := SortTimeline(r);
    }

    method ApplyFeedback(stored: StoredDocument, u: Update)
      requires u.Feedback?
      requires InOrder(stored.document.timeline)
      modifies stored
      ensures stored.View() == Applied(formatPrice, old(stored.View()), u)
    {
      SortedOfSorted(stored.document.timeline);
      if stored.document.id == "" {
        return;
      }
      var doc := stored.document.(updatedAt := u.timestamp);
      if !stored.feedbackApplied {
        stored.feedbackApplied := true;
        var entry := Entry(u.timestamp, "Feedback Updated", "", "", "");
        OfferOne(doc.timeline, entry);
        var timeline := AppendTimelineEntry(doc.timeline, entry);
        timeline := SortTimeline(timeline);
        doc := doc.(timeline := timeline);
      }
      stored.document := doc;
    }

    method ApplyAlert(stored: StoredDocument, u: Update)
      requires u.AlertRaised?
      modifies stored
      ensures stored.View() == Applied(formatPrice, old(stored.View()), u)
    {
      EnsureStored(stored, u.id);
      var doc := stored.document;
      doc := doc.(alerts := doc.alerts + [u.alert], updatedAt := u.alert.generatedAt);
      var entry := Entry(u.alert.generatedAt, "Alert Generated", u.alert.reason, "",
                         u.alert.alertType);
      OfferOne(doc.timeline, entry);
      var timeline := AppendTimelineEntry(doc.timeline, entry);
      timeline := SortTimeline(timeline);
      stored.document := doc.(timeline := timeline);
    }
  }

  lemma OfferOne(timeline: seq<Entry>, e: Entry)
    ensures AppendedAll(timeline, [e]) == Appended(timeline, e)
  {
  }

  lemma OfferMore(timeline: seq<Entry>, offers: seq<Entry>, e: Entry)
    ensures AppendedAll(timeline, offers + [e]) == Appended(AppendedAll(timeline, offers), e)
  {
  }

  /** A run of updates to one document. */
  function AppliedAll(format: real -> string, s: Stored, us: seq<Update>): Stored {
    if us == [] then s
    else Applied(format, AppliedAll(format, s, us[..|us| - 1]), us[|us| - 1])
  }

  /** Every entry offered during a run, in the order offered. */
  function OffersAll(format: real -> string, s: Stored, us: seq<Update>): seq<Entry> {
    if us == [] then []
    else
      OffersAll(format, s, us[..|us| - 1])
      + Offers(format, AppliedAll(format, s, us[..|us| - 1]), us[|us| - 1])
  }

  /**
    Incremental equals batch: after any run the timeline is the stable sort, by time, of the
    first occurrences of the entries offered.
   */
  lemma {:induction false} TimelineIsBatch(format: real -> string, s: Stored, us: seq<Update>)
    requires s.document.timeline == []
    ensures AppliedAll(format, s, us).document.timeline
            == Sorted(AppendedAll([], OffersAll(format, s, us)))
  {
    if us != [] {
      var before := us[..|us| - 1];
      TimelineIsBatch(format, s, before);
      var t := AppliedAll(format, s, before);
      var sofar, more := OffersAll(format, s, before), Offers(format, t, us[|us| - 1]);
      PlacedIsBatch(AppendedAll([], sofar), more);
      AppendedAllConcat([], sofar, more);
    }
  }

  /** What no update undoes. */
  ghost predicate Extends(before: Stored, after: Stored) {
    && (forall e :: e in before.document.timeline ==> e in after.document.timeline)
    && before.document.alerts <= after.document.alerts
    && (before.document.id != "" ==> after.document.id == before.document.id)
    && (!IsZeroTime(before.document.createdAt) ==>
          after.document.createdAt == before.document.createdAt)
    && (before.document.closedAt.Some? ==> after.document.closedAt.Some?)
    && (before.hadEntryPrice ==> after.hadEntryPrice)
    && (before.feedbackApplied ==> after.feedbackApplied)
  }

  lemma AppliedKeeps(format: real -> string, s: Stored, u: Update)
    requires Sound(s.document.timeline)
    ensures Sound(Applied(format, s, u).document.timeline)
    ensures Extends(s, Applied(format, s, u))
  {
    PlacedKeeps(s.document.timeline, Offers(format, s, u));
  }

  /**
    Over any run the timeline stays in time order, free of repeated entries and of entries
    without an event, and nothing recorded is ever lost.
   */
  lemma {:induction false} RunKeeps(format: real -> string, s: Stored, us: seq<Update>)
    requires Sound(s.document.timeline)
    ensures Sound(AppliedAll(format, s, us).document.timeline)
    ensures Extends(s, AppliedAll(format, s, us))
  {
    if us != [] {
      var before := us[..|us| - 1];
      RunKeeps(format, s, before);
      AppliedKeeps(format, AppliedAll(format, s, before), us[|us| - 1]);
    }
  }

  /** A state update replayed later, at any time and after any other updates, adds nothing. */
  lemma ReplayAddsNothing(format: real -> string, s: Stored, u: Update, us: seq<Update>, again: Instant)
    requires Sound(s.document.timeline) && u.State?
    ensures var t := AppliedAll(format, Applied(format, s, u), us);
            Applied(format, t, u.(at := again)).document.timeline == t.document.timeline
  {
    var first := Applied(format, s, u);
    AppliedKeeps(format, s, u);
    RunKeeps(format, first, us);
    var t := AppliedAll(format, first, us);
    var entry := u.latest.(event := MapStateEvent(u.latest.event));
    PlacedKeeps(s.document.timeline, Offers(format, s, u));
    assert entry in Offers(format, s, u);
    PlacedAgain(t.document.timeline, [entry]);
  }
}
