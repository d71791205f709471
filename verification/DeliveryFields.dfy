/**
  Where the fields of a delivery document come from: over every run each field is that of the last
  update that carries one, and the timeline holds exactly what the updates have to tell.
 */
module DeliveryFields {
  import opened Common
  import opened DeliveryTimeline
  import opened DeliveryBuilder
  import opened DeliveryCache

  /** The value of the last update that carries one. */
  function Latest<T>(us: seq<Update>, carried: Update -> Option<T>): Option<T> {
    if us == [] then None
    else
      var n := |us| - 1;
      if carried(us[n]).Some? then carried(us[n]) else Latest(us[..n], carried)
  }

  /** The value of the first update that carries one. */
  function Earliest<T>(us: seq<Update>, carried: Update -> Option<T>): Option<T> {
    if us == [] then None
    else
      var front := Earliest(us[..|us| - 1], carried);
      if front.Some? then front else carried(us[|us| - 1])
  }

  function Or<T>(o: Option<T>, otherwise: T): T {
    if o.Some? then o.value else otherwise
  }

  /** A state, an intelligence or a quality update; the others say nothing about the recommendation. */
  predicate Describes(u: Update) {
    u.State? || u.Intelligence? || u.Quality?
  }

  function SubjectIn(u: Update): Option<(string, string, string)> {
    if Describes(u) then Some((u.symbol, u.timeframe, u.strategy)) else None
  }

  /** A quality update without a positive confidence leaves the confidence alone. */
  function ConfidenceIn(u: Update): Option<real> {
    if u.State? || u.Intelligence? || (u.Quality? && u.confidence > 0.0) then Some(u.confidence) else None
  }

  /** An empty recommendation counts only in an intelligence update. */
  function LevelIn(u: Update): Option<string> {
    if u.Intelligence? || (Describes(u) && u.recommendation != "") then Some(u.recommendation) else None
  }

  /** An empty status does not count in a quality update. */
  function StatusIn(u: Update): Option<string> {
    if Describes(u) && (u.Quality? ==> u.status != "") then Some(u.status) else None
  }

  /** The label follows the status, unless an intelligence update brings one of its own. */
  function LabelIn(u: Update): Option<string> {
    if u.Intelligence? && u.stateLabel != "" then Some(u.stateLabel)
    else if StatusIn(u).None? then None
    else if u.status == "CREATED" then Some("Created")
    else if u.status == "ACTIVE" then Some("Active")
    else if u.status == "WATCH" then Some("Watch")
    else if u.status == "EXIT_RECOMMENDED" then Some("Exit Recommended")
    else if u.status == "CLOSED" then Some("Closed")
    else Some(u.status)
  }

  function PriceIn(u: Update): Option<real> {
    if u.Quality? then Some(u.entryPrice) else None
  }

  function ClosingIn(u: Update): Option<Instant> {
    if u.State? && u.status == "CLOSED" then Some(u.at) else None
  }

  /** Go's zero time is taken for no time at all. */
  function CreationIn(u: Update): Option<Instant> {
    if u.State? && u.at != -62_135_596_800_000_000_000 then Some(u.at) else None
  }

  function IdIn(u: Update): Option<string> {
    if !u.Feedback? && u.id != "" then Some(u.id) else None
  }

  /** Feedback counts only for a document with an id. */
  function TouchedAt(us: seq<Update>): Option<Instant> {
    if us == [] then None
    else
      var front, u := us[..|us| - 1], us[|us| - 1];
      match u
      case State(_, _, _, _, _, _, _, _, at) => Some(at)
      case Intelligence(_, _, _, _, _, _, _, _, generatedAt) => Some(generatedAt)
      case Quality(_, _, _, _, _, _, _, _, _, _, generatedAt) => Some(generatedAt)
      case Feedback(timestamp) => if Earliest(front, IdIn).Some? then Some(timestamp) else TouchedAt(front)
      case AlertRaised(_, alert) => Some(alert.generatedAt)
  }

  function AlertsIn(us: seq<Update>): seq<Alert> {
    if us == [] then []
    else
      var u := us[|us| - 1];
      AlertsIn(us[..|us| - 1]) + if u.AlertRaised? then [u.alert] else []
  }

  /** What the recommendation of a document says. */
  ghost predicate Describing(doc: Document, us: seq<Update>) {
    && (doc.symbol, doc.timeframe, doc.strategy) == Or(Latest(us, SubjectIn), ("", "", ""))
    && doc.confidence == Or(Latest(us, ConfidenceIn), 0.0)
    && doc.recommendation == doc.level == Or(Latest(us, LevelIn), "")
    && doc.status == Or(Latest(us, StatusIn), "")
    && doc.stateLabel == Or(Latest(us, LabelIn), "")
    && doc.entryPrice == Or(Latest(us, PriceIn), 0.0)
  }

  /** What is recorded about a document itself. */
  ghost predicate Recording(doc: Document, us: seq<Update>) {
    && doc.id == Or(Earliest(us, IdIn), "")
    && doc.createdAt == Or(Earliest(us, CreationIn), ZERO_TIME)
    && doc.updatedAt == Or(TouchedAt(us), ZERO_TIME)
    && doc.closedAt == Latest(us, ClosingIn)
    && doc.alerts == AlertsIn(us)
  }

  lemma LatestStep<T>(us: seq<Update>, u: Update, carried: Update -> Option<T>)
    ensures Latest(us + [u], carried) == if carried(u).Some? then carried(u) else Latest(us, carried)
    ensures Earliest(us + [u], carried)
            == if Earliest(us, carried).Some? then Earliest(us, carried) else carried(u)
  {
    assert (us + [u])[..|us|] == us;
  }

  /** One update sets the fields it carries and leaves the others as they were. */
  lemma MergedDescribes(s: Stored, u: Update)
    ensures var doc, after := s.document, Merged(s, u).document;
            && (after.symbol, after.timeframe, after.strategy)
               == Or(SubjectIn(u), (doc.symbol, doc.timeframe, doc.strategy))
            && after.confidence == Or(ConfidenceIn(u), doc.confidence)
            && after.recommendation == Or(LevelIn(u), doc.recommendation)
            && after.level == Or(LevelIn(u), doc.level)
            && after.status == Or(StatusIn(u), doc.status)
            && after.entryPrice == Or(PriceIn(u), doc.entryPrice)
  {
    hide StatusLabel;
  }

  lemma MergedLabels(s: Stored, u: Update)
    ensures Merged(s, u).document.stateLabel == Or(LabelIn(u), s.document.stateLabel)
  {
  }

  lemma MergedRecords(s: Stored, u: Update)
    ensures var doc, after := s.document, Merged(s, u).document;
            && after.id == (if doc.id != "" then doc.id else Or(IdIn(u), ""))
            && after.createdAt == (if IsZeroTime(doc.createdAt) then Or(CreationIn(u), ZERO_TIME) else doc.createdAt)
            && after.closedAt == (if ClosingIn(u).Some? then ClosingIn(u) else doc.closedAt)
            && after.alerts == doc.alerts + if u.AlertRaised? then [u.alert] else []
  {
    hide StatusLabel;
    assert s.document.alerts + [] == s.document.alerts;
  }

  lemma MergedTouches(s: Stored, us: seq<Update>, u: Update)
    requires s.document.id == Or(Earliest(us, IdIn), "") && s.document.updatedAt == Or(TouchedAt(us), ZERO_TIME)
    ensures Merged(s, u).document.updatedAt == Or(TouchedAt(us + [u]), ZERO_TIME)
  {
    hide StatusLabel;
    assert (us + [u])[..|us|] == us;
    NamedByAnId(us);
  }

  lemma {:induction false} NamedByAnId(us: seq<Update>)
    ensures Earliest(us, IdIn) != Some("")
    ensures Earliest(us, CreationIn) != Some(ZERO_TIME)
  {
    if us != [] {
      NamedByAnId(us[..|us| - 1]);
    }
  }

  lemma DescribingStep(s: Stored, us: seq<Update>, u: Update)
    requires Describing(s.document, us)
    ensures Describing(Merged(s, u).document, us + [u])
  {
    hide Latest, Merged, SubjectIn, ConfidenceIn, LevelIn, StatusIn, LabelIn, PriceIn;
    MergedDescribes(s, u);
    MergedLabels(s, u);
    LatestStep(us, u, SubjectIn);
    LatestStep(us, u, ConfidenceIn);
    LatestStep(us, u, LevelIn);
    LatestStep(us, u, StatusIn);
    LatestStep(us, u, LabelIn);
    LatestStep(us, u, PriceIn);
  }

  lemma RecordingStep(s: Stored, us: seq<Update>, u: Update)
    requires Recording(s.document, us)
    ensures Recording(Merged(s, u).document, us + [u])
  {
    hide Latest, Earliest, Merged, IdIn, CreationIn, ClosingIn, TouchedAt;
    MergedRecords(s, u);
    MergedTouches(s, us, u);
    NamedByAnId(us);
    LatestStep(us, u, IdIn);
    LatestStep(us, u, CreationIn);
    LatestStep(us, u, ClosingIn);
    assert (us + [u])[..|us|] == us;
  }

  lemma TimelineApart(doc: Document, timeline: seq<Entry>, us: seq<Update>)
    ensures Describing(doc, us) ==> Describing(doc.(timeline := timeline), us)
    ensures Recording(doc, us) ==> Recording(doc.(timeline := timeline), us)
  {
  }

  /** Over every run of updates each field of a document comes from the update it says. */
  lemma {:induction false} FieldsFollow(format: real -> string, us: seq<Update>)
    ensures Describing(AppliedAll(format, NOTHING_STORED, us).document, us)
    ensures Recording(AppliedAll(format, NOTHING_STORED, us).document, us)
  {
    if us != [] {
      var front, u := us[..|us| - 1], us[|us| - 1];
      FieldsFollow(format, front);
      var s := AppliedAll(format, NOTHING_STORED, front);
      hide Describing, Recording;
      DescribingStep(s, front, u);
      RecordingStep(s, front, u);
      assert us == front + [u];
      TimelineApart(Merged(s, u).document, Applied(format, s, u).document.timeline, us);
    }
  }

  /** The same for each document of a cache: its own updates decide, whatever other documents get. */
  lemma CachedFieldsFollow(format: real -> string, us: seq<Update>, id: string)
    requires id in CacheRun(format, us)
    ensures Describing(CacheRun(format, us)[id].document, Own(id, us))
    ensures Recording(CacheRun(format, us)[id].document, Own(id, us))
  {
    hide Describing, Recording, Own, CacheRun;
    DocumentsIndependent(format, us, id);
    FieldsFollow(format, Own(id, us));
  }

  // What the timeline tells.

  /** An entry price was known before. */
  predicate Priced(us: seq<Update>) {
    us != [] &&
    var u := us[|us| - 1];
    Priced(us[..|us| - 1]) || (u.Quality? && u.entryPrice > 0.0)
  }

  /** Feedback reached the document before. */
  predicate Mentioned(us: seq<Update>) {
    us != [] &&
    var front := us[..|us| - 1];
    Mentioned(front) || (us[|us| - 1].Feedback? && Earliest(front, IdIn).Some?)
  }

  /** An update tells this entry after those before it. */
  ghost predicate Tells(format: real -> string, us: seq<Update>, u: Update, e: Entry) {
    match u
    case State(_, _, _, _, _, _, _, latest, _) =>
      && e == latest.(event := e.event)
      && (if TrimSpace(latest.event) == "Recommendation Created" then e.event == "Created"
          else e.event == TrimSpace(latest.event))
    case Intelligence(_, _, _, _, _, _, _, _, _) => false
    case Quality(_, _, _, _, _, _, _, outcome, entryPrice, evaluatedAt, _) =>
      || e == Entry(evaluatedAt, "Quality Evaluated", "", "", outcome)
      || (entryPrice > 0.0 && !Priced(us) && e == Entry(evaluatedAt, "Entry Triggered", "", "", format(entryPrice)))
    case Feedback(timestamp) =>
      && Earliest(us, IdIn).Some? && !Mentioned(us)
      && e == Entry(timestamp, "Feedback Updated", "", "", "")
    case AlertRaised(_, alert) =>
      e == Entry(alert.generatedAt, "Alert Generated", alert.reason, "", alert.alertType)
  }

  ghost predicate Told(format: real -> string, us: seq<Update>, e: Entry) {
    us != [] &&
    var front := us[..|us| - 1];
    Told(format, front, e) || Tells(format, front, us[|us| - 1], e)
  }

  lemma OffersTell(format: real -> string, s: Stored, us: seq<Update>, u: Update, e: Entry)
    requires s.hadEntryPrice == Priced(us) && s.feedbackApplied == Mentioned(us)
    requires s.document.id != "" <==> Earliest(us, IdIn).Some?
    ensures e in Offers(format, s, u) <==> Tells(format, us, u, e)
  {
    hide Priced, Mentioned, Earliest, TrimSpace;
  }

  lemma FlagsStep(format: real -> string, s: Stored, us: seq<Update>, u: Update)
    requires s.hadEntryPrice == Priced(us) && s.feedbackApplied == Mentioned(us)
    requires s.document.id != "" <==> Earliest(us, IdIn).Some?
    ensures Merged(s, u).hadEntryPrice == Priced(us + [u])
    ensures Merged(s, u).feedbackApplied == Mentioned(us + [u])
  {
    hide StatusLabel;
    assert (us + [u])[..|us|] == us;
  }

  lemma {:induction false} FlagsFollow(format: real -> string, us: seq<Update>)
    ensures var s := AppliedAll(format, NOTHING_STORED, us);
            && s.hadEntryPrice == Priced(us) && s.feedbackApplied == Mentioned(us)
            && (s.document.id != "" <==> Earliest(us, IdIn).Some?)
  {
    FieldsFollow(format, us);
    NamedByAnId(us);
    if us != [] {
      var front := us[..|us| - 1];
      FlagsFollow(format, front);
      FlagsStep(format, AppliedAll(format, NOTHING_STORED, front), front, us[|us| - 1]);
      assert us == front + [us[|us| - 1]];
    }
  }

  /**
    Over every run the timeline holds exactly what the updates told: each state update's latest
    entry, each evaluation and alert, the first entry price and the first feedback.
   */
  lemma {:induction false} TimelineTells(format: real -> string, us: seq<Update>, e: Entry)
    ensures e in AppliedAll(format, NOTHING_STORED, us).document.timeline
            <==> e.event != "" && Told(format, us, e)
  {
    hide Offers, Tells, Merged;
    if us != [] {
      var front, u := us[..|us| - 1], us[|us| - 1];
      var s := AppliedAll(format, NOTHING_STORED, front);
      TimelineTells(format, front, e);
      RunKeeps(format, NOTHING_STORED, front);
      PlacedKeeps(s.document.timeline, Offers(format, s, u));
      FlagsFollow(format, front);
      OffersTell(format, s, front, u, e);
    }
  }
}
