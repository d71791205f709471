/**
  One recommendation: its state machine and the timeline that records it.

  The confidences an entry holds are the numbers rather than their four-decimal text.
 */
module Lifecycle {
  import opened Common

  datatype Status = Created | Active | Watch | ExitRecommended | Closed

  datatype Event =
    | RecommendationCreated
    | ConfidenceIncreased
    | ConfidenceDecreased
    | StatusChanged
    | ExitSuggested
    | ClosedByRejection

  datatype Value = Nothing | StatusIs(status: Status) | ConfidenceIs(confidence: real)

  datatype Entry = Entry(timestamp: Instant, event: Event, previousValue: Value, newValue: Value,
                         reason: string)

  datatype Key = Key(symbol: string, timeframe: string, strategy: string)

  datatype Recommendation = Recommendation(
    id: string,
    key: Key,
    status: Status,
    confidence: real,
    createdAt: Instant,
    updatedAt: Instant,
    closedAt: Option<Instant>
  )

  datatype Record = Record(recommendation: Recommendation, timeline: seq<Entry>)

  datatype Input = Input(key: Key, level: string, confidence: real, validationStatus: string,
                         rejectionReasons: seq<string>)

  function MapLevel(level: string): Status {
    match level
    case "STRONG_BUY" => Active
    case "BUY" => Active
    case "WATCH" => Watch
    case "AVOID" => ExitRecommended
    case _ => Watch
  }

  function LowerCase(s: string): string {
    seq(|s|, i requires 0 <= i < |s| =>
      if 'A' <= s[i] <= 'Z' then (s[i] as int - 'A' as int + 'a' as int) as char else s[i])
  }

  function CreationReason(level: string): string {
    "validated " + LowerCase(level) + " recommendation"
  }

  const ACTIVATED := "initial activation from validated recommendation"
  const RAISED := "validated recommendation confidence increased"
  const LOWERED := "validated recommendation confidence decreased"
  const EXIT_SUGGESTED := "validated recommendation suggests exit"
  const STATUS_CHANGED := "validated recommendation status changed"

  function Join(parts: seq<string>, between: string): string {
    if parts == [] then ""
    else if |parts| == 1 then parts[0]
    else Join(parts[..|parts| - 1], between) + between + parts[|parts| - 1]
  }

  function RejectionReason(reasons: seq<string>): string {
    if reasons == [] then "validation rejected" else Join(reasons, "; ")
  }

  predicate IsConfidence(e: Entry) {
    e.event == ConfidenceIncreased || e.event == ConfidenceDecreased
  }

  function ConfidenceEntries(r: Recommendation, input: Input, at: Instant): seq<Entry> {
    var change := (ConfidenceIs(r.confidence), ConfidenceIs(input.confidence));
    if input.confidence > r.confidence
    then [Entry(at, ConfidenceIncreased, change.0, change.1, RAISED)]
    else if input.confidence < r.confidence
    then [Entry(at, ConfidenceDecreased, change.0, change.1, LOWERED)]
    else []
  }

  function StatusEntries(r: Recommendation, target: Status, at: Instant): seq<Entry> {
    if r.status == Closed || target == r.status then []
    else
      var (event, reason) :=
        if target == ExitRecommended then (ExitSuggested, EXIT_SUGGESTED) else (StatusChanged, STATUS_CHANGED);
      [Entry(at, event, StatusIs(r.status), StatusIs(target), reason)]
  }

  /** A new recommendation is created and at once moved to the status its level asks for. */
  function Opened(id: string, input: Input, at: Instant): Record {
    var target := MapLevel(input.level);
    Record(Recommendation(id, input.key, target, input.confidence, at, at, None),
           [Entry(at, RecommendationCreated, Nothing, StatusIs(target), CreationReason(input.level)),
            Entry(at, StatusChanged, StatusIs(Created), StatusIs(target), ACTIVATED)])
  }

  /** Any validation status other than a rejection updates confidence, then status. */
  function Revised(r: Record, input: Input, at: Instant): Record {
    var rec, target := r.recommendation, MapLevel(input.level);
    Record(rec.(confidence := input.confidence, updatedAt := at,
                status := if rec.status == Closed then Closed else target),
           r.timeline + ConfidenceEntries(rec, input, at) + StatusEntries(rec, target, at))
  }

  function Rejected(r: Record, input: Input, at: Instant): Record {
    var rec := r.recommendation;
    if rec.status == Closed then r
    else
      Record(rec.(status := Closed, updatedAt := at, closedAt := Some(at)),
             r.timeline + [Entry(at, ClosedByRejection, StatusIs(rec.status), StatusIs(Closed),
                                 RejectionReason(input.rejectionReasons))])
  }

  function Updated(r: Record, input: Input, at: Instant): Record {
    if input.validationStatus == "REJECTED" then Rejected(r, input, at) else Revised(r, input, at)
  }

  function LastEntry(timeline: seq<Entry>): Option<Entry> {
    if timeline == [] then None else Some(timeline[|timeline| - 1])
  }

  /** A stored recommendation, updated through its reference. */
  class StoredRecommendation {
    var recommendation: Recommendation
    var timeline: seq<Entry>

    constructor (recommendation: Recommendation)
      ensures View() == Record(recommendation, [])
    {
      this.recommendation, timeline := recommendation, [];
    }

    ghost function View(): Record
      reads this
    {
      Record(recommendation, timeline)
    }

    method AppendTimeline(e: Entry) returns (latest: Option<Entry>)
      modifies this`timeline
      ensures timeline == old(timeline) + [e] && latest == Some(e)
    {
      timeline := timeline + [e];
      latest := Some(e);
    }

    method ApplyRejection(input: Input, at: Instant) returns (latest: Option<Entry>)
      modifies this
      ensures old(recommendation.id) == "" ==> View() == old(View()) && latest == None
      ensures old(recommendation.id) != "" ==>
                View() == Rejected(old(View()), input, at) && latest == LastEntry(timeline)
    {
      if recommendation.id == "" {
        return None;
      }
      if recommendation.status == Closed {
        return LastEntry(timeline);
      }
      var reason := "validation rejected";
      if |input.rejectionReasons| > 0 {
        reason := Join(input.rejectionReasons, "; ");
      }
      latest := AppendTimeline(
        Entry(at, ClosedByRejection, StatusIs(recommendation.status), StatusIs(Closed), reason));
      recommendation := recommendation.(status := Closed, updatedAt := at, closedAt := Some(at));
    }

    method ApplyValidUpdate(input: Input, at: Instant) returns (latest: Option<Entry>)
      requires recommendation.id == "" ==>
                 && timeline == []
                 && recommendation == Recommendation("", input.key, Created, 0.0, at, at, None)
      modifies this
      ensures old(recommendation.id) == "" ==> View() == Opened("", input, at)
      ensures old(recommendation.id) != "" ==> View() == Revised(old(View()), input, at)
      ensures latest == LastEntry(timeline)
    {
      var target := MapLevel(input.level);
      latest := None;
      if recommendation.id == "" {
        latest := AppendTimeline(
          Entry(at, RecommendationCreated, Nothing, StatusIs(target), CreationReason(input.level)));
        recommendation :=
          recommendation.(status := Created, confidence := input.confidence, updatedAt := at);
        if target != Created {
          latest := AppendTimeline(
            Entry(at, StatusChanged, StatusIs(Created), StatusIs(target), ACTIVATED));
          recommendation := recommendation.(status := target);
        }
        return;
      }
      latest := ReviseConfidence(input, at);
      recommendation := recommendation.(confidence := input.confidence, updatedAt := at);
      if && target == ExitRecommended
         && recommendation.status != ExitRecommended
         && recommendation.status != Closed {
        latest := AppendTimeline(
          Entry(at, ExitSuggested, StatusIs(recommendation.status), StatusIs(ExitRecommended), EXIT_SUGGESTED));
        recommendation := recommendation.(status := ExitRecommended);
        return;
      }
      if target != recommendation.status && recommendation.status != Closed {
        latest := AppendTimeline(
          Entry(at, StatusChanged, StatusIs(recommendation.status), StatusIs(target), STATUS_CHANGED));
        recommendation := recommendation.(status := target);
      }
      if latest == None {
        latest := LastEntry(timeline);
      }
    }

    method ReviseConfidence(input: Input, at: Instant) returns (latest: Option<Entry>)
      modifies this`timeline
      ensures timeline == old(timeline) + ConfidenceEntries(recommendation, input, at)
      ensures latest == LastEntry(ConfidenceEntries(recommendation, input, at))
    {
      latest := None;
      var before, after := ConfidenceIs(recommendation.confidence), ConfidenceIs(input.confidence);
      if input.confidence > recommendation.confidence {
        latest := AppendTimeline(Entry(at, ConfidenceIncreased, before, after, RAISED));
      } else if input.confidence < recommendation.confidence {
        latest := AppendTimeline(Entry(at, ConfidenceDecreased, before, after, LOWERED));
      }
    }

    method ApplyUpdate(input: Input, at: Instant) returns (latest: Option<Entry>)
      requires recommendation.id == "" ==>
                 && timeline == []
                 && recommendation == Recommendation("", input.key, Created, 0.0, at, at, None)
      modifies this
      ensures old(recommendation.id) == "" ==>
                if input.validationStatus == "REJECTED" then View() == old(View()) && latest == None
                else View() == Opened("", input, at) && latest == LastEntry(timeline)
      ensures old(recommendation.id) != "" ==>
                View() == Updated(old(View()), input, at) && latest == LastEntry(timeline)
    {
      if input.validationStatus == "REJECTED" {
        latest := ApplyRejection(input, at);
      } else {
        latest := ApplyValidUpdate(input, at);
      }
    }
  }

  /** A closed recommendation stays as it is on a rejection; any other update still moves its confidence. */
  lemma ClosedTakesConfidence(r: Record, input: Input, at: Instant)
    requires r.recommendation.status == Closed
    ensures var u := Updated(r, input, at);
            && u.recommendation.status == Closed && u.recommendation.closedAt == r.recommendation.closedAt
            && (input.validationStatus == "REJECTED" ==> u == r)
            && (input.validationStatus != "REJECTED" ==> u.recommendation.confidence == input.confidence)
            && (u.timeline == r.timeline <==>
                  input.validationStatus == "REJECTED" || input.confidence == r.recommendation.confidence)
  {
    assert |r.timeline + ConfidenceEntries(r.recommendation, input, at)|
           == |r.timeline| + |ConfidenceEntries(r.recommendation, input, at)|;
    assert r.timeline + [] == r.timeline;
  }

  /**
    The status a timeline replays to. The first entry must be the creation; after it every
    status-bearing entry must start where the one before ended and lead somewhere else.
   */
  function Replay(timeline: seq<Entry>): Option<Status> {
    if timeline == [] then None
    else
      var front, e := timeline[..|timeline| - 1], timeline[|timeline| - 1];
      if front == [] then
        if e.event == RecommendationCreated && e.previousValue == Nothing then Some(Created) else None
      else if IsConfidence(e) then Replay(front)
      else if && e.event != RecommendationCreated
              && Replay(front).Some?
              && e.previousValue == StatusIs(Replay(front).value)
              && e.newValue.StatusIs?
              && e.newValue != e.previousValue
              && e.newValue != StatusIs(Created)
              && (e.event == ClosedByRejection <==> e.newValue == StatusIs(Closed))
              && (e.event == ExitSuggested <==> e.newValue == StatusIs(ExitRecommended)
                                                && |front| > 1)
      then Some(e.newValue.status)
      else None
  }

  /** Confidence entries chain up to the current confidence and move the way they say. */
  predicate ConfidenceReplays(timeline: seq<Entry>, confidence: real) {
    timeline == [] ||
    var front, e := timeline[..|timeline| - 1], timeline[|timeline| - 1];
    if !IsConfidence(e) then ConfidenceReplays(front, confidence)
    else
      && e.newValue == ConfidenceIs(confidence)
      && e.previousValue.ConfidenceIs?
      && (e.event == ConfidenceIncreased ==> e.previousValue.confidence < confidence)
      && (e.event == ConfidenceDecreased ==> e.previousValue.confidence > confidence)
      && ConfidenceReplays(front, e.previousValue.confidence)
  }

  /** What every stored recommendation satisfies. */
  ghost predicate Faithful(r: Record) {
    var rec, timeline := r.recommendation, r.timeline;
    && |timeline| >= 2
    && Replay(timeline) == Some(rec.status)
    && ConfidenceReplays(timeline, rec.confidence)
    && rec.status != Created
    && timeline[0].newValue == timeline[1].newValue
    && timeline[0].timestamp == rec.createdAt
    && (rec.closedAt.Some? <==> rec.status == Closed)
    && (rec.status == Closed <==> exists e :: e in timeline && e.event == ClosedByRejection)
    && (forall e :: e in timeline && e.event == ClosedByRejection ==>
                      rec.closedAt == Some(e.timestamp))
    && OnlyConfidenceAfterClosing(timeline)
  }

  ghost predicate OnlyConfidenceAfterClosing(timeline: seq<Entry>) {
    forall i, j :: 0 <= i < j < |timeline| && timeline[i].event == ClosedByRejection ==>
                     IsConfidence(timeline[j])
  }

  lemma OpenedFaithful(id: string, input: Input, at: Instant)
    ensures Faithful(Opened(id, input, at))
  {
  }

  lemma AddConfidence(r: Record, e: Entry, confidence: real, at: Instant)
    requires Faithful(r)
    requires IsConfidence(e)
    requires e.previousValue == ConfidenceIs(r.recommendation.confidence)
    requires e.newValue == ConfidenceIs(confidence)
    requires e.event == ConfidenceIncreased ==> r.recommendation.confidence < confidence
    requires e.event == ConfidenceDecreased ==> r.recommendation.confidence > confidence
    ensures Faithful(Record(r.recommendation.(confidence := confidence, updatedAt := at),
                            r.timeline + [e]))
  {
    assert (r.timeline + [e])[..|r.timeline|] == r.timeline;
  }

  lemma AddStatus(r: Record, e: Entry, target: Status, closedAt: Option<Instant>, at: Instant)
    requires Faithful(r) && r.recommendation.status != Closed
    requires !IsConfidence(e) && e.event != RecommendationCreated
    requires e.previousValue == StatusIs(r.recommendation.status) && e.newValue == StatusIs(target)
    requires target != r.recommendation.status && target != Created
    requires e.event == ClosedByRejection <==> target == Closed
    requires e.event == ExitSuggested <==> target == ExitRecommended
    requires closedAt == if target == Closed then Some(e.timestamp) else r.recommendation.closedAt
    ensures Faithful(Record(r.recommendation.(status := target, closedAt := closedAt, updatedAt := at),
                            r.timeline + [e]))
  {
  }

  /** Every update keeps the timeline a faithful record. */
  lemma UpdatedFaithful(r: Record, input: Input, at: Instant)
    requires Faithful(r)
    ensures Faithful(Updated(r, input, at))
  {
    hide Faithful;
    var rec, target := r.recommendation, MapLevel(input.level);
    if input.validationStatus == "REJECTED" {
      if rec.status != Closed {
        AddStatus(r, Entry(at, ClosedByRejection, StatusIs(rec.status), StatusIs(Closed),
                           RejectionReason(input.rejectionReasons)), Closed,
                  Some(at), at);
      }
    } else {
      RevisedFaithful(r, input, at);
    }
  }

  lemma RevisedFaithful(r: Record, input: Input, at: Instant)
    requires Faithful(r)
    ensures Faithful(Revised(r, input, at))
  {
    hide Faithful;
    var rec, target := r.recommendation, MapLevel(input.level);
    var c, t := ConfidenceEntries(rec, input, at), StatusEntries(rec, target, at);
    var mid := Record(rec.(confidence := input.confidence, updatedAt := at), r.timeline + c);
    assert Faithful(mid) by {
      if c == [] {
        TouchFaithful(r, at);
      } else {
        AddConfidence(r, c[0], input.confidence, at);
      }
    }
    if t == [] {
      assert mid.timeline + t == mid.timeline;
    } else {
      AddStatus(mid, t[0], target, rec.closedAt, at);
    }
  }

  lemma TouchFaithful(r: Record, at: Instant)
    requires Faithful(r)
    ensures Faithful(Record(r.recommendation.(updatedAt := at), r.timeline + []))
  {
    assert r.timeline + [] == r.timeline;
  }

  /** The status-bearing entries after the creation entry. */
  function StatusBearing(timeline: seq<Entry>): seq<Entry> {
    if |timeline| <= 1 then []
    else
      var front, e := StatusBearing(timeline[..|timeline| - 1]), timeline[|timeline| - 1];
      if IsConfidence(e) then front else front + [e]
  }

  /** An unbroken chain from CREATED to `last`, without self-loops. */
  ghost predicate IsChain(entries: seq<Entry>, last: Status) {
    && (entries == [] ==> last == Created)
    && (entries != [] ==> entries[0].previousValue == StatusIs(Created)
                          && entries[|entries| - 1].newValue == StatusIs(last))
    && (forall k :: 0 < k < |entries| ==> entries[k].previousValue == entries[k - 1].newValue)
    && (forall e :: e in entries ==>
                      e.previousValue.StatusIs? && e.newValue.StatusIs? && e.newValue != e.previousValue)
  }

  /** Replaying is the same as following the chain of previous and new values. */
  lemma {:induction false} ReplayFollowsChain(timeline: seq<Entry>)
    requires Replay(timeline).Some?
    ensures IsChain(StatusBearing(timeline), Replay(timeline).value)
  {
    if |timeline| > 1 {
      ReplayFollowsChain(timeline[..|timeline| - 1]);
    }
  }

  /** A run of updates to one recommendation. */
  function UpdatedAll(r: Record, inputs: seq<(Input, Instant)>): Record {
    if inputs == [] then r
    else
      var (input, at) := inputs[|inputs| - 1];
      Updated(UpdatedAll(r, inputs[..|inputs| - 1]), input, at)
  }

  /** What no update undoes: identity, creation, recorded entries, and being closed. */
  ghost predicate Extends(before: Record, after: Record) {
    var b, a := before.recommendation, after.recommendation;
    && before.timeline <= after.timeline
    && a.id == b.id && a.key == b.key && a.createdAt == b.createdAt
    && (b.status == Closed ==> a.status == Closed && a.closedAt == b.closedAt)
  }

  lemma UpdatedExtends(r: Record, input: Input, at: Instant)
    ensures Extends(r, Updated(r, input, at))
  {
  }

  /**
    A closed recommendation is closed for good, whatever arrives: only its confidence still
    moves, and its timeline grows by confidence entries alone.
   */
  lemma {:induction false} ClosedIsAbsorbing(r: Record, inputs: seq<(Input, Instant)>)
    requires r.recommendation.status == Closed
    ensures var after := UpdatedAll(r, inputs);
            && Extends(r, after)
            && after.recommendation.status == Closed
            && forall k :: |r.timeline| <= k < |after.timeline| ==> IsConfidence(after.timeline[k])
  {
    if inputs != [] {
      ClosedIsAbsorbing(r, inputs[..|inputs| - 1]);
    }
  }

  /** From creation on, whatever arrives, the record stays faithful and nothing is undone. */
  lemma {:induction false} RunFaithful(id: string, first: Input, at: Instant,
                                       inputs: seq<(Input, Instant)>)
    ensures Faithful(UpdatedAll(Opened(id, first, at), inputs))
    ensures Extends(Opened(id, first, at), UpdatedAll(Opened(id, first, at), inputs))
  {
    hide Faithful, Updated, Opened;
    if inputs == [] {
      OpenedFaithful(id, first, at);
    } else {
      var n := |inputs| - 1;
      RunFaithful(id, first, at, inputs[..n]);
      var r := UpdatedAll(Opened(id, first, at), inputs[..n]);
      UpdatedFaithful(r, inputs[n].0, inputs[n].1);
      UpdatedExtends(r, inputs[n].0, inputs[n].1);
    }
  }
}
