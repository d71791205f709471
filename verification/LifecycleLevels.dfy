/**
  What the recommendation cache makes of a run of inputs, read off the inputs themselves: the
  level of the last input decides the status, and the timeline counts what the inputs did.
 */
module LifecycleLevels {
  import opened Common
  import opened Lifecycle
  import opened LifecycleState
  import LifecycleCache
  import RecordIds

  type Inputs = seq<(Input, Instant)>

  /** The last input about a key. */
  function LastInput(inputs: Inputs, key: Key): Option<Input> {
    if inputs == [] then None
    else
      var n := |inputs| - 1;
      if inputs[n].0.key == key then Some(inputs[n].0) else LastInput(inputs[..n], key)
  }

  /** The last input about a key that is not a rejection. */
  function LastTaken(inputs: Inputs, key: Key): Option<Input> {
    if inputs == [] then None
    else
      var n, input := |inputs| - 1, inputs[|inputs| - 1].0;
      if input.key == key && input.validationStatus != "REJECTED" then Some(input) else LastTaken(inputs[..n], key)
  }

  /** The stored recommendation of a key. */
  function RecordOf(s: State, key: Key): Option<Record> {
    if IdFor(s, key).Some? && IdFor(s, key).value in s.byId then Some(s.byId[IdFor(s, key).value]) else None
  }

  predicate IsOpen(s: State, key: Key) {
    RecordOf(s, key).Some? && RecordOf(s, key).value.recommendation.status != Closed
  }

  lemma KnownHasRecord(s: State, key: Key)
    requires Filed(s)
    ensures IdFor(s, key).Some? <==> RecordOf(s, key).Some?
    ensures RecordOf(s, key).Some? ==>
              && RecordOf(s, key).value.recommendation.key == key
              && (key in s.closed <==> RecordOf(s, key).value.recommendation.status == Closed)
              && (key in s.active <==> RecordOf(s, key).value.recommendation.status != Closed)
  {
    if IdFor(s, key).Some? {
      KnownIsStored(s, key);
    }
  }

  lemma CreateRecord(cfg: Config, s: State, input: Input, at: Instant, key: Key)
    requires Filed(s) && IdFor(s, input.key) == None
    requires NextId(cfg, s, input.key.symbol, at) !in s.byId
    ensures var t, id := Create(cfg, s, input, at), NextId(cfg, s, input.key.symbol, at);
            RecordOf(t, key) == if key == input.key then Some(Opened(id, input, at)) else RecordOf(s, key)
  {
    hide Opened, Remembered;
  }

  lemma MergeRecord(cfg: Config, s: State, id: string, input: Input, at: Instant, key: Key)
    requires Filed(s) && IdFor(s, input.key) == Some(id) && id in s.byId
    ensures var t := Merge(cfg, s, id, input, at);
            RecordOf(t, key) == if key == input.key then Some(Updated(s.byId[id], input, at)) else RecordOf(s, key)
  {
    hide Remembered, Filed, Updated;
    OneKeyPerId(s, input.key, id);
    KnownIsStored(s, input.key);
    OneSide(s, input.key);
    UpdatedExtends(s.byId[id], input, at);
    var r := Updated(s.byId[id], input, at);
    var mid := s.(byId := s.byId[id := r]);
    MoveKeepsIds(mid, input.key, id, s.byId[id].recommendation.status == Closed, r.recommendation.status, key);
  }

  lemma OneSide(s: State, key: Key)
    requires Filed(s)
    ensures key in s.closed ==> key !in s.active
  {
    hide ActiveFiled, ClosedFiled, AllPlaced;
  }

  /** One call updates or creates the record of its own key and leaves every other one alone. */
  lemma RecordStep(cfg: Config, s: State, input: Input, at: Instant, key: Key)
    requires DatesAreDigits(cfg) && Inv(cfg, s)
    ensures var before, after := RecordOf(s, key), RecordOf(After(cfg, s, input, at), key);
            if key != input.key then after == before
            else if before.Some? then after == Some(Updated(before.value, input, at))
            else if input.validationStatus == "VALID" && |s.active| < cfg.maxActive then
              after == Some(Opened(NextId(cfg, s, key.symbol, at), input, at))
            else after == None
  {
    hide Filed, Recorded, Indexed, Create, Merge, Updated, Opened, NextId;
    KnownHasRecord(s, input.key);
    KnownHasRecord(s, key);
    if IdFor(s, input.key).Some? {
      MergeRecord(cfg, s, IdFor(s, input.key).value, input, at, key);
    } else if input.validationStatus == "VALID" && |s.active| < cfg.maxActive {
      IdsMatch(s);
      NextIdIsNew(cfg, s, input.key.symbol, at);
      CreateRecord(cfg, s, input, at, key);
    }
  }

  /** An open recommendation has the status that the level of an input stands for. */
  ghost predicate HasLevelOf(rec: Recommendation, input: Input) {
    && (rec.status == Active <==> input.level == "STRONG_BUY" || input.level == "BUY")
    && (rec.status == ExitRecommended <==> input.level == "AVOID")
    && (rec.status == Watch <==> input.level !in {"STRONG_BUY", "BUY", "AVOID"})
  }

  /** What the record of a key has to do with the inputs so far. */
  ghost predicate Follows(r: Record, inputs: Inputs, key: Key) {
    && LastInput(inputs, key).Some? && LastTaken(inputs, key).Some?
    && r.recommendation.confidence == LastTaken(inputs, key).value.confidence
    && (r.recommendation.status != Closed ==>
          && LastTaken(inputs, key) == LastInput(inputs, key)
          && HasLevelOf(r.recommendation, LastInput(inputs, key).value))
  }

  lemma OpenedHasLevel(id: string, input: Input, at: Instant)
    ensures HasLevelOf(Opened(id, input, at).recommendation, input)
    ensures Opened(id, input, at).recommendation.confidence == input.confidence
  {
  }

  lemma UpdatedHasLevel(r: Record, input: Input, at: Instant)
    ensures var u := Updated(r, input, at).recommendation;
            if input.validationStatus == "REJECTED" then
              u.status == Closed && u.confidence == r.recommendation.confidence
            else
              && u.confidence == input.confidence
              && (u.status == Closed <==> r.recommendation.status == Closed)
              && (u.status != Closed ==> HasLevelOf(u, input))
  {
  }

  /**
    Over every run of inputs the level of the last input about a key decides the status of its
    recommendation until a rejection closes it: active for the two buying levels, exit
    recommended for "AVOID", watched for any other text. The confidence is that of the last
    input that was not a rejection.
   */
  lemma {:induction false} LevelDecides(cfg: Config, inputs: Inputs, key: Key)
    requires DatesAreDigits(cfg)
    ensures var s := Run(cfg, inputs);
            RecordOf(s, key).Some? ==> Follows(RecordOf(s, key).value, inputs, key)
  {
    hide Inv, After, Opened, Updated, HasLevelOf, RecordOf;
    if inputs == [] {
      NothingKnown(key);
    } else {
      var n := |inputs| - 1;
      var s := Run(cfg, inputs[..n]);
      var (input, at) := inputs[n];
      LevelDecides(cfg, inputs[..n], key);
      RunInv(cfg, inputs[..n]);
      RecordStep(cfg, s, input, at, key);
      OpenedHasLevel(NextId(cfg, s, key.symbol, at), input, at);
      if RecordOf(s, key).Some? {
        UpdatedHasLevel(RecordOf(s, key).value, input, at);
      }
    }
  }

  lemma NothingKnown(key: Key)
    ensures RecordOf(EMPTY, key) == None
  {
  }

  // What closes a recommendation.

  /** Whether an input rejected the key while it was known. */
  ghost predicate EverRejected(cfg: Config, inputs: Inputs, key: Key) {
    inputs != [] &&
    var n, input := |inputs| - 1, inputs[|inputs| - 1].0;
    || EverRejected(cfg, inputs[..n], key)
    || (input.key == key && input.validationStatus == "REJECTED" && RecordOf(Run(cfg, inputs[..n]), key).Some?)
  }

  /** Over every run a known key is closed exactly if an input rejected it while it was known. */
  lemma {:induction false} ClosedIffRejected(cfg: Config, inputs: Inputs, key: Key)
    requires DatesAreDigits(cfg)
    ensures var s := Run(cfg, inputs);
            && (key in s.closed <==> EverRejected(cfg, inputs, key))
            && (EverRejected(cfg, inputs, key) ==> RecordOf(s, key).Some?)
  {
    hide Inv, After, Opened, Updated, HasLevelOf, RecordOf, Filed, IdFor;
    RunInv(cfg, inputs);
    FiledInRun(cfg, Run(cfg, inputs));
    KnownHasRecord(Run(cfg, inputs), key);
    if inputs == [] {
      NothingKnown(key);
    } else {
      var n := |inputs| - 1;
      var s := Run(cfg, inputs[..n]);
      var (input, at) := inputs[n];
      ClosedIffRejected(cfg, inputs[..n], key);
      RunInv(cfg, inputs[..n]);
      FiledInRun(cfg, s);
      KnownHasRecord(s, key);
      RecordStep(cfg, s, input, at, key);
      OpenedOpen(NextId(cfg, s, key.symbol, at), input, at);
      if RecordOf(s, key).Some? {
        UpdatedHasLevel(RecordOf(s, key).value, input, at);
      }
    }
  }

  lemma OpenedOpen(id: string, input: Input, at: Instant)
    ensures Opened(id, input, at).recommendation.status != Closed
  {
  }

  lemma FiledInRun(cfg: Config, s: State)
    requires Inv(cfg, s)
    ensures Filed(s)
    ensures forall key :: key in s.closed ==> IdFor(s, key).Some?
  {
    hide Indexed, Recorded;
  }

  // What the timeline counts.

  function EventCount(timeline: seq<Entry>, event: Event): nat {
    if timeline == [] then 0
    else EventCount(timeline[..|timeline| - 1], event) + if timeline[|timeline| - 1].event == event then 1 else 0
  }

  lemma {:induction false} EventCountConcat(a: seq<Entry>, b: seq<Entry>, event: Event)
    ensures EventCount(a + b, event) == EventCount(a, event) + EventCount(b, event)
  {
    if b == [] {
      assert a + b == a;
    } else {
      var n := |b| - 1;
      assert (a + b)[..|a + b| - 1] == a + b[..n];
      EventCountConcat(a, b[..n], event);
    }
  }

  /** What an input does to an open recommendation whose last input was `last`. */
  predicate Causes(last: Input, input: Input, event: Event) {
    match event
    case RecommendationCreated => false
    case ConfidenceIncreased => input.validationStatus != "REJECTED" && input.confidence > last.confidence
    case ConfidenceDecreased => input.validationStatus != "REJECTED" && input.confidence < last.confidence
    case ExitSuggested =>
      input.validationStatus != "REJECTED" && input.level == "AVOID" && last.level != "AVOID"
    case StatusChanged =>
      && input.validationStatus != "REJECTED" && input.level != "AVOID"
      && (if input.level == "STRONG_BUY" || input.level == "BUY" then last.level !in {"STRONG_BUY", "BUY"}
          else last.level in {"STRONG_BUY", "BUY", "AVOID"})
    case ClosedByRejection => input.validationStatus == "REJECTED"
  }

  /** After the closing only the confidence still moves. */
  predicate CausesClosed(taken: Input, input: Input, event: Event) {
    && input.validationStatus != "REJECTED"
    && ((event == ConfidenceIncreased && input.confidence > taken.confidence)
        || (event == ConfidenceDecreased && input.confidence < taken.confidence))
  }

  /** The entries of an event that the inputs about a key have caused. */
  ghost function CausedCount(cfg: Config, inputs: Inputs, key: Key, event: Event): nat {
    if inputs == [] then 0
    else
      var n, input := |inputs| - 1, inputs[|inputs| - 1].0;
      var before, after := RecordOf(Run(cfg, inputs[..n]), key), RecordOf(Run(cfg, inputs), key);
      var last, taken := LastInput(inputs[..n], key), LastTaken(inputs[..n], key);
      CausedCount(cfg, inputs[..n], key, event) +
      if input.key != key then 0
      else if before.None? then
        if after.Some? && (event == RecommendationCreated || event == StatusChanged) then 1 else 0
      else if last.None? || taken.None? then 0
      else if before.value.recommendation.status != Closed then if Causes(last.value, input, event) then 1 else 0
      else if CausesClosed(taken.value, input, event) then 1 else 0
  }

  lemma OpenedCounts(id: string, input: Input, at: Instant, event: Event)
    ensures EventCount(Opened(id, input, at).timeline, event)
            == if event == RecommendationCreated || event == StatusChanged then 1 else 0
  {
    var timeline := Opened(id, input, at).timeline;
    assert timeline == timeline[..1] + [timeline[1]];
    EventCountConcat(timeline[..1], [timeline[1]], event);
  }

  lemma ConfidenceCounts(rec: Recommendation, input: Input, at: Instant, event: Event)
    ensures EventCount(ConfidenceEntries(rec, input, at), event)
            == if || (event == ConfidenceIncreased && input.confidence > rec.confidence)
                  || (event == ConfidenceDecreased && input.confidence < rec.confidence) then 1 else 0
  {
  }

  lemma StatusCounts(rec: Recommendation, last: Input, input: Input, at: Instant, event: Event)
    requires rec.status != Closed ==> HasLevelOf(rec, last)
    ensures EventCount(StatusEntries(rec, MapLevel(input.level), at), event)
            == if && rec.status != Closed && (event == ExitSuggested || event == StatusChanged)
                  && Causes(last, input.(validationStatus := "VALID"), event) then 1 else 0
  {
  }

  lemma UpdatedCounts(r: Record, last: Input, taken: Input, input: Input, at: Instant, event: Event)
    requires r.recommendation.status != Closed ==> last == taken && HasLevelOf(r.recommendation, last)
    requires r.recommendation.confidence == taken.confidence
    ensures EventCount(Updated(r, input, at).timeline, event) == EventCount(r.timeline, event) +
              if r.recommendation.status != Closed then if Causes(last, input, event) then 1 else 0
              else if CausesClosed(taken, input, event) then 1 else 0
  {
    hide HasLevelOf, ConfidenceEntries, StatusEntries, MapLevel;
    var rec := r.recommendation;
    if input.validationStatus != "REJECTED" {
      var c, t := ConfidenceEntries(rec, input, at), StatusEntries(rec, MapLevel(input.level), at);
      EventCountConcat(r.timeline + c, t, event);
      EventCountConcat(r.timeline, c, event);
      ConfidenceCounts(rec, input, at, event);
      StatusCounts(rec, last, input, at, event);
    }
  }

  /**
    Over every run the timeline of a known key holds exactly one entry for each thing its inputs
    did: two when it was opened, one for each confidence that rose or fell, one for each turn to
    "AVOID" while it was open, one for each other change of level class, one when it was rejected.
   */
  lemma {:induction false} TimelineCounts(cfg: Config, inputs: Inputs, key: Key, event: Event)
    requires DatesAreDigits(cfg)
    ensures var r := RecordOf(Run(cfg, inputs), key);
            CausedCount(cfg, inputs, key, event) == if r.None? then 0 else EventCount(r.value.timeline, event)
  {
    hide Inv, After, Opened, Updated, HasLevelOf, RecordOf, Causes, CausesClosed;
    if inputs == [] {
      NothingKnown(key);
    } else {
      var n := |inputs| - 1;
      var s := Run(cfg, inputs[..n]);
      var (input, at) := inputs[n];
      TimelineCounts(cfg, inputs[..n], key, event);
      LevelDecides(cfg, inputs[..n], key);
      RunInv(cfg, inputs[..n]);
      RecordStep(cfg, s, input, at, key);
      OpenedCounts(NextId(cfg, s, key.symbol, at), input, at, event);
      if RecordOf(s, key).Some? {
        UpdatedCounts(RecordOf(s, key).value, LastInput(inputs[..n], key).value, LastTaken(inputs[..n], key).value,
                      input, at, event);
      }
    }
  }

  // What the timeline says.

  /** The words of an entry, by its event. */
  ghost predicate Says(e: Entry) {
    match e.event
    case RecommendationCreated => true
    case ConfidenceIncreased => e.reason == "validated recommendation confidence increased"
    case ConfidenceDecreased => e.reason == "validated recommendation confidence decreased"
    case ExitSuggested => e.reason == "validated recommendation suggests exit"
    case StatusChanged =>
      if e.previousValue == StatusIs(Created) then e.reason == "initial activation from validated recommendation"
      else e.reason == "validated recommendation status changed"
    case ClosedByRejection => true
  }

  ghost predicate AllSay(timeline: seq<Entry>) {
    forall e :: e in timeline ==> Says(e)
  }

  lemma OpenedSays(id: string, input: Input, at: Instant)
    ensures AllSay(Opened(id, input, at).timeline)
  {
  }

  lemma UpdatedSays(r: Record, input: Input, at: Instant)
    requires AllSay(r.timeline) && r.recommendation.status != Created
    ensures AllSay(Updated(r, input, at).timeline)
  {
    hide MapLevel, RejectionReason;
  }

  lemma {:induction false} TimelineSays(cfg: Config, inputs: Inputs, key: Key)
    requires DatesAreDigits(cfg)
    ensures var r := RecordOf(Run(cfg, inputs), key);
            r.Some? ==> AllSay(r.value.timeline)
  {
    hide Inv, After, Opened, Updated, RecordOf, AllSay;
    if inputs == [] {
      NothingKnown(key);
    } else {
      var n := |inputs| - 1;
      var s := Run(cfg, inputs[..n]);
      var (input, at) := inputs[n];
      TimelineSays(cfg, inputs[..n], key);
      RunInv(cfg, inputs[..n]);
      RecordStep(cfg, s, input, at, key);
      OpenedSays(NextId(cfg, s, key.symbol, at), input, at);
      if RecordOf(s, key).Some? {
        NotCreated(cfg, s, key);
        UpdatedSays(RecordOf(s, key).value, input, at);
      }
    }
  }

  lemma NotCreated(cfg: Config, s: State, key: Key)
    requires Inv(cfg, s) && RecordOf(s, key).Some?
    ensures RecordOf(s, key).value.recommendation.status != Created
  {
    hide Indexed, Filed;
  }

  lemma LevelWords()
    ensures LowerCase("STRONG_BUY") == "strong_buy"
    ensures LowerCase("BUY") == "buy"
    ensures LowerCase("WATCH") == "watch"
    ensures LowerCase("AVOID") == "avoid"
  {
  }

  /** The creation entry names the level in lower case. */
  lemma CreationWords(id: string, input: Input, at: Instant)
    ensures var reason := Opened(id, input, at).timeline[0].reason;
            && (input.level == "STRONG_BUY" ==> reason == "validated " + "strong_buy" + " recommendation")
            && (input.level == "BUY" ==> reason == "validated " + "buy" + " recommendation")
            && (input.level == "WATCH" ==> reason == "validated " + "watch" + " recommendation")
            && (input.level == "AVOID" ==> reason == "validated " + "avoid" + " recommendation")
  {
    hide LowerCase, MapLevel;
    LevelWords();
  }

  /** The closing entry lists the reasons of the rejection, if it has any. */
  lemma ClosingWords(r: Record, input: Input, at: Instant)
    requires r.recommendation.status != Closed && input.validationStatus == "REJECTED"
    ensures var u, reasons := Updated(r, input, at), input.rejectionReasons;
            var reason := u.timeline[|u.timeline| - 1].reason;
            && (|reasons| == 0 ==> reason == "validation rejected")
            && (|reasons| == 1 ==> reason == reasons[0])
            && (|reasons| > 1 ==>
                  var shorter := Updated(r, input.(rejectionReasons := reasons[..|reasons| - 1]), at);
                  reason == shorter.timeline[|shorter.timeline| - 1].reason + "; " + reasons[|reasons| - 1])
  {
  }

  /** A cache made without a capacity of its own holds ten thousand open recommendations at most. */
  lemma DefaultBounds(maxActive: int, dateText: Instant -> string, inputs: Inputs)
    requires forall t :: RecordIds.IsDigits(dateText(t))
    ensures var s := Run(NewConfig(maxActive, dateText), inputs);
            && |s.active| <= (if maxActive < 1 then 10000 else maxActive)
            && s.history == Tail(ReportedAll(NewConfig(maxActive, dateText), inputs), 10000)
  {
    hide Filed, Indexed, Recorded, After;
    RunInv(NewConfig(maxActive, dateText), inputs);
    HistoryIsTail(NewConfig(maxActive, dateText), inputs);
  }

  // What the identifiers count.

  /** The recommendations created so far on one date for one symbol. */
  ghost function CreatedCount(cfg: Config, inputs: Inputs, date: string, symbol: string): nat {
    if inputs == [] then 0
    else
      var n := |inputs| - 1;
      var (input, at) := inputs[n];
      CreatedCount(cfg, inputs[..n], date, symbol) +
      if && cfg.dateText(at) == date && input.key.symbol == symbol
         && IdFor(Run(cfg, inputs[..n]), input.key) == None
         && IdFor(Run(cfg, inputs), input.key).Some? then 1
      else 0
  }

  lemma CounterStep(cfg: Config, s: State, input: Input, at: Instant, date: string, symbol: string)
    requires DatesAreDigits(cfg) && RecordIds.IsDigits(date)
    ensures var t, key := After(cfg, s, input, at), RecordIds.CounterKey(date, symbol);
            RecordIds.Count(t.counters, key) == RecordIds.Count(s.counters, key) +
              if && cfg.dateText(at) == date && input.key.symbol == symbol
                 && IdFor(s, input.key) == None && IdFor(t, input.key).Some? then 1
              else 0
  {
    hide RecordIds.CounterKey, RecordIds.IdText, Opened, Updated, Remembered;
    if RecordIds.CounterKey(cfg.dateText(at), input.key.symbol) == RecordIds.CounterKey(date, symbol) {
      assert RecordIds.IsDigits(cfg.dateText(at));
      RecordIds.CountersDiffer(cfg.dateText(at), input.key.symbol, date, symbol);
    }
  }

  /** Over every run the counter of a date and symbol is the number of recommendations created there. */
  lemma {:induction false} CountersCount(cfg: Config, inputs: Inputs, date: string, symbol: string)
    requires DatesAreDigits(cfg) && RecordIds.IsDigits(date)
    ensures RecordIds.Count(Run(cfg, inputs).counters, RecordIds.CounterKey(date, symbol))
            == CreatedCount(cfg, inputs, date, symbol)
  {
    hide After, IdFor, RecordIds.CounterKey;
    if inputs != [] {
      var n := |inputs| - 1;
      CountersCount(cfg, inputs[..n], date, symbol);
      CounterStep(cfg, Run(cfg, inputs[..n]), inputs[n].0, inputs[n].1, date, symbol);
    }
  }

  lemma NewId(cfg: Config, s: State, input: Input, at: Instant)
    requires IdFor(s, input.key) == None && IdFor(After(cfg, s, input, at), input.key).Some?
    ensures IdFor(After(cfg, s, input, at), input.key) == Some(NextId(cfg, s, input.key.symbol, at))
  {
    hide Create, NextId;
    CreateParts(cfg, s, input, at);
  }

  /** A new recommendation gets the next number of its date and symbol, from one on. */
  lemma NewIdNumbers(cfg: Config, inputs: Inputs, input: Input, at: Instant)
    requires DatesAreDigits(cfg)
    requires IdFor(Run(cfg, inputs), input.key) == None && IdFor(Run(cfg, inputs + [(input, at)]), input.key).Some?
    ensures var date, symbol := cfg.dateText(at), input.key.symbol;
            IdFor(Run(cfg, inputs + [(input, at)]), input.key)
            == Some(RecordIds.IdText(date, symbol, CreatedCount(cfg, inputs, date, symbol) + 1))
  {
    hide RecordIds.CounterKey, RecordIds.IdText, After, IdFor, CreatedCount;
    assert (inputs + [(input, at)])[..|inputs|] == inputs;
    assert RecordIds.IsDigits(cfg.dateText(at));
    NewId(cfg, Run(cfg, inputs), input, at);
    CountersCount(cfg, inputs, cfg.dateText(at), input.key.symbol);
  }

  /**
    What a call returns: the recommendation of its key as it now stands and the newest entry of its
    timeline, whether the key was known before, or nothing when the key is still unknown.
   */
  lemma OutcomeReads(cfg: Config, s: State, input: Input, at: Instant)
    requires DatesAreDigits(cfg) && Inv(cfg, s)
    ensures var t, o := After(cfg, s, input, at), LifecycleCache.OutcomeOf(cfg, s, input, at);
            var before, after := RecordOf(s, input.key), RecordOf(t, input.key);
            && (o.changed <==> after.Some?)
            && (o.changed ==>
                  && o.rec == Some(after.value.recommendation)
                  && after.value.timeline != []
                  && o.latest == Some(after.value.timeline[|after.value.timeline| - 1])
                  && (o.merged <==> before.Some?))
            && (!o.changed ==> o.rec == None && o.latest == None && !o.merged && t == s)
  {
    hide Filed, Recorded, Indexed, Create, Merge, Updated, Opened, NextId, Faithful;
    RecordStep(cfg, s, input, at, input.key);
    KnownHasRecord(s, input.key);
    CreatedHasEntries(NextId(cfg, s, input.key.symbol, at), input, at);
    if RecordOf(s, input.key).Some? {
      StoredHasEntries(cfg, s, IdFor(s, input.key).value);
      UpdatedExtends(RecordOf(s, input.key).value, input, at);
    }
  }

  lemma CreatedHasEntries(id: string, input: Input, at: Instant)
    ensures Opened(id, input, at).timeline != []
  {
  }

  lemma StoredHasEntries(cfg: Config, s: State, id: string)
    requires Inv(cfg, s) && id in s.byId
    ensures s.byId[id].timeline != []
  {
    hide Indexed, Filed;
  }
}
