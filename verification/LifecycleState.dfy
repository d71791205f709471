/**
  The recommendation cache as a value, its invariant, and what holds over every run of inputs.
 */
module LifecycleState {
  import opened Common
  import opened Lifecycle
  import opened RecordIds

  datatype State = State(
    active: map<Key, string>,
    closed: map<Key, string>,
    byId: map<string, Record>,
    bySymbol: Index,
    byStrategy: Index,
    counters: Counters,
    history: seq<Recommendation>
  )

  const EMPTY := State(map[], map[], map[], map[], map[], map[], [])

  datatype Config = Config(maxActive: nat, maxHistory: nat, dateText: Instant -> string)

  const DEFAULT_MAX_ACTIVE := 10000
  const DEFAULT_MAX_HISTORY := 10000

  function NewConfig(maxActive: int, dateText: Instant -> string): Config {
    Config(if maxActive < 1 then DEFAULT_MAX_ACTIVE else maxActive, DEFAULT_MAX_HISTORY, dateText)
  }

  /** The text of a date is made of digits only. */
  ghost predicate DatesAreDigits(cfg: Config) {
    forall t :: IsDigits(cfg.dateText(t))
  }

  function IdFor(s: State, key: Key): Option<string> {
    if key in s.active then Some(s.active[key])
    else if key in s.closed then Some(s.closed[key])
    else None
  }

  /** What a call returns: whether it changed anything, and whether it met a known key. */
  datatype Outcome = Outcome(rec: Option<Recommendation>, latest: Option<Entry>, merged: bool, changed: bool)

  const UNCHANGED := Outcome(None, None, false, false)

  function Remembered(cfg: Config, history: seq<Recommendation>, rec: Recommendation): seq<Recommendation> {
    Tail(history + [rec], cfg.maxHistory)
  }

  function Create(cfg: Config, s: State, input: Input, at: Instant): State {
    var date := cfg.dateText(at);
    var counter := CounterKey(date, input.key.symbol);
    var seqNo := Count(s.counters, counter) + 1;
    var id := IdText(date, input.key.symbol, seqNo);
    var r := Opened(id, input, at);
    State(s.active[input.key := id],
          s.closed,
          s.byId[id := r],
          s.bySymbol[input.key.symbol := Held(s.bySymbol, input.key.symbol) + {id}],
          s.byStrategy[input.key.strategy := Held(s.byStrategy, input.key.strategy) + {id}],
          s.counters[counter := seqNo],
          Remembered(cfg, s.history, r.recommendation))
  }

  /** Where the key of an updated recommendation belongs; the second arm reactivates. */
  function Moved(s: State, key: Key, id: string, wasClosed: bool, status: Status): State {
    if status == Closed then s.(active := s.active - {key}, closed := s.closed[key := id])
    else if wasClosed then s.(closed := s.closed - {key}, active := s.active[key := id])
    else s
  }

  function Merge(cfg: Config, s: State, id: string, input: Input, at: Instant): State
    requires id in s.byId
  {
    var r := Updated(s.byId[id], input, at);
    Moved(s.(byId := s.byId[id := r]), input.key, id, s.byId[id].recommendation.status == Closed,
          r.recommendation.status)
      .(history := Remembered(cfg, s.history, r.recommendation))
  }

  function After(cfg: Config, s: State, input: Input, at: Instant): State {
    match IdFor(s, input.key)
    case None =>
      if input.validationStatus != "VALID" || |s.active| >= cfg.maxActive then s
      else Create(cfg, s, input, at)
    case Some(id) =>
      if id in s.byId then Merge(cfg, s, id, input, at) else s
  }

  /** The key of a stored recommendation is filed where its status says, under its id. */
  ghost predicate Placed(s: State, id: string)
    requires id in s.byId
  {
    var rec := s.byId[id].recommendation;
    && rec.id == id
    && (rec.status == Closed ==> rec.key in s.closed && s.closed[rec.key] == id)
    && (rec.status != Closed ==> rec.key in s.active && s.active[rec.key] == id)
  }

  /** The id was handed out by the counter of its creation date and symbol. */
  ghost predicate Issued(cfg: Config, s: State, r: Record) {
    var date, symbol := cfg.dateText(r.recommendation.createdAt), r.recommendation.key.symbol;
    exists n: nat ::
      0 < n <= Count(s.counters, CounterKey(date, symbol))
      && r.recommendation.id == IdText(date, symbol, n)
  }

  ghost predicate ActiveFiled(s: State) {
    forall key :: key in s.active ==>
                    && s.active[key] in s.byId
                    && s.byId[s.active[key]].recommendation.key == key
                    && s.byId[s.active[key]].recommendation.status != Closed
  }

  ghost predicate ClosedFiled(s: State) {
    forall key :: key in s.closed ==>
                    && s.closed[key] in s.byId
                    && s.byId[s.closed[key]].recommendation.key == key
                    && s.byId[s.closed[key]].recommendation.status == Closed
  }

  ghost predicate AllPlaced(s: State) {
    forall id :: id in s.byId ==> Placed(s, id)
  }

  /** Keys and stored recommendations match one to one, each key on one side only. */
  ghost predicate Filed(s: State) {
    && ActiveFiled(s)
    && ClosedFiled(s)
    && AllPlaced(s)
    && forall key :: key in s.active ==> key !in s.closed
  }

  ghost predicate Indexed(s: State) {
    && (forall symbol, id :: id in Held(s.bySymbol, symbol) <==>
                               id in s.byId && s.byId[id].recommendation.key.symbol == symbol)
    && (forall strategy, id :: id in Held(s.byStrategy, strategy) <==>
                                 id in s.byId && s.byId[id].recommendation.key.strategy == strategy)
  }

  ghost predicate Recorded(cfg: Config, s: State) {
    forall id :: id in s.byId ==> Faithful(s.byId[id]) && Issued(cfg, s, s.byId[id])
  }

  /** What holds in every reachable state. */
  ghost predicate Inv(cfg: Config, s: State) {
    && Filed(s)
    && Indexed(s)
    && Recorded(cfg, s)
    && |s.active| <= cfg.maxActive
    && |s.history| <= cfg.maxHistory
  }

  lemma EmptyInv(cfg: Config)
    ensures Inv(cfg, EMPTY)
  {
    hide Faithful, Issued;
    assert Filed(EMPTY) by {
      hide Indexed;
    }
    assert Indexed(EMPTY);
  }

  function NextId(cfg: Config, s: State, symbol: string, at: Instant): string {
    var date := cfg.dateText(at);
    IdText(date, symbol, Count(s.counters, CounterKey(date, symbol)) + 1)
  }

  /** A new id is new. */
  lemma NextIdIsNew(cfg: Config, s: State, symbol: string, at: Instant)
    requires DatesAreDigits(cfg) && Recorded(cfg, s)
    requires forall id :: id in s.byId ==> s.byId[id].recommendation.id == id
    ensures NextId(cfg, s, symbol, at) !in s.byId
  {
    var id, date := NextId(cfg, s, symbol, at), cfg.dateText(at);
    if id in s.byId {
      var rec := s.byId[id].recommendation;
      var date1 := cfg.dateText(rec.createdAt);
      assert Issued(cfg, s, s.byId[id]);
      var n: nat :| 0 < n <= Count(s.counters, CounterKey(date1, rec.key.symbol))
                    && rec.id == IdText(date1, rec.key.symbol, n);
      assert IsDigits(date) && IsDigits(date1);
      IdsDiffer(date, symbol, Count(s.counters, CounterKey(date, symbol)) + 1,
                date1, rec.key.symbol, n);
    }
  }

  lemma CreateFiled(cfg: Config, s: State, input: Input, at: Instant)
    requires Filed(s) && IdFor(s, input.key) == None
    requires NextId(cfg, s, input.key.symbol, at) !in s.byId
    ensures Filed(Create(cfg, s, input, at))
  {
    hide Opened, CounterKey, IdText, Held, Remembered, Count, Filed;
    var t, id := Create(cfg, s, input, at), NextId(cfg, s, input.key.symbol, at);
    OpenedFields(id, input, at);
    FiledGrows(s, t, input.key, id, Opened(id, input, at));
  }

  /** An open recommendation under a new id and a new key is filed as active. */
  lemma FiledGrows(s: State, t: State, key: Key, id: string, r: Record)
    requires Filed(s) && key !in s.active && key !in s.closed && id !in s.byId
    requires r.recommendation.id == id && r.recommendation.key == key && r.recommendation.status != Closed
    requires t.active == s.active[key := id] && t.closed == s.closed && t.byId == s.byId[id := r]
    ensures Filed(t)
  {
    forall i | i in t.byId
      ensures Placed(t, i)
    {
      if i != id {
        assert Placed(s, i);
      }
    }
  }

  lemma CreateRecorded(cfg: Config, s: State, input: Input, at: Instant)
    requires Recorded(cfg, s) && NextId(cfg, s, input.key.symbol, at) !in s.byId
    ensures Recorded(cfg, Create(cfg, s, input, at))
  {
    hide Faithful, Opened, IdText, CounterKey;
    var t, id := Create(cfg, s, input, at), NextId(cfg, s, input.key.symbol, at);
    OpenedFaithful(id, input, at);
    OpenedFields(id, input, at);
    forall i | i in t.byId
      ensures Faithful(t.byId[i]) && Issued(cfg, t, t.byId[i])
    {
      if i == id {
        var n := Count(t.counters, CounterKey(cfg.dateText(at), input.key.symbol));
        assert id == IdText(cfg.dateText(at), input.key.symbol, n);
      } else {
        IssuedStays(cfg, s, t, s.byId[i]);
      }
    }
  }

  lemma OpenedFields(id: string, input: Input, at: Instant)
    ensures var rec := Opened(id, input, at).recommendation;
            rec.id == id && rec.key == input.key && rec.createdAt == at && rec.status != Closed
  {
  }

  lemma IssuedStays(cfg: Config, s: State, t: State, r: Record)
    requires Issued(cfg, s, r)
    requires forall key :: Count(s.counters, key) <= Count(t.counters, key)
    ensures Issued(cfg, t, r)
  {
  }

  lemma CreateIndexed(cfg: Config, s: State, input: Input, at: Instant)
    requires Indexed(s) && NextId(cfg, s, input.key.symbol, at) !in s.byId
    ensures Indexed(Create(cfg, s, input, at))
  {
    var id, t := NextId(cfg, s, input.key.symbol, at), Create(cfg, s, input, at);
    OpenedFields(id, input, at);
    CreateMaps(cfg, s, input, at);
    hide Opened, IdText, CounterKey, Remembered, Create, NextId;
    forall x, i
      ensures i in Held(t.bySymbol, x) <==> i in t.byId && t.byId[i].recommendation.key.symbol == x
    {
      assert i in Held(s.bySymbol, x) <==> i in s.byId && s.byId[i].recommendation.key.symbol == x;
    }
    forall x, i
      ensures i in Held(t.byStrategy, x) <==> i in t.byId && t.byId[i].recommendation.key.strategy == x
    {
      assert i in Held(s.byStrategy, x) <==> i in s.byId && s.byId[i].recommendation.key.strategy == x;
    }
  }

  lemma CreateMaps(cfg: Config, s: State, input: Input, at: Instant)
    ensures var t, id := Create(cfg, s, input, at), NextId(cfg, s, input.key.symbol, at);
            && t.byId == s.byId[id := Opened(id, input, at)]
            && t.bySymbol == s.bySymbol[input.key.symbol := Held(s.bySymbol, input.key.symbol) + {id}]
            && t.byStrategy == s.byStrategy[input.key.strategy := Held(s.byStrategy, input.key.strategy) + {id}]
  {
  }

  lemma CreateKeeps(cfg: Config, s: State, input: Input, at: Instant)
    requires DatesAreDigits(cfg) && Inv(cfg, s)
    requires IdFor(s, input.key) == None && |s.active| < cfg.maxActive
    ensures Inv(cfg, Create(cfg, s, input, at))
  {
    hide Filed, Indexed, Recorded, Create, NextId;
    assert forall id :: id in s.byId ==> s.byId[id].recommendation.id == id by {
      IdsMatch(s);
    }
    NextIdIsNew(cfg, s, input.key.symbol, at);
    CreateFiled(cfg, s, input, at);
    CreateIndexed(cfg, s, input, at);
    CreateRecorded(cfg, s, input, at);
    CreateSizes(cfg, s, input, at);
  }

  lemma CreateSizes(cfg: Config, s: State, input: Input, at: Instant)
    requires input.key !in s.active
    ensures var t := Create(cfg, s, input, at);
            && t.active.Keys == s.active.Keys + {input.key}
            && |t.active| == |s.active| + 1
            && t.closed == s.closed
            && |t.history| <= cfg.maxHistory
  {
    hide Create, Remembered, NextId;
    CreateParts(cfg, s, input, at);
    MapGrows(s.active, input.key, NextId(cfg, s, input.key.symbol, at));
    RememberedSize(cfg, s.history, Opened(NextId(cfg, s, input.key.symbol, at), input, at).recommendation);
  }

  lemma CreateParts(cfg: Config, s: State, input: Input, at: Instant)
    ensures var t, id := Create(cfg, s, input, at), NextId(cfg, s, input.key.symbol, at);
            && t.active == s.active[input.key := id]
            && t.closed == s.closed
            && t.history == Remembered(cfg, s.history, Opened(id, input, at).recommendation)
  {
  }

  lemma MapGrows(m: map<Key, string>, k: Key, id: string)
    requires k !in m
    ensures m[k := id].Keys == m.Keys + {k}
    ensures |m[k := id]| == |m| + 1
  {
  }

  lemma RememberedSize(cfg: Config, history: seq<Recommendation>, rec: Recommendation)
    ensures |Remembered(cfg, history, rec)| <= cfg.maxHistory
  {
  }

  lemma IdsMatch(s: State)
    requires Filed(s)
    ensures forall id :: id in s.byId ==> s.byId[id].recommendation.id == id
  {
  }

  /** A known key always leads to a stored recommendation with that key. */
  lemma KnownIsStored(s: State, key: Key)
    requires Filed(s) && IdFor(s, key).Some?
    ensures IdFor(s, key).value in s.byId
    ensures s.byId[IdFor(s, key).value].recommendation.key == key
    ensures key in s.closed <==> s.byId[IdFor(s, key).value].recommendation.status == Closed
  {
  }

  /**
    The reactivation arm is never taken: a recommendation that was closed is still closed
    after any update.
   */
  lemma ReactivationUnreachable(s: State, id: string, input: Input, at: Instant)
    requires id in s.byId
    ensures !(s.byId[id].recommendation.status == Closed
              && Updated(s.byId[id], input, at).recommendation.status != Closed)
  {
  }

  /**
    Were it taken, it would add an active key without looking at the capacity: from a full
    cache it would break the bound.
   */
  lemma ReactivationWouldOverflow(cfg: Config, s: State, key: Key, status: Status)
    requires Filed(s) && key in s.closed && status != Closed
    ensures |Moved(s, key, s.closed[key], true, status).active| == |s.active| + 1
    ensures |s.active| == cfg.maxActive ==>
              |Moved(s, key, s.closed[key], true, status).active| > cfg.maxActive
  {
  }

  /** No other key leads to the stored recommendation of this one. */
  lemma OneKeyPerId(s: State, key: Key, id: string)
    requires Filed(s) && id in s.byId && IdFor(s, key) == Some(id)
    ensures forall k :: k in s.active && k != key ==> s.active[k] != id
    ensures forall k :: k in s.closed && k != key ==> s.closed[k] != id
  {
  }

  /** The record of a known key changes, and the key moves to the closed side if it says so. */
  ghost predicate Changed(s: State, t: State, key: Key, id: string, r: Record) {
    && id in s.byId && IdFor(s, key) == Some(id)
    && r.recommendation.id == id && r.recommendation.key == key
    && t.byId == s.byId[id := r]
    && if r.recommendation.status == Closed then
         t.active == s.active - {key} && t.closed == s.closed[key := id]
       else
         t.active == s.active && t.closed == s.closed && s.byId[id].recommendation.status != Closed
  }

  lemma ChangedActive(s: State, t: State, key: Key, id: string, r: Record)
    requires Filed(s) && Changed(s, t, key, id, r)
    ensures ActiveFiled(t)
  {
    OneKeyPerId(s, key, id);
    hide AllPlaced, ClosedFiled;
  }

  lemma ChangedClosed(s: State, t: State, key: Key, id: string, r: Record)
    requires Filed(s) && Changed(s, t, key, id, r)
    ensures ClosedFiled(t)
  {
  }

  lemma ChangedPlaced(s: State, t: State, key: Key, id: string, r: Record)
    requires Filed(s) && Changed(s, t, key, id, r)
    ensures AllPlaced(t)
  {
  }

  lemma ChangedFiled(s: State, t: State, key: Key, id: string, r: Record)
    requires Filed(s) && Changed(s, t, key, id, r)
    ensures Filed(t) && t.active.Keys <= s.active.Keys
  {
    hide ActiveFiled, ClosedFiled, AllPlaced;
    ChangedActive(s, t, key, id, r);
    ChangedClosed(s, t, key, id, r);
    ChangedPlaced(s, t, key, id, r);
  }

  lemma MoveFiled(s: State, key: Key, id: string, r: Record)
    requires Filed(s) && id in s.byId && IdFor(s, key) == Some(id)
    requires r.recommendation.id == id && r.recommendation.key == key
    requires s.byId[id].recommendation.status == Closed ==> r.recommendation.status == Closed
    ensures var t := Moved(s.(byId := s.byId[id := r]), key, id,
                           s.byId[id].recommendation.status == Closed, r.recommendation.status);
            Filed(t) && t.active.Keys <= s.active.Keys
  {
    hide Filed, IdFor;
    var t := Moved(s.(byId := s.byId[id := r]), key, id,
                   s.byId[id].recommendation.status == Closed, r.recommendation.status);
    ChangedFiled(s, t, key, id, r);
  }

  lemma MergeFiled(cfg: Config, s: State, id: string, input: Input, at: Instant)
    requires Filed(s) && IdFor(s, input.key) == Some(id) && id in s.byId
    ensures Filed(Merge(cfg, s, id, input, at))
    ensures |Merge(cfg, s, id, input, at).active| <= |s.active|
  {
    hide Filed, Updated, Remembered, Moved, IdFor;
    var r := Updated(s.byId[id], input, at);
    UpdatedExtends(s.byId[id], input, at);
    IdsMatch(s);
    KnownIsStored(s, input.key);
    MoveFiled(s, input.key, id, r);
    var t := Moved(s.(byId := s.byId[id := r]), input.key, id,
                   s.byId[id].recommendation.status == Closed, r.recommendation.status);
    FiledIgnoresHistory(t, Remembered(cfg, s.history, r.recommendation));
    SubsetSmaller(t.active.Keys, s.active.Keys);
  }

  lemma FiledIgnoresHistory(s: State, history: seq<Recommendation>)
    requires Filed(s)
    ensures Filed(s.(history := history))
  {
  }

  lemma {:induction false} SubsetSmaller<T>(a: set<T>, b: set<T>)
    requires a <= b
    ensures |a| <= |b|
  {
    assert b == a + (b - a);
  }

  lemma MergeIndexed(cfg: Config, s: State, id: string, input: Input, at: Instant)
    requires Indexed(s) && id in s.byId
    ensures Indexed(Merge(cfg, s, id, input, at))
  {
    hide Updated, Remembered;
    var t := Merge(cfg, s, id, input, at);
    UpdatedExtends(s.byId[id], input, at);
    SameKeysIndexed(s, t);
  }

  lemma SameKeysIndexed(s: State, t: State)
    requires Indexed(s) && t.bySymbol == s.bySymbol && t.byStrategy == s.byStrategy
    requires t.byId.Keys == s.byId.Keys
    requires forall id :: id in s.byId ==> t.byId[id].recommendation.key == s.byId[id].recommendation.key
    ensures Indexed(t)
  {
  }

  lemma MergeRecorded(cfg: Config, s: State, id: string, input: Input, at: Instant)
    requires Recorded(cfg, s) && id in s.byId
    ensures Recorded(cfg, Merge(cfg, s, id, input, at))
  {
    hide Faithful, Updated, Remembered, Issued;
    var t := Merge(cfg, s, id, input, at);
    forall i | i in t.byId
      ensures Faithful(t.byId[i]) && Issued(cfg, t, t.byId[i])
    {
      if i == id {
        UpdatedFaithful(s.byId[id], input, at);
        UpdatedExtends(s.byId[id], input, at);
        SameIssue(cfg, s, s.byId[id], t.byId[id]);
      }
      IssuedStays(cfg, s, t, t.byId[i]);
    }
  }

  lemma SameIssue(cfg: Config, s: State, r: Record, r': Record)
    requires Issued(cfg, s, r) && Extends(r, r')
    ensures Issued(cfg, s, r')
  {
  }

  lemma MergeKeeps(cfg: Config, s: State, id: string, input: Input, at: Instant)
    requires Inv(cfg, s) && IdFor(s, input.key) == Some(id) && id in s.byId
    ensures Inv(cfg, Merge(cfg, s, id, input, at))
  {
    hide Filed, Indexed, Recorded;
    MergeFiled(cfg, s, id, input, at);
    MergeIndexed(cfg, s, id, input, at);
    MergeRecorded(cfg, s, id, input, at);
  }

  lemma AfterKeeps(cfg: Config, s: State, input: Input, at: Instant)
    requires DatesAreDigits(cfg) && Inv(cfg, s)
    ensures Inv(cfg, After(cfg, s, input, at))
  {
    hide Filed, Indexed, Recorded, Merge, Create;
    match IdFor(s, input.key)
    case None =>
      if input.validationStatus == "VALID" && |s.active| < cfg.maxActive {
        CreateKeeps(cfg, s, input, at);
      }
    case Some(id) =>
      KnownIsStored(s, input.key);
      MergeKeeps(cfg, s, id, input, at);
  }

  /** The state after a run of inputs. */
  function Run(cfg: Config, inputs: seq<(Input, Instant)>): State {
    if inputs == [] then EMPTY
    else
      var (input, at) := inputs[|inputs| - 1];
      After(cfg, Run(cfg, inputs[..|inputs| - 1]), input, at)
  }

  /**
    Over every run: the capacity holds, no key is both active and closed, keys and stored
    recommendations match one to one, indexes are exact and timelines are faithful.
   */
  lemma {:induction false} RunInv(cfg: Config, inputs: seq<(Input, Instant)>)
    requires DatesAreDigits(cfg)
    ensures Inv(cfg, Run(cfg, inputs))
  {
    hide Inv, After;
    if inputs == [] {
      EmptyInv(cfg);
    } else {
      var n := |inputs| - 1;
      RunInv(cfg, inputs[..n]);
      AfterKeeps(cfg, Run(cfg, inputs[..n]), inputs[n].0, inputs[n].1);
    }
  }

  /** What no later input undoes: a key keeps its id, and a stored recommendation only extends. */
  ghost predicate Continues(s: State, t: State) {
    && (forall key :: IdFor(s, key).Some? ==> IdFor(t, key) == IdFor(s, key))
    && (forall id :: id in s.byId ==> id in t.byId && Extends(s.byId[id], t.byId[id]))
  }

  lemma CreateContinues(cfg: Config, s: State, input: Input, at: Instant)
    requires IdFor(s, input.key) == None
    requires NextId(cfg, s, input.key.symbol, at) !in s.byId
    ensures Continues(s, Create(cfg, s, input, at))
  {
  }

  lemma MoveKeepsIds(s: State, key: Key, id: string, wasClosed: bool, status: Status, k: Key)
    requires IdFor(s, key) == Some(id)
    requires key in s.closed <==> wasClosed
    requires wasClosed ==> key !in s.active && status == Closed
    ensures IdFor(Moved(s, key, id, wasClosed, status), k) == IdFor(s, k)
  {
  }

  lemma MoveContinues(s: State, key: Key, id: string, r: Record)
    requires Filed(s) && id in s.byId && IdFor(s, key) == Some(id)
    requires Extends(s.byId[id], r)
    ensures Continues(s, Moved(s.(byId := s.byId[id := r]), key, id,
                               s.byId[id].recommendation.status == Closed, r.recommendation.status))
  {
    hide Extends, IdFor;
    var wasClosed, status := s.byId[id].recommendation.status == Closed, r.recommendation.status;
    var mid := s.(byId := s.byId[id := r]);
    KnownIsStored(s, key);
    ExtendsClosed(s.byId[id], r);
    assert wasClosed ==> key !in s.active;
    forall k
      ensures IdFor(mid, k) == IdFor(s, k)
      ensures IdFor(Moved(mid, key, id, wasClosed, status), k) == IdFor(s, k)
    {
      SameIds(s, mid, k);
      SameIds(s, mid, key);
      MoveKeepsIds(mid, key, id, wasClosed, status, k);
    }
    forall i | i in s.byId
      ensures Extends(s.byId[i], mid.byId[i])
    {
      SelfExtends(s.byId[i]);
    }
  }

  lemma SameIds(s: State, t: State, key: Key)
    requires s.active == t.active && s.closed == t.closed
    ensures IdFor(s, key) == IdFor(t, key)
  {
  }

  lemma ExtendsClosed(r: Record, r': Record)
    requires Extends(r, r')
    ensures r.recommendation.status == Closed ==> r'.recommendation.status == Closed
  {
  }

  lemma SelfExtends(r: Record)
    ensures Extends(r, r)
  {
  }

  lemma AfterContinues(cfg: Config, s: State, input: Input, at: Instant)
    requires DatesAreDigits(cfg) && Inv(cfg, s)
    ensures Continues(s, After(cfg, s, input, at))
  {
    hide Filed, Indexed, Recorded, Updated, Opened, Remembered, Moved, Create;
    match IdFor(s, input.key)
    case None =>
      IdsMatch(s);
      NextIdIsNew(cfg, s, input.key.symbol, at);
      if input.validationStatus == "VALID" && |s.active| < cfg.maxActive {
        CreateContinues(cfg, s, input, at);
      }
    case Some(id) =>
      KnownIsStored(s, input.key);
      UpdatedExtends(s.byId[id], input, at);
      MoveContinues(s, input.key, id, Updated(s.byId[id], input, at));
  }

  /** Each key keeps one identifier for life. */
  lemma {:induction false} KeyKeepsId(cfg: Config, inputs: seq<(Input, Instant)>, more: seq<(Input, Instant)>)
    requires DatesAreDigits(cfg)
    ensures Continues(Run(cfg, inputs), Run(cfg, inputs + more))
  {
    hide Inv, After, Extends;
    if more == [] {
      assert inputs + more == inputs;
      SelfContinues(Run(cfg, inputs));
    } else {
      var n := |more| - 1;
      var mid := Run(cfg, inputs + more[..n]);
      assert (inputs + more)[..|inputs + more| - 1] == inputs + more[..n];
      KeyKeepsId(cfg, inputs, more[..n]);
      RunInv(cfg, inputs + more[..n]);
      AfterContinues(cfg, mid, more[n].0, more[n].1);
      ContinuesOn(Run(cfg, inputs), mid, Run(cfg, inputs + more));
    }
  }

  lemma SelfContinues(s: State)
    ensures Continues(s, s)
  {
  }

  lemma ContinuesOn(s: State, t: State, u: State)
    requires Continues(s, t) && Continues(t, u)
    ensures Continues(s, u)
  {
  }

  /** Two different keys never share an identifier, in the same state or in a later one. */
  lemma KeysKeepApart(cfg: Config, inputs: seq<(Input, Instant)>, more: seq<(Input, Instant)>, a: Key, b: Key)
    requires DatesAreDigits(cfg)
    requires IdFor(Run(cfg, inputs), a).Some?
    requires IdFor(Run(cfg, inputs), a) == IdFor(Run(cfg, inputs + more), b)
    ensures a == b
  {
    hide Indexed, Recorded, After, Extends;
    RunInv(cfg, inputs);
    RunInv(cfg, inputs + more);
    KeyKeepsId(cfg, inputs, more);
    KnownIsStored(Run(cfg, inputs + more), a);
    KnownIsStored(Run(cfg, inputs + more), b);
  }

  /** The recommendation a call reports and remembers, if it changed anything. */
  function Reported(cfg: Config, s: State, input: Input, at: Instant): seq<Recommendation> {
    match IdFor(s, input.key)
    case None =>
      if input.validationStatus != "VALID" || |s.active| >= cfg.maxActive then []
      else [Opened(NextId(cfg, s, input.key.symbol, at), input, at).recommendation]
    case Some(id) =>
      if id in s.byId then [Updated(s.byId[id], input, at).recommendation] else []
  }

  function ReportedAll(cfg: Config, inputs: seq<(Input, Instant)>): seq<Recommendation> {
    if inputs == [] then []
    else
      var n := |inputs| - 1;
      ReportedAll(cfg, inputs[..n])
      + Reported(cfg, Run(cfg, inputs[..n]), inputs[n].0, inputs[n].1)
  }

  lemma TailSnoc<T>(s: seq<T>, x: T, n: nat)
    ensures Tail(Tail(s, n) + [x], n) == Tail(s + [x], n)
  {
  }

  /** The history is the latest `maxHistory` reports of the whole run, in order. */
  lemma {:induction false} HistoryIsTail(cfg: Config, inputs: seq<(Input, Instant)>)
    ensures Run(cfg, inputs).history == Tail(ReportedAll(cfg, inputs), cfg.maxHistory)
  {
    if inputs != [] {
      var n := |inputs| - 1;
      HistoryIsTail(cfg, inputs[..n]);
      var s := Run(cfg, inputs[..n]);
      var (input, at) := inputs[n];
      HistoryStep(cfg, s, input, at, ReportedAll(cfg, inputs[..n]));
    }
  }

  lemma HistoryStep(cfg: Config, s: State, input: Input, at: Instant, sofar: seq<Recommendation>)
    requires s.history == Tail(sofar, cfg.maxHistory)
    ensures After(cfg, s, input, at).history
            == Tail(sofar + Reported(cfg, s, input, at), cfg.maxHistory)
  {
    hide Updated, Opened, IdText, CounterKey, Moved, Held, Count;
    var news := Reported(cfg, s, input, at);
    if news == [] {
      assert sofar + news == sofar;
    } else {
      TailSnoc(sofar, news[0], cfg.maxHistory);
    }
  }

  /**
    A key becomes known only by a validated input that finds room; any other status, or a full
    cache, leaves an unknown key unknown and the whole state as it was.
   */
  lemma CreatesIff(cfg: Config, s: State, input: Input, at: Instant)
    requires IdFor(s, input.key) == None
    ensures IdFor(After(cfg, s, input, at), input.key).Some?
            <==> input.validationStatus == "VALID" && |s.active| < cfg.maxActive
    ensures IdFor(After(cfg, s, input, at), input.key) == None ==> After(cfg, s, input, at) == s
  {
  }

  /** On a known key only "REJECTED" closes; any other text counts as a validation. */
  lemma ClosesIff(cfg: Config, s: State, input: Input, at: Instant)
    requires Filed(s) && IdFor(s, input.key).Some?
    ensures input.key in After(cfg, s, input, at).closed
            <==> input.key in s.closed || input.validationStatus == "REJECTED"
  {
    hide Remembered;
    KnownIsStored(s, input.key);
  }

  lemma OpenStep(cfg: Config, s: State, input: Input, at: Instant)
    requires DatesAreDigits(cfg) && Inv(cfg, s)
    requires IdFor(s, input.key) == None && input.validationStatus == "VALID"
    requires |s.active| < cfg.maxActive
    ensures var t := After(cfg, s, input, at);
            && Inv(cfg, t)
            && t.active.Keys == s.active.Keys + {input.key}
            && |t.active| == |s.active| + 1
            && t.closed == s.closed
  {
    hide Inv, Create;
    AfterKeeps(cfg, s, input, at);
    CreateSizes(cfg, s, input, at);
  }

  lemma RejectStep(cfg: Config, s: State, input: Input, at: Instant)
    requires DatesAreDigits(cfg) && Inv(cfg, s)
    requires input.key in s.active && input.validationStatus == "REJECTED"
    ensures var t := After(cfg, s, input, at);
            && Inv(cfg, t)
            && t.active.Keys == s.active.Keys - {input.key}
            && t.closed.Keys == s.closed.Keys + {input.key}
  {
    hide Indexed, Recorded, Filed, Merge;
    AfterKeeps(cfg, s, input, at);
    KnownIsStored(s, input.key);
    RejectMoves(cfg, s, input, at);
  }

  lemma RejectMoves(cfg: Config, s: State, input: Input, at: Instant)
    requires input.key in s.active && s.active[input.key] in s.byId
    requires input.validationStatus == "REJECTED"
    ensures var t := Merge(cfg, s, s.active[input.key], input, at);
            && t.active.Keys == s.active.Keys - {input.key}
            && t.closed.Keys == s.closed.Keys + {input.key}
  {
  }

  function Other(a: Key, k: nat): Key {
    if k == 0 then a.(symbol := a.symbol + "X") else a.(symbol := Other(a, k - 1).symbol + "X")
  }

  lemma {:induction false} OtherLength(a: Key, k: nat)
    ensures |Other(a, k).symbol| == |a.symbol| + k + 1
  {
    if k > 0 {
      OtherLength(a, k - 1);
    }
  }

  /** One recommendation is opened and rejected, then `n` others are opened. */
  function Filling(a: Key, n: nat, at: Instant): seq<(Input, Instant)> {
    if n == 0 then [(Input(a, "BUY", 0.9, "VALID", []), at), (Input(a, "BUY", 0.9, "REJECTED", []), at)]
    else Filling(a, n - 1, at) + [(Input(Other(a, n - 1), "BUY", 0.9, "VALID", []), at)]
  }

  ghost predicate Filled(s: State, a: Key, n: nat) {
    && s.closed.Keys == {a}
    && |s.active| == n
    && forall key :: key in s.active ==> |key.symbol| <= |a.symbol| + n
  }

  lemma FirstClosed(cfg: Config, a: Key, at: Instant)
    requires DatesAreDigits(cfg) && cfg.maxActive > 0
    ensures Inv(cfg, Run(cfg, Filling(a, 0, at)))
    ensures Filled(Run(cfg, Filling(a, 0, at)), a, 0)
  {
    hide Inv, After;
    var inputs := Filling(a, 0, at);
    var first := inputs[..1];
    assert inputs[..|inputs| - 1] == first;
    var none: seq<(Input, Instant)> := [];
    assert first[..|first| - 1] == none && Run(cfg, none) == EMPTY;
    var created := Run(cfg, first);
    assert created == After(cfg, EMPTY, first[0].0, at);
    EmptyInv(cfg);
    OpenStep(cfg, EMPTY, first[0].0, at);
    assert a in created.active.Keys;
    RejectStep(cfg, created, inputs[1].0, at);
    assert Run(cfg, inputs) == After(cfg, created, inputs[1].0, at);
    assert Run(cfg, inputs).active.Keys == {};
  }

  /**
    At every capacity a full cache with a closed key is reachable, so the bound does rest on
    the reactivation arm being out of reach.
   */
  lemma {:induction false} FullWithClosedKey(cfg: Config, a: Key, n: nat, at: Instant)
    requires DatesAreDigits(cfg) && cfg.maxActive > 0 && n <= cfg.maxActive
    ensures Inv(cfg, Run(cfg, Filling(a, n, at)))
    ensures Filled(Run(cfg, Filling(a, n, at)), a, n)
  {
    hide Inv, After;
    if n == 0 {
      FirstClosed(cfg, a, at);
    } else {
      FullWithClosedKey(cfg, a, n - 1, at);
      var s, input := Run(cfg, Filling(a, n - 1, at)), Input(Other(a, n - 1), "BUY", 0.9, "VALID", []);
      OtherLength(a, n - 1);
      assert IdFor(s, input.key) == None;
      OpenStep(cfg, s, input, at);
      var inputs := Filling(a, n, at);
      assert inputs[..|inputs| - 1] == Filling(a, n - 1, at);
    }
  }
}
