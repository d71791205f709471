/**
  The recommendation cache with its maps updated in place, proved against its value.
 */
module LifecycleCache {
  import opened Common
  import opened Lifecycle
  import opened RecordIds
  import opened LifecycleState

  /** What a call returns, in terms of the state before it. */
  function OutcomeOf(cfg: Config, s: State, input: Input, at: Instant): Outcome {
    match IdFor(s, input.key)
    case None =>
      if input.validationStatus != "VALID" || |s.active| >= cfg.maxActive then UNCHANGED
      else
        var r := Opened(NextId(cfg, s, input.key.symbol, at), input, at);
        Outcome(Some(r.recommendation), LastEntry(r.timeline), false, true)
    case Some(id) =>
      if id !in s.byId then UNCHANGED
      else
        var r := Updated(s.byId[id], input, at);
        Outcome(Some(r.recommendation), LastEntry(r.timeline), true, true)
  }

  class Cache {
    const maxActive: nat
    const maxHistory: nat
    const dateText: Instant -> string
    var active: map<Key, string>
    var closed: map<Key, string>
    var byId: map<string, StoredRecommendation>
    var bySymbol: Index
    var byStrategy: Index
    var counters: Counters
    var history: seq<Recommendation>

    function Cfg(): Config {
      Config(maxActive, maxHistory, dateText)
    }

    ghost function Records(): map<string, Record>
      reads this`byId, byId.Values
    {
      map id | id in byId :: byId[id].View()
    }

    ghost function View(): State
      reads this, byId.Values
    {
      State(active, closed, Records(), bySymbol, byStrategy, counters, history)
    }

    ghost predicate Separate()
      reads this`byId
    {
      forall i, j :: i in byId && j in byId && i != j ==> byId[i] != byId[j]
    }

    ghost predicate Valid()
      reads this, byId.Values
    {
      DatesAreDigits(Cfg()) && Separate() && Inv(Cfg(), View())
    }

    constructor (maxActive: int, dateText: Instant -> string)
      requires forall t :: IsDigits(dateText(t))
      ensures Valid() && View() == EMPTY
      ensures Cfg() == NewConfig(maxActive, dateText)
    {
      this.maxActive := if maxActive < 1 then DEFAULT_MAX_ACTIVE else maxActive;
      this.maxHistory := DEFAULT_MAX_HISTORY;
      this.dateText := dateText;
      active, closed, byId := map[], map[], map[];
      bySymbol, byStrategy, counters, history := map[], map[], map[], [];
      new;
      EmptyInv(Cfg());
      assert Records() == map[];
    }

    method AppendHistory(rec: Recommendation)
      modifies this`history
      ensures history == Remembered(Cfg(), old(history), rec)
    {
      history := history + [rec];
      if |history| > maxHistory {
        history := history[|history| - maxHistory..];
      }
    }

    method NextSequence(symbol: string, at: Instant) returns (id: string)
      modifies this`counters
      ensures var key := CounterKey(dateText(at), symbol);
              && counters == old(counters)[key := Count(old(counters), key) + 1]
              && id == IdText(dateText(at), symbol, Count(old(counters), key) + 1)
    {
      var key := CounterKey(dateText(at), symbol);
      var n := Count(counters, key) + 1;
      counters := counters[key := n];
      id := IdText(dateText(at), symbol, n);
    }

    method AddToIndexes(id: string, key: Key)
      modifies this`bySymbol, this`byStrategy
      ensures bySymbol == old(bySymbol)[key.symbol := Held(old(bySymbol), key.symbol) + {id}]
      ensures byStrategy == old(byStrategy)[key.strategy := Held(old(byStrategy), key.strategy) + {id}]
    {
      if key.symbol !in bySymbol {
        bySymbol := bySymbol[key.symbol := {}];
      }
      bySymbol := bySymbol[key.symbol := bySymbol[key.symbol] + {id}];
      if key.strategy !in byStrategy {
        byStrategy := byStrategy[key.strategy := {}];
      }
      byStrategy := byStrategy[key.strategy := byStrategy[key.strategy] + {id}];
    }

    method Put(id: string, stored: StoredRecommendation)
      requires Separate() && stored !in byId.Values && id !in byId
      modifies this`byId
      ensures byId == old(byId)[id := stored] && Separate()
      ensures Records() == old(Records())[id := stored.View()]
    {
      byId := byId[id := stored];
    }

    /** A recommendation with its id enters the maps, the indexes and the history. */
    method FileNew(id: string, key: Key, stored: StoredRecommendation)
      requires Separate() && stored !in byId.Values && id !in byId
      modifies this`byId, this`active, this`bySymbol, this`byStrategy, this`history
      ensures Separate() && Records() == old(Records())[id := stored.View()]
      ensures active == old(active)[key := id]
      ensures bySymbol == old(bySymbol)[key.symbol := Held(old(bySymbol), key.symbol) + {id}]
      ensures byStrategy == old(byStrategy)[key.strategy := Held(old(byStrategy), key.strategy) + {id}]
      ensures history == Remembered(Cfg(), old(history), stored.recommendation)
    {
      hide Remembered, Held;
      Put(id, stored);
      active := active[key := id];
      AddToIndexes(id, key);
      AppendHistory(stored.recommendation);
    }

    /** A recommendation built for an unknown key gets its id and enters every map. */
    method Store(stored: StoredRecommendation, input: Input, at: Instant)
      requires Separate() && stored !in byId.Values
      requires stored.View() == Opened("", input, at)
      requires NextId(Cfg(), View(), input.key.symbol, at) !in byId
      modifies this, stored
      ensures Separate()
      ensures stored.View() == Opened(NextId(Cfg(), old(View()), input.key.symbol, at), input, at)
      ensures View() == Create(Cfg(), old(View()), input, at)
    {
      hide Opened, IdText, CounterKey, Remembered, Held, Count, Create, NextId;
      ghost var before := Records();
      OpenedWithId(input, at, stored.View());
      CreateFields(Cfg(), View(), input, at);
      var id := NextSequence(input.key.symbol, at);
      stored.recommendation := stored.recommendation.(id := id);
      assert stored.View() == Opened(id, input, at);
      assert Records() == before;
      FileNew(id, input.key, stored);
    }

    /** An unknown key: only a validated input that finds room is stored. */
    method CreateNew(input: Input, at: Instant) returns (out: Outcome)
      requires Separate() && IdFor(View(), input.key) == None
      requires NextId(Cfg(), View(), input.key.symbol, at) !in byId
      modifies this
      ensures Separate()
      ensures View() == After(Cfg(), old(View()), input, at)
      ensures out == OutcomeOf(Cfg(), old(View()), input, at)
    {
      hide Opened, Create, NextId;
      if input.validationStatus != "VALID" {
        return UNCHANGED;
      }
      if |active| >= maxActive {
        return UNCHANGED;
      }
      ghost var before := Records();
      var stored := new StoredRecommendation(
        Recommendation("", input.key, Created, 0.0, at, at, None));
      var latest := stored.ApplyUpdate(input, at);
      OpenedWithId(input, at, stored.View());
      if latest == None {
        return UNCHANGED;
      }
      assert Records() == before;
      Store(stored, input, at);
      out := Outcome(Some(stored.recommendation), latest, false, true);
    }

    /** The key of an updated recommendation moves to the side its status says. */
    method FileByStatus(key: Key, rec: Recommendation, wasClosed: bool)
      modifies this`active, this`closed
      ensures active == if rec.status == Closed then old(active) - {key}
                        else if wasClosed then old(active)[key := rec.id] else old(active)
      ensures closed == if rec.status == Closed then old(closed)[key := rec.id]
                        else if wasClosed then old(closed) - {key} else old(closed)
    {
      if rec.status == Closed {
        active := active - {key};
        closed := closed[key := rec.id];
      } else if wasClosed {
        closed := closed - {key};
        active := active[key := rec.id];
      }
    }

    /** A known key: the stored recommendation is updated and its key filed by its status. */
    method MergeInto(id: string, input: Input, at: Instant) returns (out: Outcome)
      requires Separate() && id in byId && IdFor(View(), input.key) == Some(id)
      requires byId[id].recommendation.id == id != ""
      modifies this, byId[id]
      ensures Separate() && byId == old(byId)
      ensures View() == After(Cfg(), old(View()), input, at)
      ensures out == OutcomeOf(Cfg(), old(View()), input, at)
    {
      hide Remembered, Updated, LastEntry;
      ghost var before := Records();
      assert before[id] == byId[id].View();
      var stored := byId[id];
      var wasClosed := stored.recommendation.status == Closed;
      UpdatedHasEntries(stored.View(), input, at);
      var latest := stored.ApplyUpdate(input, at);
      var rec := stored.recommendation;
      FileByStatus(input.key, rec, wasClosed);
      AppendHistory(rec);
      assert Records() == before[id := stored.View()];
      out := Outcome(Some(rec), latest, true, true);
    }

    method ApplyValidated(input: Input, at: Instant) returns (out: Outcome)
      requires Valid()
      modifies this, byId.Values
      ensures Valid()
      ensures View() == After(Cfg(), old(View()), input, at)
      ensures out == OutcomeOf(Cfg(), old(View()), input, at)
    {
      hide Remembered, Filed, Indexed, Recorded, IdText, CounterKey, After, OutcomeOf;
      AfterKeeps(Cfg(), View(), input, at);
      var id, exists_ := "", false;
      if input.key in active {
        id, exists_ := active[input.key], true;
      } else if input.key in closed {
        id, exists_ := closed[input.key], true;
      }
      if !exists_ {
        IdsMatch(View());
        NextIdIsNew(Cfg(), View(), input.key.symbol, at);
        out := CreateNew(input, at);
      } else {
        KnownIsStored(View(), input.key);
        IdsMatch(View());
        IdsNotEmpty(Cfg(), View(), id);
        assert byId[id].recommendation == Records()[id].recommendation;
        out := MergeInto(id, input, at);
      }
    }
  }

  lemma CreateFields(cfg: Config, s: State, input: Input, at: Instant)
    ensures var key, counter := input.key, CounterKey(cfg.dateText(at), input.key.symbol);
            var n := Count(s.counters, counter) + 1;
            var id := NextId(cfg, s, key.symbol, at);
            var r := Opened(id, input, at);
            && id == IdText(cfg.dateText(at), key.symbol, n)
            && Create(cfg, s, input, at)
               == State(s.active[key := id], s.closed, s.byId[id := r],
                        s.bySymbol[key.symbol := Held(s.bySymbol, key.symbol) + {id}],
                        s.byStrategy[key.strategy := Held(s.byStrategy, key.strategy) + {id}],
                        s.counters[counter := n],
                        Remembered(cfg, s.history, r.recommendation))
  {
  }

  lemma OpenedWithId(input: Input, at: Instant, r: Record)
    requires r == Opened("", input, at)
    ensures forall id :: Opened(id, input, at) == r.(recommendation := r.recommendation.(id := id))
    ensures forall id :: LastEntry(Opened(id, input, at).timeline) == LastEntry(r.timeline)
    ensures LastEntry(r.timeline) != None
  {
  }

  lemma UpdatedHasEntries(r: Record, input: Input, at: Instant)
    ensures Updated(r, input, at).recommendation.id == r.recommendation.id
  {
  }

  lemma IdsNotEmpty(cfg: Config, s: State, id: string)
    requires Recorded(cfg, s) && id in s.byId
    ensures s.byId[id].recommendation.id != ""
  {
  }
}
