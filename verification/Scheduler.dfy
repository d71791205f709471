/**
  The run scheduler as interleaved steps of its producers and workers.

  A ticket stands for one run handed to `Enqueue`; several tickets may carry the same run id.
  A worker is described by where it stands in its loop. Each action is one atomic step: a
  channel operation, a guarded access to the running set, or a callback.
 */
module Scheduler {
  import opened Common

  datatype Worker =
    | Idle
    | Taken(ticket: nat)
    | Waiting(ticket: nat)
    | Abandoning(ticket: nat)
    | Starting(ticket: nat)
    | Executing(ticket: nat)
    | Released(ticket: nat)
    | Finished(ticket: nat)
    | Stopped

  /** Where a ticket is. */
  datatype Place =
    | Blocked(producer: nat)
    | Queued
    | Held(worker: nat)
    | Dropped
    | Abandoned
    | Completed

  datatype Callback = OnStart(ticket: nat) | OnComplete(ticket: nat)

  datatype Config = Config(workers: nat, slots: nat, queue: nat)

  function NewConfig(workers: int, maxConcurrent: int): (cfg: Config)
    ensures cfg.workers >= 1 && cfg.slots >= 1 && cfg.queue == 4 * cfg.workers
    ensures workers >= 1 ==> cfg.workers == workers
    ensures cfg.slots == if maxConcurrent >= 1 then maxConcurrent else cfg.workers
  {
    var n := if workers < 1 then 1 else workers;
    Config(n, if maxConcurrent < 1 then n else maxConcurrent, n * 4)
  }

  datatype State = State(
    runs: seq<string>,
    producers: seq<seq<nat>>,
    queue: seq<nat>,
    workers: seq<Worker>,
    slots: nat,
    running: set<string>,
    place: seq<Place>,
    log: seq<Callback>,
    cancelled: bool,
    closed: bool
  )

  datatype Action =
    | Submit(ids: seq<string>)
    | Send(producer: nat)
    | Cancel
    | Close
    | StopCancelled(w: nat)
    | StopClosed(w: nat)
    | Receive(w: nat)
    | Claim(w: nat)
    | Acquire(w: nat)
    | GiveUp(w: nat)
    | FinishAbandoned(w: nat)
    | Begin(w: nat)
    | Release(w: nat)
    | Finish(w: nat)
    | Complete(w: nat)

  function Start(cfg: Config): State {
    State([], [], [], seq(cfg.workers, _ => Idle), 0, {}, [], [], false, false)
  }

  function Tickets(from: nat, count: nat): seq<nat> {
    seq(count, i requires 0 <= i => from + i)
  }

  predicate HasTicket(w: Worker) {
    !w.Idle? && !w.Stopped?
  }

  /** A worker whose ticket's id is in the running set. */
  predicate Claims(w: Worker) {
    w.Waiting? || w.Abandoning? || w.Starting? || w.Executing? || w.Released?
  }

  /** A worker inside the semaphore. */
  predicate Inside(w: Worker) {
    w.Starting? || w.Executing?
  }

  predicate Enabled(cfg: Config, s: State, a: Action) {
    match a
    case Submit(_) => true
    case Send(p) =>
      p < |s.producers| && s.producers[p] != [] && |s.queue| < cfg.queue && !s.closed
    case Cancel => !s.cancelled
    case Close => !s.closed
    case StopCancelled(w) => w < |s.workers| && s.workers[w].Idle? && s.cancelled
    case StopClosed(w) => w < |s.workers| && s.workers[w].Idle? && s.closed && s.queue == []
    case Receive(w) => w < |s.workers| && s.workers[w].Idle? && s.queue != []
    case Claim(w) => w < |s.workers| && s.workers[w].Taken?
    case Acquire(w) => w < |s.workers| && s.workers[w].Waiting? && s.slots < cfg.slots
    case GiveUp(w) => w < |s.workers| && s.workers[w].Waiting? && s.cancelled
    case FinishAbandoned(w) => w < |s.workers| && s.workers[w].Abandoning?
    case Begin(w) => w < |s.workers| && s.workers[w].Starting?
    case Release(w) => w < |s.workers| && s.workers[w].Executing? && s.slots > 0
    case Finish(w) => w < |s.workers| && s.workers[w].Released?
    case Complete(w) => w < |s.workers| && s.workers[w].Finished?
  }

  function IdOf(s: State, t: nat): string {
    RunOf(s.runs, t)
  }

  function Moved(s: State, w: nat, to: Worker): State
    requires w < |s.workers|
  {
    s.(workers := s.workers[w := to])
  }

  function Put(s: State, t: nat, p: Place): State {
    if t < |s.place| then s.(place := s.place[t := p]) else s
  }

  function Next(cfg: Config, s: State, a: Action): State
    requires Enabled(cfg, s, a)
  {
    match a
    case Submit(ids) =>
      s.(runs := s.runs + ids,
         producers := s.producers + [Tickets(|s.runs|, |ids|)],
         place := s.place + seq(|ids|, _ => Blocked(|s.producers|)))
    case Send(p) =>
      var t := s.producers[p][0];
      Put(s.(producers := s.producers[p := s.producers[p][1..]], queue := s.queue + [t]), t, Queued)
    case Cancel => s.(cancelled := true)
    case Close => s.(closed := true)
    case StopCancelled(w) => Moved(s, w, Stopped)
    case StopClosed(w) => Moved(s, w, Stopped)
    case Receive(w) =>
      var t := s.queue[0];
      Put(Moved(s, w, Taken(t)).(queue := s.queue[1..]), t, Held(w))
    case Claim(w) =>
      var t := s.workers[w].ticket;
      if IdOf(s, t) in s.running then Put(Moved(s, w, Idle), t, Dropped)
      else Moved(s, w, Waiting(t)).(running := s.running + {IdOf(s, t)})
    case Acquire(w) => Moved(s, w, Starting(s.workers[w].ticket)).(slots := s.slots + 1)
    case GiveUp(w) => Moved(s, w, Abandoning(s.workers[w].ticket))
    case FinishAbandoned(w) =>
      var t := s.workers[w].ticket;
      Put(Moved(s, w, Stopped).(running := s.running - {IdOf(s, t)}), t, Abandoned)
    case Begin(w) =>
      var t := s.workers[w].ticket;
      Moved(s, w, Executing(t)).(log := s.log + [OnStart(t)])
    case Release(w) => Moved(s, w, Released(s.workers[w].ticket)).(slots := s.slots - 1)
    case Finish(w) =>
      var t := s.workers[w].ticket;
      Moved(s, w, Finished(t)).(running := s.running - {IdOf(s, t)})
    case Complete(w) =>
      var t := s.workers[w].ticket;
      Put(Moved(s, w, Idle).(log := s.log + [OnComplete(t)]), t, Completed)
  }

  // The parts of the invariant.

  predicate At(place: seq<Place>, t: nat, p: Place) {
    t < |place| && place[t] == p
  }

  predicate InList(producers: seq<seq<nat>>, p: nat, t: nat) {
    p < |producers| && t in producers[p]
  }

  predicate Holds(workers: seq<Worker>, w: nat, t: nat) {
    w < |workers| && HasTicket(workers[w]) && workers[w].ticket == t
  }

  /** Blocked tickets stand in their producer's list, once. */
  ghost predicate ProducersAgree(place: seq<Place>, producers: seq<seq<nat>>) {
    && (forall p: nat, t: nat :: InList(producers, p, t) <==> At(place, t, Blocked(p)))
    && (forall p :: 0 <= p < |producers| ==> NoRepeats(producers[p]))
  }

  /** Queued tickets stand in the queue, once. */
  ghost predicate QueueAgrees(place: seq<Place>, queue: seq<nat>) {
    && (forall t: nat :: t in queue <==> At(place, t, Queued))
    && NoRepeats(queue)
  }

  /** A held ticket is held by one worker. */
  ghost predicate WorkersAgree(place: seq<Place>, workers: seq<Worker>) {
    forall w: nat, t: nat :: Holds(workers, w, t) <==> At(place, t, Held(w))
  }

  function RunOf(runs: seq<string>, t: nat): string {
    if t < |runs| then runs[t] else ""
  }

  ghost predicate ClaimedBy(runs: seq<string>, workers: seq<Worker>, w: nat, id: string) {
    w < |workers| && Claims(workers[w]) && RunOf(runs, workers[w].ticket) == id
  }

  /** The running set is exactly the claimed ids, and no two workers claim the same id. */
  ghost predicate RunningAgrees(runs: seq<string>, workers: seq<Worker>, running: set<string>) {
    && (forall w: nat, id :: ClaimedBy(runs, workers, w, id) ==> id in running)
    && (forall id :: id in running ==> exists w: nat :: ClaimedBy(runs, workers, w, id))
    && (forall v: nat, w: nat, id :: ClaimedBy(runs, workers, v, id) && ClaimedBy(runs, workers, w, id) ==> v == w)
  }

  function InsideCount(workers: seq<Worker>): nat {
    if workers == [] then 0
    else
      InsideCount(workers[..|workers| - 1]) + if Inside(workers[|workers| - 1]) then 1 else 0
  }

  /** The worker that holds a ticket. */
  function HolderOf(place: seq<Place>, workers: seq<Worker>, t: nat): Worker {
    if t < |place| && place[t].Held? && place[t].worker < |workers| then workers[place[t].worker]
    else Idle
  }

  predicate HasStarted(place: seq<Place>, workers: seq<Worker>, t: nat) {
    var w := HolderOf(place, workers, t);
    At(place, t, Completed) || w.Executing? || w.Released? || w.Finished?
  }

  /** Each callback is made once; completion only after the start of the same ticket. */
  ghost predicate LogAgrees(place: seq<Place>, workers: seq<Worker>, log: seq<Callback>) {
    && NoRepeats(log)
    && (forall t: nat :: OnStart(t) in log <==> HasStarted(place, workers, t))
    && (forall t: nat :: OnComplete(t) in log <==> At(place, t, Completed))
    && CompletionsFollow(log)
  }

  ghost predicate CompletionsFollow(log: seq<Callback>) {
    forall j :: 0 <= j < |log| && log[j].OnComplete? ==> OnStart(log[j].ticket) in log[..j]
  }

  /** A ticket that took its id into the running set at some time. */
  predicate WasClaimed(place: seq<Place>, workers: seq<Worker>, t: nat) {
    var w := HolderOf(place, workers, t);
    At(place, t, Completed) || At(place, t, Abandoned) || Claims(w) || w.Finished?
  }

  ghost predicate Rivals(runs: seq<string>, place: seq<Place>, workers: seq<Worker>, t: nat, u: nat) {
    u != t && u < |runs| && RunOf(runs, u) == RunOf(runs, t) && WasClaimed(place, workers, u)
  }

  /** A ticket is dropped only for another one of the same id. */
  ghost predicate DropsExplained(runs: seq<string>, place: seq<Place>, workers: seq<Worker>) {
    forall t: nat :: At(place, t, Dropped) ==> exists u: nat :: Rivals(runs, place, workers, t, u)
  }

  /** Work is given up, and workers stop, only for a reason. */
  ghost predicate StopsExplained(place: seq<Place>, workers: seq<Worker>, queue: seq<nat>,
                                 cancelled: bool, closed: bool) {
    && (forall t: nat :: At(place, t, Abandoned) ==> cancelled)
    && (forall w :: 0 <= w < |workers| && workers[w].Abandoning? ==> cancelled)
    && (forall w :: 0 <= w < |workers| && workers[w].Stopped? ==> cancelled || (closed && queue == []))
  }

  ghost predicate Inv(cfg: Config, s: State) {
    && |s.place| == |s.runs|
    && |s.workers| == cfg.workers
    && |s.queue| <= cfg.queue
    && ProducersAgree(s.place, s.producers)
    && QueueAgrees(s.place, s.queue)
    && WorkersAgree(s.place, s.workers)
    && RunningAgrees(s.runs, s.workers, s.running)
    && s.slots == InsideCount(s.workers) <= cfg.slots
    && LogAgrees(s.place, s.workers, s.log)
    && DropsExplained(s.runs, s.place, s.workers)
    && StopsExplained(s.place, s.workers, s.queue, s.cancelled, s.closed)
  }

  lemma {:induction false} NoneInside(workers: seq<Worker>)
    requires forall w :: 0 <= w < |workers| ==> workers[w].Idle?
    ensures InsideCount(workers) == 0
  {
    if workers != [] {
      NoneInside(workers[..|workers| - 1]);
    }
  }

  lemma StartInv(cfg: Config)
    ensures Inv(cfg, Start(cfg))
  {
    NoneInside(Start(cfg).workers);
  }

  /** Counting follows the one worker that moves. */
  lemma {:induction false} InsideChange(workers: seq<Worker>, w: nat, to: Worker)
    requires w < |workers|
    ensures InsideCount(workers[w := to])
            == InsideCount(workers) - (if Inside(workers[w]) then 1 else 0)
                                    + (if Inside(to) then 1 else 0)
  {
    var n := |workers| - 1;
    if w == n {
      assert workers[w := to][..n] == workers[..n];
    } else {
      assert workers[w := to][..n] == workers[..n][w := to];
      InsideChange(workers[..n], w, to);
    }
  }

  lemma NextShape(cfg: Config, s: State, a: Action)
    requires Inv(cfg, s) && Enabled(cfg, s, a)
    ensures var t := Next(cfg, s, a);
            && |t.place| == |t.runs| && |t.workers| == |s.workers| && |t.queue| <= cfg.queue
            && s.runs <= t.runs
            && (s.cancelled ==> t.cancelled) && (s.closed ==> t.closed)
  {
    hide ProducersAgree, QueueAgrees, WorkersAgree, RunningAgrees, LogAgrees, DropsExplained,
         StopsExplained, InsideCount, RunOf;
    match a
    case Submit(_) =>
    case Send(_) =>
    case Cancel =>
    case Close =>
    case StopCancelled(_) =>
    case StopClosed(_) =>
    case Receive(_) =>
    case Claim(_) =>
    case Acquire(_) =>
    case GiveUp(_) =>
    case FinishAbandoned(_) =>
    case Begin(_) =>
    case Release(_) =>
    case Finish(_) =>
    case Complete(_) =>
  }

  // Producers.

  lemma ProducersSubmit(place: seq<Place>, producers: seq<seq<nat>>, n: nat)
    requires ProducersAgree(place, producers)
    ensures ProducersAgree(place + seq(n, _ => Blocked(|producers|)),
                           producers + [Tickets(|place|, n)])
  {
    var place', producers' := place + seq(n, _ => Blocked(|producers|)), producers + [Tickets(|place|, n)];
    forall p: nat, t: nat
      ensures InList(producers', p, t) <==> At(place', t, Blocked(p))
    {
      assert InList(producers, p, t) <==> At(place, t, Blocked(p));
      if p == |producers| {
        assert t in Tickets(|place|, n) <==> |place| <= t < |place| + n by {
          if |place| <= t < |place| + n {
            assert Tickets(|place|, n)[t - |place|] == t;
          }
        }
      }
    }
  }

  lemma FirstGone(s: seq<nat>, t: nat)
    requires s != [] && NoRepeats(s)
    ensures t in s[1..] <==> t in s && t != s[0]
    ensures NoRepeats(s[1..])
  {
    assert s == [s[0]] + s[1..];
    forall k | 0 <= k < |s[1..]|
      ensures s[1..][k] != s[0]
    {
      assert s[1..][k] == s[k + 1];
    }
  }

  lemma ProducersSend(place: seq<Place>, producers: seq<seq<nat>>, p: nat)
    requires ProducersAgree(place, producers) && p < |producers| && producers[p] != []
    ensures At(place, producers[p][0], Blocked(p))
    ensures ProducersAgree(place[producers[p][0] := Queued], producers[p := producers[p][1..]])
  {
    var t0 := producers[p][0];
    assert InList(producers, p, t0);
    var place', producers' := place[t0 := Queued], producers[p := producers[p][1..]];
    FirstGone(producers[p], t0);
    forall q: nat, t: nat
      ensures InList(producers', q, t) <==> At(place', t, Blocked(q))
    {
      assert InList(producers, q, t) <==> At(place, t, Blocked(q));
      FirstGone(producers[p], t);
    }
  }

  lemma ProducersElse(place: seq<Place>, producers: seq<seq<nat>>, t: nat, p: Place)
    requires ProducersAgree(place, producers)
    requires t < |place| && !place[t].Blocked? && !p.Blocked?
    ensures ProducersAgree(place[t := p], producers)
  {
    forall q: nat, u: nat
      ensures InList(producers, q, u) <==> At(place[t := p], u, Blocked(q))
    {
      assert InList(producers, q, u) <==> At(place, u, Blocked(q));
    }
  }

  // The queue.

  lemma QueueSubmit(place: seq<Place>, queue: seq<nat>, n: nat, p: nat)
    requires QueueAgrees(place, queue)
    ensures QueueAgrees(place + seq(n, _ => Blocked(p)), queue)
  {
    var place' := place + seq(n, _ => Blocked(p));
    forall t: nat
      ensures t in queue <==> At(place', t, Queued)
    {
      assert t in queue <==> At(place, t, Queued);
    }
  }

  lemma QueueSend(place: seq<Place>, queue: seq<nat>, t0: nat)
    requires QueueAgrees(place, queue) && t0 < |place| && place[t0] != Queued
    ensures QueueAgrees(place[t0 := Queued], queue + [t0])
  {
    forall t: nat
      ensures t in queue + [t0] <==> At(place[t0 := Queued], t, Queued)
    {
      assert t in queue <==> At(place, t, Queued);
    }
    assert t0 in queue <==> At(place, t0, Queued);
  }

  lemma QueueReceive(place: seq<Place>, queue: seq<nat>, p: Place)
    requires QueueAgrees(place, queue) && queue != [] && p != Queued
    ensures At(place, queue[0], Queued)
    ensures QueueAgrees(place[queue[0] := p], queue[1..])
  {
    assert queue[0] in queue;
    FirstGone(queue, queue[0]);
    forall t: nat
      ensures t in queue[1..] <==> At(place[queue[0] := p], t, Queued)
    {
      assert t in queue <==> At(place, t, Queued);
      FirstGone(queue, t);
    }
  }

  lemma QueueElse(place: seq<Place>, queue: seq<nat>, t0: nat, p: Place)
    requires QueueAgrees(place, queue) && t0 < |place| && place[t0] != Queued && p != Queued
    ensures QueueAgrees(place[t0 := p], queue)
  {
    forall t: nat
      ensures t in queue <==> At(place[t0 := p], t, Queued)
    {
      assert t in queue <==> At(place, t, Queued);
    }
  }

  // Workers and the tickets they hold.

  lemma WorkersSubmit(place: seq<Place>, workers: seq<Worker>, n: nat, p: nat)
    requires WorkersAgree(place, workers)
    ensures WorkersAgree(place + seq(n, _ => Blocked(p)), workers)
  {
    var place' := place + seq(n, _ => Blocked(p));
    forall w: nat, t: nat
      ensures Holds(workers, w, t) <==> At(place', t, Held(w))
    {
      assert Holds(workers, w, t) <==> At(place, t, Held(w));
    }
  }

  lemma WorkersElse(place: seq<Place>, workers: seq<Worker>, t0: nat, p: Place)
    requires WorkersAgree(place, workers) && t0 < |place| && !place[t0].Held? && !p.Held?
    ensures WorkersAgree(place[t0 := p], workers)
  {
    forall w: nat, t: nat
      ensures Holds(workers, w, t) <==> At(place[t0 := p], t, Held(w))
    {
      assert Holds(workers, w, t) <==> At(place, t, Held(w));
    }
  }

  lemma WorkersTake(place: seq<Place>, workers: seq<Worker>, v: nat, t0: nat)
    requires WorkersAgree(place, workers) && v < |workers| && !HasTicket(workers[v])
    requires t0 < |place| && !place[t0].Held?
    ensures WorkersAgree(place[t0 := Held(v)], workers[v := Taken(t0)])
  {
    var place', workers' := place[t0 := Held(v)], workers[v := Taken(t0)];
    forall w: nat, t: nat
      ensures Holds(workers', w, t) <==> At(place', t, Held(w))
    {
      assert Holds(workers, w, t) <==> At(place, t, Held(w));
    }
  }

  lemma WorkersStep(place: seq<Place>, workers: seq<Worker>, v: nat, to: Worker)
    requires WorkersAgree(place, workers) && v < |workers|
    requires HasTicket(workers[v]) <==> HasTicket(to)
    requires HasTicket(to) ==> to.ticket == workers[v].ticket
    ensures WorkersAgree(place, workers[v := to])
  {
    forall w: nat, t: nat
      ensures Holds(workers[v := to], w, t) <==> At(place, t, Held(w))
    {
      assert Holds(workers, w, t) <==> At(place, t, Held(w));
    }
  }

  lemma WorkersSettle(place: seq<Place>, workers: seq<Worker>, v: nat, to: Worker, p: Place)
    requires WorkersAgree(place, workers) && v < |workers|
    requires HasTicket(workers[v]) && !HasTicket(to) && !p.Held?
    ensures At(place, workers[v].ticket, Held(v))
    ensures WorkersAgree(place[workers[v].ticket := p], workers[v := to])
  {
    var t0 := workers[v].ticket;
    assert Holds(workers, v, t0);
    var place', workers' := place[t0 := p], workers[v := to];
    forall w: nat, t: nat
      ensures Holds(workers', w, t) <==> At(place', t, Held(w))
    {
      assert Holds(workers, w, t) <==> At(place, t, Held(w));
    }
  }

  // The running set.

  lemma RunningStep(runs: seq<string>, runs': seq<string>, workers: seq<Worker>, workers': seq<Worker>,
                    running: set<string>)
    requires RunningAgrees(runs, workers, running)
    requires forall w: nat, id :: ClaimedBy(runs', workers', w, id) <==> ClaimedBy(runs, workers, w, id)
    ensures RunningAgrees(runs', workers', running)
  {
    forall id | id in running
      ensures exists w: nat :: ClaimedBy(runs', workers', w, id)
    {
      var w: nat :| ClaimedBy(runs, workers, w, id);
      assert ClaimedBy(runs', workers', w, id);
    }
  }

  lemma RunningMove(runs: seq<string>, workers: seq<Worker>, running: set<string>, v: nat, to: Worker)
    requires RunningAgrees(runs, workers, running)
    requires v < |workers| && (Claims(workers[v]) <==> Claims(to))
    requires Claims(to) ==> to.ticket == workers[v].ticket
    ensures RunningAgrees(runs, workers[v := to], running)
  {
    RunningStep(runs, runs, workers, workers[v := to], running);
  }

  lemma RunningSubmit(place: seq<Place>, runs: seq<string>, workers: seq<Worker>,
                      running: set<string>, ids: seq<string>)
    requires WorkersAgree(place, workers) && RunningAgrees(runs, workers, running)
    requires |place| == |runs|
    ensures RunningAgrees(runs + ids, workers, running)
  {
    forall w: nat | w < |workers| && HasTicket(workers[w])
      ensures workers[w].ticket < |runs|
    {
      assert Holds(workers, w, workers[w].ticket);
    }
    RunningStep(runs, runs + ids, workers, workers, running);
  }

  lemma RunningClaim(runs: seq<string>, workers: seq<Worker>, running: set<string>, v: nat)
    requires RunningAgrees(runs, workers, running)
    requires v < |workers| && workers[v].Taken? && RunOf(runs, workers[v].ticket) !in running
    ensures var t := workers[v].ticket;
            RunningAgrees(runs, workers[v := Waiting(t)], running + {RunOf(runs, t)})
  {
    var t := workers[v].ticket;
    var workers', running' := workers[v := Waiting(t)], running + {RunOf(runs, t)};
    assert ClaimedBy(runs, workers', v, RunOf(runs, t));
    forall w: nat, id
      ensures w != v ==> (ClaimedBy(runs, workers', w, id) <==> ClaimedBy(runs, workers, w, id))
    {
    }
    forall id | id in running'
      ensures exists w: nat :: ClaimedBy(runs, workers', w, id)
    {
      if id in running {
        var w: nat :| ClaimedBy(runs, workers, w, id);
        assert ClaimedBy(runs, workers', w, id);
      }
    }
  }

  lemma RunningFinish(runs: seq<string>, workers: seq<Worker>, running: set<string>, v: nat, to: Worker)
    requires RunningAgrees(runs, workers, running)
    requires v < |workers| && Claims(workers[v]) && !Claims(to)
    ensures RunningAgrees(runs, workers[v := to], running - {RunOf(runs, workers[v].ticket)})
  {
    var id0 := RunOf(runs, workers[v].ticket);
    var workers', running' := workers[v := to], running - {id0};
    assert ClaimedBy(runs, workers, v, id0);
    forall w: nat, id
      ensures ClaimedBy(runs, workers', w, id) <==> w != v && ClaimedBy(runs, workers, w, id)
    {
    }
    forall id | id in running'
      ensures exists w: nat :: ClaimedBy(runs, workers', w, id)
    {
      var w: nat :| ClaimedBy(runs, workers, w, id);
      assert ClaimedBy(runs, workers', w, id);
    }
  }

  // Callbacks.

  lemma LogSame(place: seq<Place>, workers: seq<Worker>, place': seq<Place>, workers': seq<Worker>,
                log: seq<Callback>)
    requires LogAgrees(place, workers, log)
    requires forall t: nat :: HasStarted(place', workers', t) <==> HasStarted(place, workers, t)
    requires forall t: nat :: At(place', t, Completed) <==> At(place, t, Completed)
    ensures LogAgrees(place', workers', log)
  {
  }

  lemma LogBegin(place: seq<Place>, workers: seq<Worker>, log: seq<Callback>, v: nat)
    requires LogAgrees(place, workers, log) && WorkersAgree(place, workers)
    requires v < |workers| && workers[v].Starting?
    ensures LogAgrees(place, workers[v := Executing(workers[v].ticket)],
                      log + [OnStart(workers[v].ticket)])
  {
    var t0, e := workers[v].ticket, OnStart(workers[v].ticket);
    var workers', log' := workers[v := Executing(t0)], log + [e];
    assert Holds(workers, v, t0) && At(place, t0, Held(v));
    assert HolderOf(place, workers, t0) == workers[v];
    assert e !in log;
    forall t: nat
      ensures OnStart(t) in log' <==> HasStarted(place, workers', t)
    {
      assert OnStart(t) in log <==> HasStarted(place, workers, t);
      if t < |place| && place[t] == Held(v) {
        assert Holds(workers, v, t);
      }
    }
    LogOrder(log, e);
  }

  lemma LogOrder(log: seq<Callback>, e: Callback)
    requires CompletionsFollow(log) && (e.OnComplete? ==> OnStart(e.ticket) in log)
    ensures CompletionsFollow(log + [e])
  {
    var log' := log + [e];
    forall j | 0 <= j < |log'| && log'[j].OnComplete?
      ensures OnStart(log'[j].ticket) in log'[..j]
    {
      assert log'[..j] == log[..j];
    }
    assert log[..|log|] == log;
  }

  lemma LogComplete(place: seq<Place>, workers: seq<Worker>, log: seq<Callback>, v: nat)
    requires LogAgrees(place, workers, log) && WorkersAgree(place, workers)
    requires v < |workers| && workers[v].Finished? && workers[v].ticket < |place|
    ensures LogAgrees(place[workers[v].ticket := Completed], workers[v := Idle],
                      log + [OnComplete(workers[v].ticket)])
  {
    var t0, e := workers[v].ticket, OnComplete(workers[v].ticket);
    var place', workers', log' := place[t0 := Completed], workers[v := Idle], log + [e];
    assert Holds(workers, v, t0) && At(place, t0, Held(v));
    assert HolderOf(place, workers, t0) == workers[v];
    assert HasStarted(place, workers, t0);
    assert e !in log;
    forall t: nat
      ensures OnStart(t) in log' <==> HasStarted(place', workers', t)
      ensures OnComplete(t) in log' <==> At(place', t, Completed)
    {
      assert OnStart(t) in log <==> HasStarted(place, workers, t);
      assert OnComplete(t) in log <==> At(place, t, Completed);
      if t < |place| && place[t] == Held(v) {
        assert Holds(workers, v, t);
      }
    }
    LogOrder(log, e);
  }

  // Dropped tickets.

  lemma DropsStay(runs: seq<string>, runs': seq<string>, place: seq<Place>, place': seq<Place>,
                  workers: seq<Worker>, workers': seq<Worker>, t0: nat)
    requires DropsExplained(runs, place, workers) && runs <= runs' && |place| == |runs|
    requires forall u: nat :: WasClaimed(place, workers, u) ==> WasClaimed(place', workers', u)
    requires forall t: nat :: At(place', t, Dropped) ==> At(place, t, Dropped) || t == t0
    requires At(place', t0, Dropped) && !At(place, t0, Dropped) ==>
               exists u: nat :: Rivals(runs', place', workers', t0, u)
    ensures DropsExplained(runs', place', workers')
  {
    forall t: nat | At(place', t, Dropped)
      ensures exists u: nat :: Rivals(runs', place', workers', t, u)
    {
      if At(place, t, Dropped) {
        var u: nat :| Rivals(runs, place, workers, t, u);
        assert Rivals(runs', place', workers', t, u);
      }
    }
  }

  /** The worker that already claims the id holds the rival ticket. */
  lemma DropHasRival(runs: seq<string>, place: seq<Place>, workers: seq<Worker>, running: set<string>,
                     v: nat, t: nat, place': seq<Place>, workers': seq<Worker>)
    requires WorkersAgree(place, workers) && RunningAgrees(runs, workers, running)
    requires |place| == |runs|
    requires v < |workers| && workers[v] == Taken(t) && RunOf(runs, t) in running && t < |place|
    requires place' == place[t := Dropped] && workers' == workers[v := Idle]
    ensures exists u: nat :: Rivals(runs, place', workers', t, u)
  {
    var w: nat :| ClaimedBy(runs, workers, w, RunOf(runs, t));
    var u := workers[w].ticket;
    assert Holds(workers, v, t) && Holds(workers, w, u);
    assert At(place, t, Held(v)) && At(place, u, Held(w));
    assert HolderOf(place', workers', u) == workers[w];
    assert Rivals(runs, place', workers', t, u);
  }

  // One step keeps every part.

  lemma NextProducers(cfg: Config, s: State, a: Action)
    requires Inv(cfg, s) && Enabled(cfg, s, a)
    ensures ProducersAgree(Next(cfg, s, a).place, Next(cfg, s, a).producers)
  {
    hide ProducersAgree, QueueAgrees, RunningAgrees, LogAgrees, DropsExplained, StopsExplained;
    match a
    case Submit(ids) => ProducersSubmit(s.place, s.producers, |ids|);
    case Send(p) => ProducersSend(s.place, s.producers, p);
    case Receive(w) =>
      QueueReceive(s.place, s.queue, Held(w));
      ProducersElse(s.place, s.producers, s.queue[0], Held(w));
    case Claim(w) =>
      assert Holds(s.workers, w, s.workers[w].ticket);
      ProducersElse(s.place, s.producers, s.workers[w].ticket, Dropped);
    case FinishAbandoned(w) =>
      assert Holds(s.workers, w, s.workers[w].ticket);
      ProducersElse(s.place, s.producers, s.workers[w].ticket, Abandoned);
    case Complete(w) =>
      assert Holds(s.workers, w, s.workers[w].ticket);
      ProducersElse(s.place, s.producers, s.workers[w].ticket, Completed);
    case _ =>
  }

  lemma NextQueue(cfg: Config, s: State, a: Action)
    requires Inv(cfg, s) && Enabled(cfg, s, a)
    ensures QueueAgrees(Next(cfg, s, a).place, Next(cfg, s, a).queue)
  {
    hide ProducersAgree, QueueAgrees, RunningAgrees, LogAgrees, DropsExplained, StopsExplained;
    match a
    case Submit(ids) => QueueSubmit(s.place, s.queue, |ids|, |s.producers|);
    case Send(p) =>
      ProducersSend(s.place, s.producers, p);
      QueueSend(s.place, s.queue, s.producers[p][0]);
    case Receive(w) => QueueReceive(s.place, s.queue, Held(w));
    case Claim(w) =>
      assert Holds(s.workers, w, s.workers[w].ticket);
      QueueElse(s.place, s.queue, s.workers[w].ticket, Dropped);
    case FinishAbandoned(w) =>
      assert Holds(s.workers, w, s.workers[w].ticket);
      QueueElse(s.place, s.queue, s.workers[w].ticket, Abandoned);
    case Complete(w) =>
      assert Holds(s.workers, w, s.workers[w].ticket);
      QueueElse(s.place, s.queue, s.workers[w].ticket, Completed);
    case _ =>
  }

  lemma NextWorkers(cfg: Config, s: State, a: Action)
    requires Inv(cfg, s) && Enabled(cfg, s, a)
    ensures WorkersAgree(Next(cfg, s, a).place, Next(cfg, s, a).workers)
  {
    hide ProducersAgree, QueueAgrees, WorkersAgree, RunningAgrees, LogAgrees, DropsExplained,
         StopsExplained, InsideCount, RunOf, IdOf;
    match a
    case Submit(ids) => WorkersSubmit(s.place, s.workers, |ids|, |s.producers|);
    case Send(p) =>
      ProducersSend(s.place, s.producers, p);
      WorkersElse(s.place, s.workers, s.producers[p][0], Queued);
    case Receive(w) =>
      QueueReceive(s.place, s.queue, Held(w));
      WorkersTake(s.place, s.workers, w, s.queue[0]);
    case Claim(w) =>
      WorkersSettle(s.place, s.workers, w, Idle, Dropped);
      WorkersStep(s.place, s.workers, w, Waiting(s.workers[w].ticket));
    case FinishAbandoned(w) => WorkersSettle(s.place, s.workers, w, Stopped, Abandoned);
    case Complete(w) => WorkersSettle(s.place, s.workers, w, Idle, Completed);
    case Cancel =>
    case Close =>
    case StopCancelled(w) => WorkersStep(s.place, s.workers, w, Stopped);
    case StopClosed(w) => WorkersStep(s.place, s.workers, w, Stopped);
    case Acquire(w) => WorkersStep(s.place, s.workers, w, Starting(s.workers[w].ticket));
    case GiveUp(w) => WorkersStep(s.place, s.workers, w, Abandoning(s.workers[w].ticket));
    case Begin(w) => WorkersStep(s.place, s.workers, w, Executing(s.workers[w].ticket));
    case Release(w) => WorkersStep(s.place, s.workers, w, Released(s.workers[w].ticket));
    case Finish(w) => WorkersStep(s.place, s.workers, w, Finished(s.workers[w].ticket));
  }

  lemma NextRunning(cfg: Config, s: State, a: Action)
    requires Inv(cfg, s) && Enabled(cfg, s, a)
    ensures RunningAgrees(Next(cfg, s, a).runs, Next(cfg, s, a).workers, Next(cfg, s, a).running)
  {
    hide ProducersAgree, QueueAgrees, RunningAgrees, WorkersAgree, LogAgrees, DropsExplained,
         StopsExplained, InsideCount;
    match a
    case Submit(ids) => RunningSubmit(s.place, s.runs, s.workers, s.running, ids);
    case Send(_) =>
    case Cancel =>
    case Close =>
    case StopCancelled(w) => RunningMove(s.runs, s.workers, s.running, w, Stopped);
    case StopClosed(w) => RunningMove(s.runs, s.workers, s.running, w, Stopped);
    case Receive(w) => RunningMove(s.runs, s.workers, s.running, w, Taken(s.queue[0]));
    case Claim(w) =>
      if IdOf(s, s.workers[w].ticket) in s.running {
        RunningMove(s.runs, s.workers, s.running, w, Idle);
      } else {
        RunningClaim(s.runs, s.workers, s.running, w);
      }
    case Acquire(w) => RunningMove(s.runs, s.workers, s.running, w, Starting(s.workers[w].ticket));
    case GiveUp(w) => RunningMove(s.runs, s.workers, s.running, w, Abandoning(s.workers[w].ticket));
    case FinishAbandoned(w) => RunningFinish(s.runs, s.workers, s.running, w, Stopped);
    case Begin(w) => RunningMove(s.runs, s.workers, s.running, w, Executing(s.workers[w].ticket));
    case Release(w) => RunningMove(s.runs, s.workers, s.running, w, Released(s.workers[w].ticket));
    case Finish(w) => RunningFinish(s.runs, s.workers, s.running, w, Finished(s.workers[w].ticket));
    case Complete(w) => RunningMove(s.runs, s.workers, s.running, w, Idle);
  }

  lemma NextSlots(cfg: Config, s: State, a: Action)
    requires Inv(cfg, s) && Enabled(cfg, s, a)
    ensures Next(cfg, s, a).slots == InsideCount(Next(cfg, s, a).workers) <= cfg.slots
  {
    hide ProducersAgree, QueueAgrees, WorkersAgree, RunningAgrees, LogAgrees, DropsExplained,
         StopsExplained, InsideCount;
    match a
    case Submit(_) =>
    case Send(_) =>
    case Cancel =>
    case Close =>
    case StopCancelled(w) => InsideChange(s.workers, w, Stopped);
    case StopClosed(w) => InsideChange(s.workers, w, Stopped);
    case Receive(w) => InsideChange(s.workers, w, Taken(s.queue[0]));
    case Claim(w) =>
      InsideChange(s.workers, w, Idle);
      InsideChange(s.workers, w, Waiting(s.workers[w].ticket));
    case Acquire(w) => InsideChange(s.workers, w, Starting(s.workers[w].ticket));
    case GiveUp(w) => InsideChange(s.workers, w, Abandoning(s.workers[w].ticket));
    case FinishAbandoned(w) => InsideChange(s.workers, w, Stopped);
    case Begin(w) => InsideChange(s.workers, w, Executing(s.workers[w].ticket));
    case Release(w) => InsideChange(s.workers, w, Released(s.workers[w].ticket));
    case Finish(w) => InsideChange(s.workers, w, Finished(s.workers[w].ticket));
    case Complete(w) => InsideChange(s.workers, w, Idle);
  }

  /** The tickets that had started or settled stay so; the log only grows where they change. */
  lemma NextLog(cfg: Config, s: State, a: Action)
    requires Inv(cfg, s) && Enabled(cfg, s, a)
    ensures LogAgrees(Next(cfg, s, a).place, Next(cfg, s, a).workers, Next(cfg, s, a).log)
  {
    hide ProducersAgree, QueueAgrees, RunningAgrees, LogAgrees, DropsExplained, StopsExplained,
         InsideCount, RunOf, WorkersAgree;
    var t := Next(cfg, s, a);
    match a
    case Begin(w) => LogBegin(s.place, s.workers, s.log, w);
    case Complete(w) =>
      HeldAt(s.place, s.workers, w);
      LogComplete(s.place, s.workers, s.log, w);
    case _ =>
      forall u: nat
        ensures HasStarted(t.place, t.workers, u) <==> HasStarted(s.place, s.workers, u)
        ensures At(t.place, u, Completed) <==> At(s.place, u, Completed)
      {
        SameProgress(cfg, s, a, u);
      }
      LogSame(s.place, s.workers, t.place, t.workers, s.log);
  }

  lemma HeldAt(place: seq<Place>, workers: seq<Worker>, w: nat)
    requires WorkersAgree(place, workers) && w < |workers| && HasTicket(workers[w])
    ensures At(place, workers[w].ticket, Held(w))
    ensures HolderOf(place, workers, workers[w].ticket) == workers[w]
    ensures forall u: nat :: At(place, u, Held(w)) ==> u == workers[w].ticket
  {
    assert Holds(workers, w, workers[w].ticket);
    forall u: nat | At(place, u, Held(w))
      ensures u == workers[w].ticket
    {
      assert Holds(workers, w, u);
    }
  }

  lemma NotHeldBy(place: seq<Place>, workers: seq<Worker>, w: nat)
    requires WorkersAgree(place, workers) && w < |workers| && !HasTicket(workers[w])
    ensures forall u: nat :: !At(place, u, Held(w))
  {
    forall u: nat
      ensures !At(place, u, Held(w))
    {
      assert !Holds(workers, w, u);
    }
  }

  // How the holder of a ticket changes.

  lemma HolderMoves(place: seq<Place>, workers: seq<Worker>, w: nat, to: Worker, u: nat)
    requires WorkersAgree(place, workers) && w < |workers| && HasTicket(workers[w])
    ensures HolderOf(place, workers[w := to], u)
            == if u == workers[w].ticket then to else HolderOf(place, workers, u)
  {
    HeldAt(place, workers, w);
    assert At(place, u, Held(w)) ==> u == workers[w].ticket;
  }

  lemma HolderSettles(place: seq<Place>, workers: seq<Worker>, w: nat, to: Worker, p: Place, u: nat)
    requires WorkersAgree(place, workers) && w < |workers| && HasTicket(workers[w])
    requires workers[w].ticket < |place| && !p.Held?
    ensures HolderOf(place[workers[w].ticket := p], workers[w := to], u)
            == if u == workers[w].ticket then Idle else HolderOf(place, workers, u)
  {
    HeldAt(place, workers, w);
    assert At(place, u, Held(w)) ==> u == workers[w].ticket;
  }

  lemma HolderTakes(place: seq<Place>, workers: seq<Worker>, w: nat, t: nat, u: nat)
    requires w < |workers| && t < |place| && !place[t].Held?
    requires forall x: nat :: !At(place, x, Held(w))
    ensures HolderOf(place[t := Held(w)], workers[w := Taken(t)], u)
            == if u == t then Taken(t) else HolderOf(place, workers, u)
    ensures HolderOf(place, workers, t) == Idle
  {
    assert !At(place, u, Held(w));
  }

  lemma HolderStops(place: seq<Place>, workers: seq<Worker>, w: nat, to: Worker, u: nat)
    requires w < |workers| && forall x: nat :: !At(place, x, Held(w))
    ensures HolderOf(place, workers[w := to], u) == HolderOf(place, workers, u)
  {
    assert !At(place, u, Held(w));
  }

  lemma HolderElse(place: seq<Place>, workers: seq<Worker>, place': seq<Place>, workers': seq<Worker>,
                   u: nat)
    requires workers == workers'
    requires (u < |place| && At(place', u, Queued) && !place[u].Held?)
             || (u < |place| <= |place'| && place'[u] == place[u])
             || (|place| <= u && (u < |place'| ==> !place'[u].Held?))
    ensures HolderOf(place', workers', u) == HolderOf(place, workers, u)
  {
  }

  predicate PastStart(w: Worker) {
    w.Executing? || w.Released? || w.Finished?
  }

  lemma MoveSame(place: seq<Place>, workers: seq<Worker>, w: nat, to: Worker, u: nat)
    requires WorkersAgree(place, workers) && w < |workers| && HasTicket(workers[w])
    requires PastStart(to) <==> PastStart(workers[w])
    ensures HasStarted(place, workers[w := to], u) <==> HasStarted(place, workers, u)
  {
    hide HolderOf, WorkersAgree;
    HeldAt(place, workers, w);
    HolderMoves(place, workers, w, to, u);
  }

  lemma SettleSame(place: seq<Place>, workers: seq<Worker>, w: nat, to: Worker, p: Place, u: nat)
    requires WorkersAgree(place, workers) && w < |workers| && HasTicket(workers[w])
    requires !PastStart(workers[w]) && (p == Dropped || p == Abandoned)
    ensures var m := workers[w].ticket;
            && m < |place|
            && (HasStarted(place[m := p], workers[w := to], u) <==> HasStarted(place, workers, u))
            && (At(place[m := p], u, Completed) <==> At(place, u, Completed))
  {
    hide HolderOf, WorkersAgree;
    HeldAt(place, workers, w);
    HolderSettles(place, workers, w, to, p, u);
  }

  /** What a step other than a start or a completion leaves as it was. */
  lemma SameProgress(cfg: Config, s: State, a: Action, u: nat)
    requires Inv(cfg, s) && Enabled(cfg, s, a) && !a.Begin? && !a.Complete?
    ensures var t := Next(cfg, s, a);
            && (HasStarted(t.place, t.workers, u) <==> HasStarted(s.place, s.workers, u))
            && (At(t.place, u, Completed) <==> At(s.place, u, Completed))
  {
    hide ProducersAgree, QueueAgrees, RunningAgrees, LogAgrees, DropsExplained, InsideCount, RunOf,
         WorkersAgree, StopsExplained, HolderOf, IdOf;
    var t := Next(cfg, s, a);
    match a
    case Submit(ids) => HolderElse(s.place, s.workers, t.place, t.workers, u);
    case Cancel =>
    case Close =>
    case Send(p) =>
      ProducersSend(s.place, s.producers, p);
      HolderElse(s.place, s.workers, t.place, t.workers, u);
    case Receive(w) =>
      QueueReceive(s.place, s.queue, Held(w));
      NotHeldBy(s.place, s.workers, w);
      HolderTakes(s.place, s.workers, w, s.queue[0], u);
    case StopCancelled(w) =>
      NotHeldBy(s.place, s.workers, w);
      HolderStops(s.place, s.workers, w, Stopped, u);
    case StopClosed(w) =>
      NotHeldBy(s.place, s.workers, w);
      HolderStops(s.place, s.workers, w, Stopped, u);
    case Claim(w) =>
      SettleSame(s.place, s.workers, w, Idle, Dropped, u);
      MoveSame(s.place, s.workers, w, Waiting(s.workers[w].ticket), u);
    case Acquire(w) => MoveSame(s.place, s.workers, w, Starting(s.workers[w].ticket), u);
    case GiveUp(w) => MoveSame(s.place, s.workers, w, Abandoning(s.workers[w].ticket), u);
    case FinishAbandoned(w) => SettleSame(s.place, s.workers, w, Stopped, Abandoned, u);
    case Release(w) => MoveSame(s.place, s.workers, w, Released(s.workers[w].ticket), u);
    case Finish(w) => MoveSame(s.place, s.workers, w, Finished(s.workers[w].ticket), u);
  }

  /** A claim is never forgotten. */
  lemma ClaimsStay(cfg: Config, s: State, a: Action, u: nat)
    requires Inv(cfg, s) && Enabled(cfg, s, a)
    ensures var t := Next(cfg, s, a);
            WasClaimed(s.place, s.workers, u) ==> WasClaimed(t.place, t.workers, u)
  {
    hide ProducersAgree, QueueAgrees, RunningAgrees, LogAgrees, DropsExplained, InsideCount, RunOf,
         WorkersAgree, StopsExplained, HolderOf, IdOf;
    var t := Next(cfg, s, a);
    match a
    case Submit(ids) => HolderElse(s.place, s.workers, t.place, t.workers, u);
    case Cancel =>
    case Close =>
    case Send(p) =>
      ProducersSend(s.place, s.producers, p);
      HolderElse(s.place, s.workers, t.place, t.workers, u);
    case Receive(w) =>
      QueueReceive(s.place, s.queue, Held(w));
      NotHeldBy(s.place, s.workers, w);
      HolderTakes(s.place, s.workers, w, s.queue[0], u);
    case StopCancelled(w) =>
      NotHeldBy(s.place, s.workers, w);
      HolderStops(s.place, s.workers, w, Stopped, u);
    case StopClosed(w) =>
      NotHeldBy(s.place, s.workers, w);
      HolderStops(s.place, s.workers, w, Stopped, u);
    case Claim(w) =>
      HeldAt(s.place, s.workers, w);
      HolderSettles(s.place, s.workers, w, Idle, Dropped, u);
      HolderMoves(s.place, s.workers, w, Waiting(s.workers[w].ticket), u);
    case Acquire(w) =>
      HeldAt(s.place, s.workers, w);
      HolderMoves(s.place, s.workers, w, Starting(s.workers[w].ticket), u);
    case GiveUp(w) =>
      HeldAt(s.place, s.workers, w);
      HolderMoves(s.place, s.workers, w, Abandoning(s.workers[w].ticket), u);
    case FinishAbandoned(w) =>
      HeldAt(s.place, s.workers, w);
      HolderSettles(s.place, s.workers, w, Stopped, Abandoned, u);
    case Begin(w) =>
      HeldAt(s.place, s.workers, w);
      HolderMoves(s.place, s.workers, w, Executing(s.workers[w].ticket), u);
    case Release(w) =>
      HeldAt(s.place, s.workers, w);
      HolderMoves(s.place, s.workers, w, Released(s.workers[w].ticket), u);
    case Finish(w) =>
      HeldAt(s.place, s.workers, w);
      HolderMoves(s.place, s.workers, w, Finished(s.workers[w].ticket), u);
    case Complete(w) =>
      HeldAt(s.place, s.workers, w);
      HolderSettles(s.place, s.workers, w, Idle, Completed, u);
  }

  /** Tickets are lost in two places only. */
  lemma NewLoss(cfg: Config, s: State, a: Action, u: nat)
    requires Inv(cfg, s) && Enabled(cfg, s, a)
    ensures var t := Next(cfg, s, a);
            && (At(t.place, u, Abandoned) && !At(s.place, u, Abandoned) ==> s.cancelled)
            && (At(t.place, u, Dropped) && !At(s.place, u, Dropped) ==>
                  a.Claim? && s.workers[a.w].ticket == u && IdOf(s, u) in s.running)
  {
    hide ProducersAgree, QueueAgrees, RunningAgrees, LogAgrees, DropsExplained, InsideCount, RunOf,
         WorkersAgree;
    match a
    case Submit(ids) =>
    case Cancel =>
    case Close =>
    case Send(p) => ProducersSend(s.place, s.producers, p);
    case Receive(w) =>
      QueueReceive(s.place, s.queue, Held(w));
      NotHeldBy(s.place, s.workers, w);
      assert !At(s.place, u, Held(w));
    case StopCancelled(w) =>
      NotHeldBy(s.place, s.workers, w);
      assert !At(s.place, u, Held(w));
    case StopClosed(w) =>
      NotHeldBy(s.place, s.workers, w);
      assert !At(s.place, u, Held(w));
    case _ =>
      HeldAt(s.place, s.workers, a.w);
      assert At(s.place, u, Held(a.w)) ==> u == s.workers[a.w].ticket;
  }

  lemma NextDrops(cfg: Config, s: State, a: Action)
    requires Inv(cfg, s) && Enabled(cfg, s, a)
    ensures DropsExplained(Next(cfg, s, a).runs, Next(cfg, s, a).place, Next(cfg, s, a).workers)
  {
    hide ProducersAgree, QueueAgrees, RunningAgrees, LogAgrees, DropsExplained, StopsExplained,
         InsideCount, WorkersAgree, WasClaimed, Next, Rivals;
    NextShape(cfg, s, a);
    var t := Next(cfg, s, a);
    var t0 := if a.Claim? then s.workers[a.w].ticket else |s.place|;
    forall u: nat
      ensures WasClaimed(s.place, s.workers, u) ==> WasClaimed(t.place, t.workers, u)
      ensures At(t.place, u, Dropped) ==> At(s.place, u, Dropped) || u == t0
    {
      ClaimsStay(cfg, s, a, u);
      NewLoss(cfg, s, a, u);
    }
    if At(t.place, t0, Dropped) && !At(s.place, t0, Dropped) {
      NewDrop(cfg, s, a, t0);
    }
    DropsStay(s.runs, t.runs, s.place, t.place, s.workers, t.workers, t0);
  }

  lemma NewDrop(cfg: Config, s: State, a: Action, t0: nat)
    requires Inv(cfg, s) && Enabled(cfg, s, a)
    requires At(Next(cfg, s, a).place, t0, Dropped) && !At(s.place, t0, Dropped)
    ensures exists u: nat ::
              Rivals(Next(cfg, s, a).runs, Next(cfg, s, a).place, Next(cfg, s, a).workers, t0, u)
  {
    hide ProducersAgree, QueueAgrees, RunningAgrees, LogAgrees, DropsExplained, StopsExplained,
         InsideCount, WorkersAgree, Rivals;
    NewLoss(cfg, s, a, t0);
    HeldAt(s.place, s.workers, a.w);
    var t := Next(cfg, s, a);
    DropHasRival(s.runs, s.place, s.workers, s.running, a.w, t0, t.place, t.workers);
  }

  lemma NextStops(cfg: Config, s: State, a: Action)
    requires Inv(cfg, s) && Enabled(cfg, s, a)
    ensures var t := Next(cfg, s, a);
            StopsExplained(t.place, t.workers, t.queue, t.cancelled, t.closed)
  {
    hide ProducersAgree, QueueAgrees, RunningAgrees, LogAgrees, DropsExplained, InsideCount,
         WorkersAgree, RunOf;
    var t := Next(cfg, s, a);
    forall u: nat | At(t.place, u, Abandoned)
      ensures t.cancelled
    {
      NewLoss(cfg, s, a, u);
    }
  }

  /** Every step keeps the whole invariant. */
  lemma NextKeeps(cfg: Config, s: State, a: Action)
    requires Inv(cfg, s) && Enabled(cfg, s, a)
    ensures Inv(cfg, Next(cfg, s, a))
  {
    hide Next, ProducersAgree, QueueAgrees, RunningAgrees, LogAgrees, DropsExplained, InsideCount,
         WorkersAgree, StopsExplained;
    NextShape(cfg, s, a);
    NextProducers(cfg, s, a);
    NextQueue(cfg, s, a);
    NextWorkers(cfg, s, a);
    NextRunning(cfg, s, a);
    NextSlots(cfg, s, a);
    NextLog(cfg, s, a);
    NextDrops(cfg, s, a);
    NextStops(cfg, s, a);
  }
}
