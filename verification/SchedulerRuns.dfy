/**
  What the scheduler guarantees over every interleaving: safety, exact accounting of tickets,
  and, while nothing is cancelled, that no submitted run id is lost.
 */
module SchedulerRuns {
  import opened Common
  import opened Scheduler

  /** The state after a sequence of actions, if each of them was possible when its turn came. */
  function Execution(cfg: Config, actions: seq<Action>): Option<State> {
    if actions == [] then Some(Start(cfg))
    else
      var front, a := actions[..|actions| - 1], actions[|actions| - 1];
      match Execution(cfg, front)
      case None => None
      case Some(s) => if Enabled(cfg, s, a) then Some(Next(cfg, s, a)) else None
  }

  lemma {:induction false} ExecutionInv(cfg: Config, actions: seq<Action>)
    ensures Execution(cfg, actions).Some? ==> Inv(cfg, Execution(cfg, actions).value)
  {
    hide Inv, Next, Enabled, Start;
    if actions == [] {
      StartInv(cfg);
    } else {
      var front, a := actions[..|actions| - 1], actions[|actions| - 1];
      ExecutionInv(cfg, front);
      if Execution(cfg, front).Some? && Enabled(cfg, Execution(cfg, front).value, a) {
        NextKeeps(cfg, Execution(cfg, front).value, a);
      }
    }
  }

  function ClaimCount(workers: seq<Worker>): nat {
    if workers == [] then 0
    else ClaimCount(workers[..|workers| - 1]) + if Claims(workers[|workers| - 1]) then 1 else 0
  }

  function ClaimedIds(runs: seq<string>, workers: seq<Worker>): set<string> {
    if workers == [] then {}
    else
      var last := workers[|workers| - 1];
      ClaimedIds(runs, workers[..|workers| - 1])
      + if Claims(last) then {RunOf(runs, last.ticket)} else {}
  }

  lemma {:induction false} ClaimedIdsAre(runs: seq<string>, workers: seq<Worker>, id: string)
    ensures id in ClaimedIds(runs, workers) <==> exists w: nat :: ClaimedBy(runs, workers, w, id)
  {
    if workers != [] {
      var n := |workers| - 1;
      ClaimedIdsAre(runs, workers[..n], id);
      if w: nat :| ClaimedBy(runs, workers, w, id) {
        assert w < n ==> ClaimedBy(runs, workers[..n], w, id);
      }
      if w: nat :| ClaimedBy(runs, workers[..n], w, id) {
        assert ClaimedBy(runs, workers, w, id);
      }
      if Claims(workers[n]) && RunOf(runs, workers[n].ticket) == id {
        assert ClaimedBy(runs, workers, n, id);
      }
    }
  }

  lemma {:induction false} ClaimsCounted(runs: seq<string>, workers: seq<Worker>)
    requires forall v: nat, w: nat, id :: ClaimedBy(runs, workers, v, id) && ClaimedBy(runs, workers, w, id)
                                          ==> v == w
    ensures |ClaimedIds(runs, workers)| == ClaimCount(workers)
  {
    if workers != [] {
      var n := |workers| - 1;
      forall v: nat, w: nat, id | ClaimedBy(runs, workers[..n], v, id) && ClaimedBy(runs, workers[..n], w, id)
        ensures v == w
      {
        assert ClaimedBy(runs, workers, v, id) && ClaimedBy(runs, workers, w, id);
      }
      ClaimsCounted(runs, workers[..n]);
      if Claims(workers[n]) {
        var id := RunOf(runs, workers[n].ticket);
        ClaimedIdsAre(runs, workers[..n], id);
        assert ClaimedBy(runs, workers, n, id);
        if w: nat :| ClaimedBy(runs, workers[..n], w, id) {
          assert ClaimedBy(runs, workers, w, id);
        }
      }
    }
  }

  /**
    Safety: the semaphore's occupancy is the number of workers inside it and within its size;
    the running set has one id for each claiming worker; two workers inside the semaphore never
    run the same id.
   */
  lemma Safety(cfg: Config, s: State)
    requires Inv(cfg, s)
    ensures s.slots == InsideCount(s.workers) <= cfg.slots
    ensures |s.queue| <= cfg.queue
    ensures s.running == ClaimedIds(s.runs, s.workers)
    ensures |s.running| == ClaimCount(s.workers)
    ensures forall v, w | 0 <= v < |s.workers| && 0 <= w < |s.workers|
                          && Inside(s.workers[v]) && Inside(s.workers[w])
                          && IdOf(s, s.workers[v].ticket) == IdOf(s, s.workers[w].ticket) :: v == w
  {
    hide ProducersAgree, QueueAgrees, WorkersAgree, LogAgrees, DropsExplained, StopsExplained;
    forall id
      ensures id in s.running <==> id in ClaimedIds(s.runs, s.workers)
    {
      ClaimedIdsAre(s.runs, s.workers, id);
    }
    ClaimsCounted(s.runs, s.workers);
    forall v, w | 0 <= v < |s.workers| && 0 <= w < |s.workers|
                  && Inside(s.workers[v]) && Inside(s.workers[w])
                  && IdOf(s, s.workers[v].ticket) == IdOf(s, s.workers[w].ticket)
      ensures v == w
    {
      var id := IdOf(s, s.workers[v].ticket);
      assert ClaimedBy(s.runs, s.workers, v, id) && ClaimedBy(s.runs, s.workers, w, id);
    }
  }

  function ExecutingCount(workers: seq<Worker>): nat {
    if workers == [] then 0
    else ExecutingCount(workers[..|workers| - 1]) + if workers[|workers| - 1].Executing? then 1 else 0
  }

  lemma {:induction false} ClaimsExceed(workers: seq<Worker>)
    ensures ExecutingCount(workers) <= ClaimCount(workers)
    ensures ExecutingCount(workers) == ClaimCount(workers)
            <==> forall w :: 0 <= w < |workers| && Claims(workers[w]) ==> workers[w].Executing?
  {
    if workers != [] {
      ClaimsExceed(workers[..|workers| - 1]);
    }
  }

  /** The size of the running set is the number of executing workers only when no claim waits or lingers. */
  lemma ActiveIsExecutingIff(cfg: Config, s: State)
    requires Inv(cfg, s)
    ensures |s.running| >= ExecutingCount(s.workers)
    ensures |s.running| == ExecutingCount(s.workers)
            <==> forall w :: 0 <= w < |s.workers| && Claims(s.workers[w]) ==> s.workers[w].Executing?
  {
    hide Inv, Claims;
    Safety(cfg, s);
    ClaimsExceed(s.workers);
  }

  /** Every submitted ticket is in exactly one place, and nothing else is anywhere. */
  lemma Accounted(cfg: Config, s: State, t: nat)
    requires Inv(cfg, s)
    ensures t < |s.runs| ==>
              match s.place[t]
              case Blocked(p) =>
                && InList(s.producers, p, t)
                && (forall q: nat :: InList(s.producers, q, t) ==> q == p)
                && t !in s.queue && (forall w: nat :: !Holds(s.workers, w, t))
              case Queued =>
                && t in s.queue
                && (forall q: nat :: !InList(s.producers, q, t))
                && (forall w: nat :: !Holds(s.workers, w, t))
              case Held(w) =>
                && Holds(s.workers, w, t)
                && (forall v: nat :: Holds(s.workers, v, t) ==> v == w)
                && t !in s.queue && (forall q: nat :: !InList(s.producers, q, t))
              case _ =>
                && t !in s.queue && (forall q: nat :: !InList(s.producers, q, t))
                && (forall w: nat :: !Holds(s.workers, w, t))
    ensures t >= |s.runs| ==>
              && t !in s.queue && (forall q: nat :: !InList(s.producers, q, t))
              && (forall w: nat :: !Holds(s.workers, w, t))
              && OnStart(t) !in s.log && OnComplete(t) !in s.log
  {
  }

  /** Exactly one start, then at most one completion, and a completion for every completed run. */
  lemma CallbacksOnce(cfg: Config, s: State, i: nat, j: nat)
    requires Inv(cfg, s) && i < |s.log| && j < |s.log|
    ensures s.log[i] == s.log[j] ==> i == j
    ensures s.log[i].OnComplete? && s.log[j] == OnStart(s.log[i].ticket) ==> j < i
    ensures s.log[i].OnComplete? ==> OnStart(s.log[i].ticket) in s.log
  {
  }

  // Progress.

  /** Steps of producers and workers that move a ticket. */
  predicate IsWork(a: Action) {
    !a.Submit? && !a.Cancel? && !a.Close? && !a.StopCancelled? && !a.StopClosed?
  }

  function MovedTicket(cfg: Config, s: State, a: Action): nat
    requires Enabled(cfg, s, a) && IsWork(a)
  {
    if a.Send? then s.producers[a.producer][0]
    else if a.Receive? then s.queue[0]
    else s.workers[a.w].ticket
  }

  function WorkerRank(w: Worker): nat {
    match w
    case Taken(_) => 6
    case Waiting(_) => 5
    case Starting(_) => 4
    case Executing(_) => 3
    case Released(_) => 2
    case Finished(_) => 1
    case Abandoning(_) => 1
    case _ => 0
  }

  /** How many steps a ticket is at most away from being settled. */
  function Rank(place: seq<Place>, workers: seq<Worker>, t: nat): nat {
    if t >= |place| then 0
    else match place[t]
      case Blocked(_) => 8
      case Queued => 7
      case Held(_) => WorkerRank(HolderOf(place, workers, t))
      case _ => 0
  }

  function RankSum(place: seq<Place>, workers: seq<Worker>, n: nat): nat {
    if n == 0 then 0 else RankSum(place, workers, n - 1) + Rank(place, workers, n - 1)
  }

  lemma {:induction false} RankSumDrops(place: seq<Place>, workers: seq<Worker>, place': seq<Place>,
                                        workers': seq<Worker>, t: nat, n: nat)
    requires forall u: nat :: u != t ==> Rank(place', workers', u) == Rank(place, workers, u)
    requires Rank(place', workers', t) < Rank(place, workers, t)
    ensures t < n ==> RankSum(place', workers', n) < RankSum(place, workers, n)
    ensures t >= n ==> RankSum(place', workers', n) == RankSum(place, workers, n)
  {
    if n > 0 {
      RankSumDrops(place, workers, place', workers', t, n - 1);
    }
  }

  lemma {:induction false} RankSumBound(place: seq<Place>, workers: seq<Worker>, n: nat)
    ensures RankSum(place, workers, n) <= 8 * n
  {
    if n > 0 {
      RankSumBound(place, workers, n - 1);
    }
  }

  lemma WorkMoves(s: State, w: nat, to: Worker, u: nat)
    requires WorkersAgree(s.place, s.workers) && w < |s.workers| && HasTicket(s.workers[w])
    requires WorkerRank(to) < WorkerRank(s.workers[w])
    ensures var m, workers := s.workers[w].ticket, s.workers[w := to];
            && m < |s.place|
            && (u != m ==> Rank(s.place, workers, u) == Rank(s.place, s.workers, u))
            && (u == m ==> Rank(s.place, workers, u) < Rank(s.place, s.workers, u))
  {
    hide HolderOf, WorkersAgree;
    HeldAt(s.place, s.workers, w);
    HolderMoves(s.place, s.workers, w, to, u);
  }

  lemma WorkSettles(s: State, w: nat, to: Worker, p: Place, u: nat)
    requires WorkersAgree(s.place, s.workers) && w < |s.workers| && HasTicket(s.workers[w])
    requires p == Dropped || p == Abandoned || p == Completed
    ensures var m, workers := s.workers[w].ticket, s.workers[w := to];
            && m < |s.place|
            && (u != m ==> Rank(s.place[m := p], workers, u) == Rank(s.place, s.workers, u))
            && (u == m ==> Rank(s.place[m := p], workers, u) < Rank(s.place, s.workers, u))
  {
    hide HolderOf, WorkersAgree;
    HeldAt(s.place, s.workers, w);
    HolderSettles(s.place, s.workers, w, to, p, u);
  }

  lemma WorkSends(s: State, m: nat, u: nat)
    requires m < |s.place| && s.place[m].Blocked?
    ensures u != m ==> Rank(s.place[m := Queued], s.workers, u) == Rank(s.place, s.workers, u)
    ensures u == m ==> Rank(s.place[m := Queued], s.workers, u) < Rank(s.place, s.workers, u)
  {
  }

  lemma WorkTakes(s: State, w: nat, m: nat, u: nat)
    requires WorkersAgree(s.place, s.workers) && w < |s.workers| && !HasTicket(s.workers[w])
    requires At(s.place, m, Queued)
    ensures var place, workers := s.place[m := Held(w)], s.workers[w := Taken(m)];
            && (u != m ==> Rank(place, workers, u) == Rank(s.place, s.workers, u))
            && (u == m ==> Rank(place, workers, u) < Rank(s.place, s.workers, u))
  {
    hide HolderOf, WorkersAgree;
    NotHeldBy(s.place, s.workers, w);
    HolderTakes(s.place, s.workers, w, m, u);
  }

  /** A working step brings one ticket nearer to its end and leaves the others where they are. */
  lemma WorkStep(cfg: Config, s: State, a: Action, u: nat)
    requires Inv(cfg, s) && Enabled(cfg, s, a) && IsWork(a)
    ensures var t, m := Next(cfg, s, a), MovedTicket(cfg, s, a);
            && m < |s.place|
            && (u != m ==> Rank(t.place, t.workers, u) == Rank(s.place, s.workers, u))
            && (u == m ==> Rank(t.place, t.workers, u) < Rank(s.place, s.workers, u))
  {
    hide ProducersAgree, QueueAgrees, RunningAgrees, LogAgrees, DropsExplained, InsideCount, RunOf,
         WorkersAgree, StopsExplained, HolderOf, IdOf, Rank;
    var t := Next(cfg, s, a);
    match a
    case Send(p) =>
      ProducersSend(s.place, s.producers, p);
      WorkSends(s, s.producers[p][0], u);
    case Receive(w) =>
      QueueReceive(s.place, s.queue, Held(w));
      WorkTakes(s, w, s.queue[0], u);
    case Claim(w) =>
      WorkSettles(s, w, Idle, Dropped, u);
      WorkMoves(s, w, Waiting(s.workers[w].ticket), u);
    case FinishAbandoned(w) => WorkSettles(s, w, Stopped, Abandoned, u);
    case Complete(w) => WorkSettles(s, w, Idle, Completed, u);
    case Acquire(w) => WorkMoves(s, w, Starting(s.workers[w].ticket), u);
    case GiveUp(w) => WorkMoves(s, w, Abandoning(s.workers[w].ticket), u);
    case Begin(w) => WorkMoves(s, w, Executing(s.workers[w].ticket), u);
    case Release(w) => WorkMoves(s, w, Released(s.workers[w].ticket), u);
    case Finish(w) => WorkMoves(s, w, Finished(s.workers[w].ticket), u);
  }

  /** A working step takes from the sum of what the tickets still have before them. */
  lemma WorkCounts(cfg: Config, s: State, a: Action)
    requires Inv(cfg, s) && Enabled(cfg, s, a) && IsWork(a)
    ensures var t := Next(cfg, s, a);
            && t.runs == s.runs
            && RankSum(t.place, t.workers, |t.runs|) < RankSum(s.place, s.workers, |s.runs|)
  {
    hide Inv, Rank, RankSum;
    var t := Next(cfg, s, a);
    forall u: nat
      ensures var m := MovedTicket(cfg, s, a);
              && m < |s.place| == |s.runs|
              && (u != m ==> Rank(t.place, t.workers, u) == Rank(s.place, s.workers, u))
              && (u == m ==> Rank(t.place, t.workers, u) < Rank(s.place, s.workers, u))
    {
      WorkStep(cfg, s, a, u);
      InvSizes(cfg, s);
    }
    RankSumDrops(s.place, s.workers, t.place, t.workers, MovedTicket(cfg, s, a), |s.runs|);
  }

  lemma {:induction false} RankSumSame(place: seq<Place>, workers: seq<Worker>, workers': seq<Worker>, n: nat)
    requires forall u: nat :: HolderOf(place, workers', u) == HolderOf(place, workers, u)
    ensures RankSum(place, workers', n) == RankSum(place, workers, n)
  {
    if n > 0 {
      RankSumSame(place, workers, workers', n - 1);
    }
  }

  /** Cancelling, closing and stopping an idle worker leave every ticket where it is. */
  lemma OtherCounts(cfg: Config, s: State, a: Action)
    requires Inv(cfg, s) && Enabled(cfg, s, a) && !IsWork(a) && !a.Submit?
    ensures var t := Next(cfg, s, a);
            && t.runs == s.runs
            && RankSum(t.place, t.workers, |t.runs|) == RankSum(s.place, s.workers, |s.runs|)
  {
    hide RankSum, HolderOf, WorkersAgree, InsideCount;
    if a.StopCancelled? || a.StopClosed? {
      NotHeldBy(s.place, s.workers, a.w);
      forall u: nat
        ensures HolderOf(s.place, s.workers[a.w := Stopped], u) == HolderOf(s.place, s.workers, u)
      {
        HolderStops(s.place, s.workers, a.w, Stopped, u);
      }
      RankSumSame(s.place, s.workers, s.workers[a.w := Stopped], |s.runs|);
    }
  }

  function WorkIn(actions: seq<Action>): nat {
    if actions == [] then 0
    else WorkIn(actions[..|actions| - 1]) + if IsWork(actions[|actions| - 1]) then 1 else 0
  }

  lemma {:induction false} WorkSpent(cfg: Config, e: seq<Action>, r: seq<Action>)
    requires Execution(cfg, e + r).Some? && forall a :: a in r ==> !a.Submit?
    ensures Execution(cfg, e).Some?
    ensures var s, t := Execution(cfg, e).value, Execution(cfg, e + r).value;
            && t.runs == s.runs
            && WorkIn(r) + RankSum(t.place, t.workers, |t.runs|) <= RankSum(s.place, s.workers, |s.runs|)
  {
    hide Inv, Rank, RankSum, Next, Enabled;
    if r == [] {
      assert e + r == e;
    } else {
      var front, a := r[..|r| - 1], r[|r| - 1];
      assert (e + r)[..|e + r| - 1] == e + front && (e + r)[|e + r| - 1] == a;
      WorkSpent(cfg, e, front);
      ExecutionInv(cfg, e + front);
      var s := Execution(cfg, e + front).value;
      if IsWork(a) {
        WorkCounts(cfg, s, a);
      } else {
        OtherCounts(cfg, s, a);
      }
    }
  }

  /**
    However a run goes on after its last submission, at most eight working steps for each
    ticket can follow, whatever cancelling, closing and stopping happens between them.
   */
  lemma WorkEnds(cfg: Config, e: seq<Action>, r: seq<Action>)
    requires Execution(cfg, e + r).Some? && forall a :: a in r ==> !a.Submit?
    ensures Execution(cfg, e).Some?
    ensures WorkIn(r) <= 8 * |Execution(cfg, e).value.runs|
  {
    hide Execution, WorkIn, RankSum, Rank;
    WorkSpent(cfg, e, r);
    var s := Execution(cfg, e).value;
    RankSumBound(s.place, s.workers, |s.runs|);
  }

  lemma InvSizes(cfg: Config, s: State)
    requires Inv(cfg, s)
    ensures |s.place| == |s.runs| && |s.workers| == cfg.workers
  {
  }

  /** No producer and no worker can do anything more. */
  ghost predicate Quiescent(cfg: Config, s: State) {
    forall a: Action :: IsWork(a) ==> !Enabled(cfg, s, a)
  }

  lemma {:induction false} NobodyInside(workers: seq<Worker>)
    ensures InsideCount(workers) == 0 <==> forall w :: 0 <= w < |workers| ==> !Inside(workers[w])
  {
    if workers != [] {
      NobodyInside(workers[..|workers| - 1]);
    }
  }

  lemma AllAtRest(cfg: Config, s: State)
    requires Inv(cfg, s) && Quiescent(cfg, s) && cfg.slots >= 1 && !s.cancelled
    ensures forall w :: 0 <= w < |s.workers| ==> s.workers[w].Idle? || s.workers[w].Stopped?
  {
    hide ProducersAgree, QueueAgrees, RunningAgrees, WorkersAgree, LogAgrees, DropsExplained;
    NobodyInside(s.workers);
    forall w: nat | w < |s.workers|
      ensures !Inside(s.workers[w])
    {
      assert !Enabled(cfg, s, Begin(w));
      assert !Enabled(cfg, s, Release(w));
    }
    forall w: nat | w < |s.workers|
      ensures s.workers[w].Idle? || s.workers[w].Stopped?
    {
      assert !Enabled(cfg, s, Claim(w));
      assert !Enabled(cfg, s, Acquire(w));
      assert !Enabled(cfg, s, Finish(w));
      assert !Enabled(cfg, s, Complete(w));
    }
  }

  /**
    No deadlock and no loss: while nothing is cancelled, the scheduler can only come to rest
    with every ticket completed or dropped as a duplicate.
   */
  lemma RestIsSettled(cfg: Config, s: State, t: nat)
    requires Inv(cfg, s) && Quiescent(cfg, s) && t < |s.place|
    requires cfg.workers >= 1 && cfg.slots >= 1 && cfg.queue >= 1
    requires !s.cancelled
    requires s.closed ==> forall u :: 0 <= u < |s.place| ==> !s.place[u].Blocked?
    ensures s.place[t] == Completed || s.place[t] == Dropped
  {
    hide RunningAgrees, LogAgrees, DropsExplained, InsideCount;
    AllAtRest(cfg, s);
    assert !Enabled(cfg, s, Receive(0));
    assert s.workers[0].Idle? || s.workers[0].Stopped?;
    assert s.queue == [];
    assert !At(s.place, t, Queued);
    assert !At(s.place, t, Abandoned);
    forall p: nat
      ensures !At(s.place, t, Blocked(p))
    {
      assert InList(s.producers, p, t) <==> At(s.place, t, Blocked(p));
      assert !Enabled(cfg, s, Send(p));
    }
    forall w: nat
      ensures !At(s.place, t, Held(w))
    {
      assert Holds(s.workers, w, t) <==> At(s.place, t, Held(w));
    }
    AtSome(s.place, t);
  }

  lemma AtSome(place: seq<Place>, t: nat)
    requires t < |place|
    ensures At(place, t, place[t])
  {
  }

  /** Every run id that was submitted has been completed by then, duplicates included. */
  lemma EveryIdCompletes(cfg: Config, s: State, t: nat)
    requires Inv(cfg, s) && Quiescent(cfg, s) && t < |s.place|
    requires cfg.workers >= 1 && cfg.slots >= 1 && cfg.queue >= 1
    requires !s.cancelled
    requires s.closed ==> forall u :: 0 <= u < |s.place| ==> !s.place[u].Blocked?
    ensures exists u: nat :: OnComplete(u) in s.log && u < |s.runs| && s.runs[u] == s.runs[t]
  {
    hide ProducersAgree, QueueAgrees, RunningAgrees, StopsExplained, InsideCount, Quiescent, WorkersAgree;
    RestIsSettled(cfg, s, t);
    if s.place[t] == Completed {
      assert At(s.place, t, Completed) && OnComplete(t) in s.log;
    } else {
      assert At(s.place, t, Dropped);
      var u: nat :| Rivals(s.runs, s.place, s.workers, t, u);
      RestIsSettled(cfg, s, u);
      assert At(s.place, u, Completed) && OnComplete(u) in s.log;
    }
  }

  // Rest after a stop.

  /** Nothing is possible any more but submitting, closing and cancelling. */
  ghost predicate Halted(cfg: Config, s: State) {
    forall a: Action :: !a.Submit? && !a.Cancel? && !a.Close? ==> !Enabled(cfg, s, a)
  }

  lemma AllStopped(cfg: Config, s: State, w: nat)
    requires Inv(cfg, s) && Halted(cfg, s) && cfg.slots >= 1 && w < |s.workers|
    requires s.cancelled || s.closed
    ensures s.workers[w].Stopped?
  {
    hide ProducersAgree, QueueAgrees, RunningAgrees, WorkersAgree, LogAgrees, DropsExplained, StopsExplained,
         InsideCount, Halted;
    if s.cancelled {
      NobodyInside(s.workers);
      assert !Enabled(cfg, s, StopCancelled(w)) && !Enabled(cfg, s, GiveUp(w)) && !Enabled(cfg, s, Claim(w))
             && !Enabled(cfg, s, FinishAbandoned(w)) && !Enabled(cfg, s, Begin(w)) && !Enabled(cfg, s, Release(w))
             && !Enabled(cfg, s, Finish(w)) && !Enabled(cfg, s, Complete(w)) by {
        HaltedAt(cfg, s, w);
      }
    } else {
      assert Quiescent(cfg, s) by {
        QuietToo(cfg, s);
      }
      AllAtRest(cfg, s);
      HaltedAt(cfg, s, w);
    }
  }

  lemma QuietToo(cfg: Config, s: State)
    requires Halted(cfg, s)
    ensures Quiescent(cfg, s)
  {
  }

  lemma HaltedAt(cfg: Config, s: State, w: nat)
    requires Halted(cfg, s)
    ensures !Enabled(cfg, s, StopCancelled(w)) && !Enabled(cfg, s, StopClosed(w)) && !Enabled(cfg, s, Receive(w))
    ensures !Enabled(cfg, s, GiveUp(w)) && !Enabled(cfg, s, FinishAbandoned(w)) && !Enabled(cfg, s, Claim(w))
    ensures !Enabled(cfg, s, Begin(w)) && !Enabled(cfg, s, Release(w))
    ensures !Enabled(cfg, s, Finish(w)) && !Enabled(cfg, s, Complete(w))
  {
  }

  /**
    A cancelled or closed scheduler that has nothing left to do has stopped every worker, and
    none of them kept a ticket, a claim on an id or a place in the semaphore.
   */
  lemma StopLeaksNothing(cfg: Config, s: State)
    requires Inv(cfg, s) && Halted(cfg, s) && cfg.slots >= 1
    requires s.cancelled || s.closed
    ensures forall w :: 0 <= w < |s.workers| ==> s.workers[w].Stopped?
    ensures s.running == {} && s.slots == 0
    ensures forall t :: 0 <= t < |s.place| ==> !s.place[t].Held?
  {
    hide ProducersAgree, QueueAgrees, LogAgrees, DropsExplained, StopsExplained, InsideCount, Halted;
    forall w: nat | w < |s.workers|
      ensures s.workers[w].Stopped?
    {
      AllStopped(cfg, s, w);
    }
    NobodyInside(s.workers);
    forall id
      ensures id !in s.running
    {
      assert forall w: nat :: !ClaimedBy(s.runs, s.workers, w, id);
    }
    forall t: nat | t < |s.place|
      ensures !s.place[t].Held?
    {
      assert forall w: nat :: !Holds(s.workers, w, t);
      assert forall w: nat :: Holds(s.workers, w, t) <==> At(s.place, t, Held(w));
      AtSome(s.place, t);
    }
  }

  // Callbacks of one id cross exactly with several workers.

  lemma Do(cfg: Config, e: seq<Action>, s: State, a: Action) returns (e': seq<Action>, t: State)
    requires Execution(cfg, e) == Some(s) && Enabled(cfg, s, a)
    ensures e' == e + [a] && t == Next(cfg, s, a) && Execution(cfg, e') == Some(t)
  {
    e', t := e + [a], Next(cfg, s, a);
    assert e'[..|e|] == e;
  }

  /** A claimed run that waits for a slot is counted, although nothing executes. */
  lemma WaitingIsActive(cfg: Config) returns (e: seq<Action>, s: State)
    requires cfg.workers >= 1 && cfg.queue >= 1
    ensures Execution(cfg, e) == Some(s)
    ensures |s.running| == 1 && ExecutingCount(s.workers) == 0
  {
    hide Execution, ExecutingCount;
    e, s := [], Start(cfg);
    ExecutionOfNothing(cfg);
    e, s := Do(cfg, e, s, Submit(["X"]));
    assert Tickets(0, 1) == [0];
    assert s.producers[0] == [0];
    e, s := Do(cfg, e, s, Send(0));
    e, s := Do(cfg, e, s, Receive(0));
    e, s := Do(cfg, e, s, Claim(0));
    NoneExecuting(s.workers);
  }

  lemma {:induction false} NoneExecuting(workers: seq<Worker>)
    requires forall w :: 0 <= w < |workers| ==> !workers[w].Executing?
    ensures ExecutingCount(workers) == 0
  {
    if workers != [] {
      NoneExecuting(workers[..|workers| - 1]);
    }
  }

  /** Two tickets of one id are queued. */
  lemma TwoQueued(cfg: Config) returns (e: seq<Action>, s: State)
    requires cfg.workers >= 2 && cfg.queue >= 2
    ensures Execution(cfg, e) == Some(s)
    ensures s.runs == ["X", "X"] && s.queue == [0, 1] && |s.place| == 2
    ensures |s.workers| >= 2 && s.workers[0] == s.workers[1] == Idle
    ensures s.slots == 0 && s.running == {} && s.log == []
  {
    hide Execution;
    e, s := [], Start(cfg);
    assert Execution(cfg, e) == Some(s) by {
      ExecutionOfNothing(cfg);
    }
    e, s := Do(cfg, e, s, Submit(["X", "X"]));
    assert Tickets(0, 2) == [0, 1];
    assert s.producers[0] == [0, 1];
    e, s := Do(cfg, e, s, Send(0));
    e, s := Do(cfg, e, s, Send(0));
  }

  lemma ExecutionOfNothing(cfg: Config)
    ensures Execution(cfg, []) == Some(Start(cfg))
  {
  }

  /** A worker takes the first queued ticket and makes its start callback. */
  lemma OneStarts(cfg: Config, e: seq<Action>, s: State, w: nat) returns (e': seq<Action>, s': State)
    requires Execution(cfg, e) == Some(s) && w < |s.workers| && s.workers[w] == Idle
    requires s.queue != [] && s.queue[0] < |s.place| && s.slots < cfg.slots
    requires RunOf(s.runs, s.queue[0]) !in s.running
    ensures Execution(cfg, e') == Some(s')
    ensures s'.runs == s.runs && s'.queue == s.queue[1..] && |s'.place| == |s.place| && s'.closed == s.closed
    ensures s'.workers == s.workers[w := Executing(s.queue[0])]
    ensures s'.slots == s.slots + 1 && s'.running == s.running + {RunOf(s.runs, s.queue[0])}
    ensures s'.log == s.log + [OnStart(s.queue[0])]
  {
    hide Execution;
    e', s' := Do(cfg, e, s, Receive(w));
    e', s' := Do(cfg, e', s', Claim(w));
    e', s' := Do(cfg, e', s', Acquire(w));
    e', s' := Do(cfg, e', s', Begin(w));
  }

  /**
    Callbacks of one id do not cross: of two tickets of the same id, the earlier one to report
    its start reports its completion before the later one starts.
   */
  ghost predicate NoCrossing(s: State) {
    forall i, j :: 0 <= i < j < |s.log| && s.log[i].OnStart? && s.log[j].OnStart?
                   && IdOf(s, s.log[i].ticket) == IdOf(s, s.log[j].ticket)
                   ==> OnComplete(s.log[i].ticket) in s.log[i + 1..j]
  }

  /** Each start callback finds every earlier start completed. */
  ghost predicate OneByOne(log: seq<Callback>) {
    forall i, j :: 0 <= i < j < |log| && log[i].OnStart? && log[j].OnStart?
                   ==> OnComplete(log[i].ticket) in log[..j]
  }

  lemma OneMore(log: seq<Callback>, c: Callback)
    requires OneByOne(log)
    requires c.OnStart? ==> forall t: nat :: OnStart(t) in log ==> OnComplete(t) in log
    ensures OneByOne(log + [c])
  {
    var all := log + [c];
    forall i, j | 0 <= i < j < |all| && all[i].OnStart? && all[j].OnStart?
      ensures OnComplete(all[i].ticket) in all[..j]
    {
      assert all[..j] == log[..j];
      assert OnStart(all[i].ticket) in log;
    }
  }

  /** When the only worker is about to start a ticket, every ticket that started has completed. */
  lemma StartsAfterAll(cfg: Config, s: State, t: nat)
    requires Inv(cfg, s) && cfg.workers <= 1 && s.workers != [] && s.workers[0].Starting?
    ensures OnStart(t) in s.log ==> OnComplete(t) in s.log
  {
    hide ProducersAgree, QueueAgrees, RunningAgrees, WorkersAgree, DropsExplained, StopsExplained, InsideCount;
    assert OnStart(t) in s.log <==> HasStarted(s.place, s.workers, t);
    assert OnComplete(t) in s.log <==> At(s.place, t, Completed);
  }

  lemma NextOneByOne(cfg: Config, s: State, a: Action)
    requires Inv(cfg, s) && Enabled(cfg, s, a) && cfg.workers <= 1
    requires OneByOne(s.log)
    ensures OneByOne(Next(cfg, s, a).log)
  {
    hide ProducersAgree, QueueAgrees, RunningAgrees, WorkersAgree, LogAgrees, DropsExplained, StopsExplained,
         InsideCount, OneByOne;
    match a
    case Begin(w) =>
      forall t: nat | OnStart(t) in s.log
        ensures OnComplete(t) in s.log
      {
        StartsAfterAll(cfg, s, t);
      }
      OneMore(s.log, OnStart(s.workers[w].ticket));
    case Complete(w) => OneMore(s.log, OnComplete(s.workers[w].ticket));
    case _ =>
  }

  lemma NothingStarted()
    ensures OneByOne([])
  {
  }

  lemma {:induction false} SingleWorkerInTurn(cfg: Config, e: seq<Action>)
    requires cfg.workers <= 1
    ensures Execution(cfg, e).Some? ==> OneByOne(Execution(cfg, e).value.log)
  {
    hide Inv, Next, Enabled, OneByOne;
    if e == [] {
      NothingStarted();
    } else {
      var front, a := e[..|e| - 1], e[|e| - 1];
      SingleWorkerInTurn(cfg, front);
      if Execution(cfg, e).Some? {
        ExecutionInv(cfg, front);
        NextOneByOne(cfg, Execution(cfg, front).value, a);
      }
    }
  }

  lemma InTurnIsNoCrossing(cfg: Config, s: State)
    requires Inv(cfg, s) && OneByOne(s.log)
    ensures NoCrossing(s)
  {
    forall i, j | 0 <= i < j < |s.log| && s.log[i].OnStart? && s.log[j].OnStart?
      ensures OnComplete(s.log[i].ticket) in s.log[i + 1..j]
    {
      var k :| 0 <= k < j && s.log[..j][k] == OnComplete(s.log[i].ticket);
      CallbacksOnce(cfg, s, k, i);
      assert s.log[i + 1..j][k - i - 1] == s.log[k];
    }
  }

  /**
    The claim on an id ends before the completion callback, so with a second worker the second
    ticket of an id may report its start before the first reports its completion.
   */
  lemma CallbacksMayCross(cfg: Config) returns (e: seq<Action>, s: State)
    requires cfg.workers >= 2 && cfg.queue >= 2 && cfg.slots >= 1
    ensures Execution(cfg, e) == Some(s)
    ensures s.runs == ["X", "X"] && s.log == [OnStart(0), OnStart(1), OnComplete(0)]
    ensures !NoCrossing(s)
  {
    hide Execution, NoCrossing;
    e, s := TwoQueued(cfg);
    e, s := OneStarts(cfg, e, s, 0);
    e, s := Do(cfg, e, s, Release(0));
    e, s := Do(cfg, e, s, Finish(0));
    e, s := OneStarts(cfg, e, s, 1);
    e, s := Do(cfg, e, s, Complete(0));
    CrossedAt(s);
  }

  lemma CrossedAt(s: State)
    requires s.runs == ["X", "X"] && s.log == [OnStart(0), OnStart(1), OnComplete(0)]
    ensures !NoCrossing(s)
  {
    assert s.log[0] == OnStart(0) && s.log[1] == OnStart(1) && s.log[1..1] == [];
  }

  /** Callbacks of one id never cross exactly when the scheduler has a single worker. */
  lemma NoCrossingIff(workers: int, maxConcurrent: int)
    ensures var cfg := NewConfig(workers, maxConcurrent);
            (forall e :: Execution(cfg, e).Some? ==> NoCrossing(Execution(cfg, e).value)) <==> workers <= 1
  {
    hide Execution, NoCrossing, Inv, OneByOne;
    var cfg := NewConfig(workers, maxConcurrent);
    if workers <= 1 {
      forall e | Execution(cfg, e).Some?
        ensures NoCrossing(Execution(cfg, e).value)
      {
        SingleWorkerInTurn(cfg, e);
        ExecutionInv(cfg, e);
        InTurnIsNoCrossing(cfg, Execution(cfg, e).value);
      }
    } else {
      var e, s := CallbacksMayCross(cfg);
    }
  }

  // How many runs execute together.

  /** A run id of `n` characters. */
  function LongId(n: nat): (id: string)
    ensures |id| == n
  {
    if n == 0 then "" else LongId(n - 1) + "X"
  }

  /** The first `n` workers execute runs with different ids and the others are idle. */
  ghost predicate Together(cfg: Config, s: State, n: nat) {
    && |s.workers| == cfg.workers && s.slots == n && s.queue == [] && !s.closed && |s.place| == |s.runs|
    && (forall w :: 0 <= w < |s.workers| ==> if w < n then s.workers[w].Executing? else s.workers[w].Idle?)
    && (forall id :: id in s.running ==> |id| < n)
  }

  /** One more run is submitted, sent, received, claimed and started. */
  lemma OneMoreTogether(cfg: Config, e: seq<Action>, s: State, n: nat) returns (e': seq<Action>, s': State)
    requires Execution(cfg, e) == Some(s) && Together(cfg, s, n)
    requires n < cfg.workers && n < cfg.slots && cfg.queue >= 1
    ensures Execution(cfg, e') == Some(s') && Together(cfg, s', n + 1)
  {
    hide Execution;
    var t, p := |s.runs|, |s.producers|;
    e', s' := Do(cfg, e, s, Submit([LongId(n)]));
    assert Tickets(t, 1) == [t] && s'.producers[p] == [t];
    e', s' := Do(cfg, e', s', Send(p));
    assert s'.queue == [t] && RunOf(s'.runs, t) == LongId(n);
    e', s' := OneStarts(cfg, e', s', n);
  }

  /** Up to the number of workers and the number of slots, any number of runs can execute together. */
  lemma {:induction false} ReachTogether(cfg: Config, n: nat) returns (e: seq<Action>, s: State)
    requires n <= cfg.workers && n <= cfg.slots && cfg.queue >= 1
    ensures Execution(cfg, e) == Some(s) && Together(cfg, s, n)
  {
    hide Execution;
    if n == 0 {
      e, s := [], Start(cfg);
      ExecutionOfNothing(cfg);
    } else {
      e, s := ReachTogether(cfg, n - 1);
      e, s := OneMoreTogether(cfg, e, s, n - 1);
    }
  }

  lemma {:induction false} ExecutingFirst(workers: seq<Worker>, n: nat)
    requires n <= |workers|
    requires forall w :: 0 <= w < |workers| ==> (workers[w].Executing? <==> w < n)
    ensures ExecutingCount(workers) == n
  {
    if workers != [] {
      var m := |workers| - 1;
      ExecutingFirst(workers[..m], if n <= m then n else m);
    }
  }

  lemma {:induction false} ExecutingInside(workers: seq<Worker>)
    ensures ExecutingCount(workers) <= InsideCount(workers) && ExecutingCount(workers) <= |workers|
  {
    if workers != [] {
      ExecutingInside(workers[..|workers| - 1]);
    }
  }

  /** Some interleaving has `n` workers executing at once. */
  ghost predicate CanExecute(cfg: Config, n: nat) {
    exists e :: Execution(cfg, e).Some? && ExecutingCount(Execution(cfg, e).value.workers) == n
  }

  /** As many runs can execute at once as there are both workers and slots for, and no more. */
  lemma ExecuteTogetherIff(cfg: Config, n: nat)
    requires cfg.queue >= 1
    ensures CanExecute(cfg, n) <==> n <= cfg.workers && n <= cfg.slots
  {
    hide Execution;
    if CanExecute(cfg, n) {
      var e :| Execution(cfg, e).Some? && ExecutingCount(Execution(cfg, e).value.workers) == n;
      OccupancyBound(cfg, e);
    }
    if n <= cfg.workers && n <= cfg.slots {
      var e, s := ReachTogether(cfg, n);
      ExecutingFirst(s.workers, n);
    }
  }

  lemma OccupancyBound(cfg: Config, e: seq<Action>)
    requires Execution(cfg, e).Some?
    ensures ExecutingCount(Execution(cfg, e).value.workers) <= cfg.workers
    ensures ExecutingCount(Execution(cfg, e).value.workers) <= cfg.slots
  {
    hide Execution, Inv;
    ExecutionInv(cfg, e);
    var s := Execution(cfg, e).value;
    Safety(cfg, s);
    InvSizes(cfg, s);
    ExecutingInside(s.workers);
  }
}
