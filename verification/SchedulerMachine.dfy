/**
  The scheduler with its queue, semaphore and running set updated in place. One call of
  `Perform` is one atomic step of some producer or worker; the caller chooses which.
 */
module SchedulerMachine {
  import opened Common
  import opened Scheduler

  class Dispatcher {
    const cfg: Config
    var runs: seq<string>
    var producers: seq<seq<nat>>
    var queue: seq<nat>
    var workers: seq<Worker>
    var slots: nat
    var running: set<string>
    var log: seq<Callback>
    var cancelled: bool
    var closed: bool
    ghost var place: seq<Place>

    ghost function View(): State
      reads this
    {
      State(runs, producers, queue, workers, slots, running, place, log, cancelled, closed)
    }

    ghost predicate Valid()
      reads this
    {
      Inv(cfg, View())
    }

    constructor (workerCount: int, maxConcurrent: int)
      ensures cfg == NewConfig(workerCount, maxConcurrent)
      ensures Valid() && View() == Start(cfg)
    {
      cfg := NewConfig(workerCount, maxConcurrent);
      runs, producers, queue := [], [], [];
      workers := seq(NewConfig(workerCount, maxConcurrent).workers, _ => Idle);
      slots, running, log, place := 0, {}, [], [];
      cancelled, closed := false, false;
      new;
      StartInv(cfg);
    }

    /** Claims the id unless it is claimed already. */
    method TryStart(id: string) returns (ok: bool)
      modifies this`running
      ensures ok <==> id !in old(running)
      ensures running == old(running) + {id}
    {
      if id in running {
        assert running == running + {id};
        return false;
      }
      running := running + {id};
      return true;
    }

    method FinishRun(id: string)
      modifies this`running
      ensures running == old(running) - {id}
    {
      running := running - {id};
    }

    method Settle(w: nat, to: Worker, ghost p: Place)
      requires w < |workers| && HasTicket(workers[w])
      modifies this`workers, this`place
      ensures workers == old(workers)[w := to]
      ensures place == if old(workers)[w].ticket < |old(place)|
                       then old(place)[old(workers)[w].ticket := p] else old(place)
    {
      if workers[w].ticket < |place| {
        place := place[workers[w].ticket := p];
      }
      workers := workers[w := to];
    }

    /** A step of the channel ends: submitting, sending, cancelling, closing. */
    method PerformOutside(a: Action)
      requires Enabled(cfg, View(), a)
      requires a.Submit? || a.Send? || a.Cancel? || a.Close?
      modifies this
      ensures View() == Next(cfg, old(View()), a)
    {
      match a {
        case Submit(ids) =>
          ghost var n := |producers|;
          producers := producers + [Tickets(|runs|, |ids|)];
          place := place + seq(|ids|, _ => Blocked(n));
          runs := runs + ids;
          assert place == Next(cfg, old(View()), a).place;
        case Send(p) =>
          var t := producers[p][0];
          producers := producers[p := producers[p][1..]];
          queue := queue + [t];
          if t < |place| {
            place := place[t := Queued];
          }
        case Cancel =>
          cancelled := true;
        case Close =>
          closed := true;
      }
    }

    /** An idle worker takes the first ticket of the queue. */
    method PerformReceive(w: nat)
      requires Enabled(cfg, View(), Receive(w))
      modifies this
      ensures View() == Next(cfg, old(View()), Receive(w))
    {
      var t := queue[0];
      queue := queue[1..];
      workers := workers[w := Taken(t)];
      if t < |place| {
        place := place[t := Held(w)];
      }
    }

    /** The id of a taken ticket is claimed, or the ticket dropped. */
    method PerformClaim(w: nat)
      requires Enabled(cfg, View(), Claim(w))
      modifies this
      ensures View() == Next(cfg, old(View()), Claim(w))
    {
      var t := workers[w].ticket;
      var ok := TryStart(RunOf(runs, t));
      if ok {
        workers := workers[w := Waiting(t)];
      } else {
        assert running == old(running);
        Settle(w, Idle, Dropped);
      }
    }

    /** A worker reports the end of its ticket, or gives it up for good. */
    method PerformSettle(a: Action)
      requires Enabled(cfg, View(), a)
      requires a.FinishAbandoned? || a.Complete?
      modifies this
      ensures View() == Next(cfg, old(View()), a)
    {
      match a {
        case FinishAbandoned(w) =>
          FinishRun(RunOf(runs, workers[w].ticket));
          Settle(w, Stopped, Abandoned);
        case Complete(w) =>
          log := log + [OnComplete(workers[w].ticket)];
          Settle(w, Idle, Completed);
      }
    }

    /** A step that moves a worker on with the ticket it has, or stops an idle one. */
    method PerformWorker(a: Action)
      requires Enabled(cfg, View(), a)
      requires !a.Submit? && !a.Send? && !a.Cancel? && !a.Close?
      requires !a.Receive? && !a.Claim? && !a.FinishAbandoned? && !a.Complete?
      modifies this
      ensures View() == Next(cfg, old(View()), a)
    {
      match a {
        case StopCancelled(w) =>
          workers := workers[w := Stopped];
        case StopClosed(w) =>
          workers := workers[w := Stopped];
        case Acquire(w) =>
          slots := slots + 1;
          workers := workers[w := Starting(workers[w].ticket)];
        case GiveUp(w) =>
          workers := workers[w := Abandoning(workers[w].ticket)];
        case Begin(w) =>
          log := log + [OnStart(workers[w].ticket)];
          workers := workers[w := Executing(workers[w].ticket)];
        case Release(w) =>
          slots := slots - 1;
          workers := workers[w := Released(workers[w].ticket)];
        case Finish(w) =>
          FinishRun(RunOf(runs, workers[w].ticket));
          workers := workers[w := Finished(workers[w].ticket)];
      }
    }

    method Perform(a: Action)
      requires Valid() && Enabled(cfg, View(), a)
      modifies this
      ensures Valid()
      ensures View() == Next(cfg, old(View()), a)
    {
      hide Inv, Next, Enabled;
      NextKeeps(cfg, View(), a);
      if a.Submit? || a.Send? || a.Cancel? || a.Close? {
        PerformOutside(a);
      } else if a.Receive? {
        PerformReceive(a.w);
      } else if a.Claim? {
        PerformClaim(a.w);
      } else if a.FinishAbandoned? || a.Complete? {
        PerformSettle(a);
      } else {
        PerformWorker(a);
      }
    }
  }
}
