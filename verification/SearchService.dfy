/** The search service as the object whose map of flights the callers, tasks and guards update under its lock. */
module SearchServices {
  import opened Prelude
  import opened Songs
  import F = Flights

  class SearchService {
    const key: bool
    const limit: int
    var flights: map<string, F.FlightId>
    var tasks: map<F.FlightId, F.Flight>
    var waiters: map<nat, F.Waiter>
    var serial: nat
    var attempts: map<int, int>
    var asked: seq<int>
    var orphans: set<F.FlightId>

    ghost function State(): F.Service
      reads this
    {
      F.Service(key, limit, flights, tasks, waiters, serial, attempts, asked, orphans)
    }

    constructor (key: bool, limit: int)
      ensures State() == F.Service(key, limit, map[], map[], map[], 0, map[], [], {})
    {
      this.key, this.limit := key, limit;
      flights, tasks, waiters, serial, attempts, asked, orphans := map[], map[], map[], 0, map[], [], {};
    }

    /** Joins the query's flight, or spawns one that will own the attempt. */
    method Discover(query: string)
      modifies this
      ensures State() == F.Discover(old(State()), query)
    {
      var flight := serial;
      if query in flights {
        flight := flights[query];
      } else {
        flights := flights[query := serial];
        tasks := tasks[serial := F.Flight(query, F.Progress(None, false), F.Spawned)];
      }
      waiters := waiters[serial := F.Waiter(flight, None)];
      serial := serial + 1;
    }

    method Return(w: nat) returns (o: F.Outcome)
      requires w in waiters && waiters[w].flight in tasks
      modifies this
      ensures State() == F.Answer(old(State()), w) && waiters[w].answer == Some(o)
    {
      var p := tasks[waiters[w].flight].progress;
      o := if p.outcome.Some? then p.outcome.value else F.UNAVAILABLE;
      waiters := waiters[w := waiters[w].(answer := Some(o))];
    }

    method MoveTo(k: F.FlightId, stage: F.Stage)
      requires k in tasks
      modifies this
      ensures State() == F.Step(old(State()), k, stage)
    {
      tasks := tasks[k := tasks[k].(stage := stage)];
    }

    /** The task's last statement; its guard is dropped next. */
    method Settle(k: F.FlightId, outcome: Option<F.Outcome>)
      requires k in tasks
      modifies this
      ensures State() == F.Settle(old(State()), k, outcome)
    {
      var p := tasks[k].progress;
      if outcome.Some? { p := p.(outcome := outcome); }
      if p.outcome.None? { p := p.(outcome := Some(F.UNAVAILABLE)); }
      tasks := tasks[k := F.Flight(tasks[k].query, p.(done := true), F.Guarding(false))];
    }

    /** The deadline comes first: whatever the task was waiting for goes on without it. */
    method TimeOut(k: F.FlightId)
      requires k in tasks
      modifies this
      ensures State() == F.Settle(F.Abandon(old(State()), k), k, None)
    {
      if tasks[k].stage.Reserving? { orphans := orphans + {k}; }
      Settle(k, None);
    }

    method OnCache(k: F.FlightId, r: F.CacheRead)
      requires k in tasks
      modifies this
      ensures State() == F.OnCache(old(State()), k, r)
    {
      if r.Hit? {
        Settle(k, Some(F.Outcome(r.songs, F.Cached)));
      } else if r.CacheFailed? {
        Settle(k, Some(F.UNAVAILABLE));
      } else if !key {
        Settle(k, Some(F.Outcome([], F.MissingCredentials)));
      } else {
        MoveTo(k, F.Reserving);
      }
    }

    /** One serialized transaction: the day's row is made if missing, and incremented only below the limit. */
    method ReserveSearch(day: int) returns (ok: bool)
      modifies this
      ensures State() == F.Reserve(old(State()), day) && ok == F.Allows(old(State()), day)
    {
      if day !in attempts { attempts := attempts[day := 0]; }
      ok := attempts[day] < limit && attempts[day] < F.MAX_ATTEMPTS;
      if ok {
        attempts := attempts[day := attempts[day] + 1];
        asked := asked + [day];
      }
    }

    method ReserveLate(k: F.FlightId, now: int)
      modifies this
      ensures State() == F.ReserveLate(old(State()), k, now)
    {
      var _ := ReserveSearch(F.DayOf(now));
      orphans := orphans - {k};
    }

    method OnReserve(k: F.FlightId, now: int, storage: bool)
      requires k in tasks
      modifies this
      ensures State() == F.OnReserve(old(State()), k, now, storage)
    {
      if !storage {
        Settle(k, Some(F.UNAVAILABLE));
        return;
      }
      var ok := ReserveSearch(F.DayOf(now));
      if ok { MoveTo(k, F.Asking(F.DayOf(now))); } else { Settle(k, Some(F.Outcome([], F.DailyLimitReached))); }
    }

    method OnProvider(k: F.FlightId, r: F.Provided)
      requires k in tasks
      modifies this
      ensures State() == F.OnProvider(old(State()), k, r)
    {
      if r.ProviderFailed? || r.late {
        Settle(k, Some(F.UNAVAILABLE));
        return;
      }
      var outcome := F.Outcome(r.songs, F.Fresh);
      tasks := tasks[k := tasks[k].(progress := tasks[k].progress.(outcome := Some(outcome)))];
      MoveTo(k, F.Saving(outcome));
    }

    /** The guard's drop, first half: the mark that waiters see. */
    method Mark(k: F.FlightId)
      requires k in tasks
      modifies this
      ensures State() == F.Mark(old(State()), k)
    {
      var p := tasks[k].progress;
      if p.outcome.None? { p := p.(outcome := Some(F.UNAVAILABLE)); }
      tasks := tasks[k := F.Flight(tasks[k].query, p.(done := true), F.Guarding(true))];
    }

    /** Second half: the query is free again. */
    method Remove(k: F.FlightId)
      requires k in tasks
      modifies this
      ensures State() == F.Remove(old(State()), k)
    {
      flights := flights - {tasks[k].query};
      MoveTo(k, F.Gone);
    }
  }
}
