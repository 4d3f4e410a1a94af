/** Single flight, write-once outcomes, and the daily allowance, over every interleaving. */
module FlightLaws {
  import opened Prelude
  import opened Flights

  /** A flight's outcome is there once it is done, and is what it is saving. */
  predicate FlightOk(f: Flight) {
    && (f.progress.done ==> f.progress.outcome.Some? && !Running(f) && !f.stage.Spawned?)
    && (f.stage.Guarding? && f.stage.marked ==> f.progress.done)
    && (f.stage.Gone? ==> f.progress.done)
    && (f.stage.Saving? ==> f.progress.outcome == Some(f.stage.outcome))
    && (f.progress.outcome.Some? ==> f.stage.Saving? || f.stage.Guarding? || f.stage.Gone?)
  }

  /** A query's live flight is the one the map names. */
  ghost predicate MapOk(s: Service) {
    && (forall k :: k in s.tasks ==> k < s.serial && FlightOk(s.tasks[k]))
    && (forall k :: k in s.tasks && Live(s.tasks[k]) ==> s.tasks[k].query in s.flights && s.flights[s.tasks[k].query] == k)
    && (forall q :: q in s.flights ==> s.flights[q] in s.tasks && s.tasks[s.flights[q]].query == q
                                       && !s.tasks[s.flights[q]].stage.Gone?)
    && (forall w :: w in s.waiters ==> s.waiters[w].flight in s.tasks)
  }

  function Count(days: seq<int>, day: int): nat {
    if days == [] then 0 else Count(days[..|days| - 1], day) + (if days[|days| - 1] == day then 1 else 0)
  }

  /** The stored counter is the number of provider searches reserved that day, and within the limit. */
  ghost predicate AllowanceOk(s: Service) {
    forall day :: Attempts(s, day) == Count(s.asked, day) && (Count(s.asked, day) > 0 ==> Count(s.asked, day) <= s.limit)
  }

  ghost predicate ServiceInv(s: Service) {
    MapOk(s) && AllowanceOk(s)
  }

  lemma CountPushed(days: seq<int>, day: int, pushed: int)
    ensures Count(days + [pushed], day) == Count(days, day) + (if pushed == day then 1 else 0)
  {
    assert (days + [pushed])[..|days|] == days;
  }

  lemma ReserveKeeps(s: Service, day: int)
    requires ServiceInv(s)
    ensures ServiceInv(Reserve(s, day))
  {
    var t := Reserve(s, day);
    forall d ensures Attempts(t, d) == Count(t.asked, d) && (Count(t.asked, d) > 0 ==> Count(t.asked, d) <= t.limit) {
      assert Attempts(s, d) == Count(s.asked, d);
      if Allows(s, day) { CountPushed(s.asked, d, day); }
    }
  }

  lemma TaskKeeps(s: Service, k: FlightId, f: Flight)
    requires ServiceInv(s) && k in s.tasks && f.query == s.tasks[k].query && FlightOk(f)
    requires Live(s.tasks[k]) && !f.stage.Gone?
    ensures ServiceInv(SetTask(s, k, f))
  {
    assert forall day :: Attempts(SetTask(s, k, f), day) == Attempts(s, day);
  }

  lemma SettleKeeps(s: Service, k: FlightId, outcome: Option<Outcome>)
    requires ServiceInv(s) && k in s.tasks && Running(s.tasks[k])
    ensures ServiceInv(Settle(s, k, outcome))
  {
    TaskKeeps(s, k, Settle(s, k, outcome).tasks[k]);
  }

  /** The guard removes its own flight and no other: no query can have started another while it is still in the map. */
  lemma RemoveKeeps(s: Service, k: FlightId)
    requires ServiceInv(s) && Enabled(s, Removed(k))
    ensures ServiceInv(Remove(s, k))
    ensures s.flights[s.tasks[k].query] == k && Remove(s, k).flights == s.flights - {s.tasks[k].query}
  {
    assert forall day :: Attempts(Remove(s, k), day) == Attempts(s, day);
  }

  lemma WaitKeeps(s: Service, k: FlightId)
    requires ServiceInv(s) && k in s.tasks
    ensures ServiceInv(s.(waiters := s.waiters[s.serial := Waiter(k, None)], serial := s.serial + 1))
  {
    var t := s.(waiters := s.waiters[s.serial := Waiter(k, None)], serial := s.serial + 1);
    assert forall day :: Attempts(t, day) == Attempts(s, day);
  }

  lemma SpawnMapOk(s: Service, query: string)
    requires MapOk(s) && query !in s.flights
    ensures MapOk(s.(flights := s.flights[query := s.serial], serial := s.serial + 1,
                     tasks := s.tasks[s.serial := Flight(query, Progress(None, false), Spawned)]))
  {
    assert s.serial !in s.tasks;
  }

  lemma DiscoverKeeps(s: Service, query: string)
    requires ServiceInv(s)
    ensures ServiceInv(Discover(s, query))
  {
    if query in s.flights {
      WaitKeeps(s, s.flights[query]);
    } else {
      SpawnMapOk(s, query);
      assert forall day :: Attempts(Discover(s, query), day) == Attempts(s, day);
    }
  }

  lemma AnswerKeeps(s: Service, w: nat)
    requires ServiceInv(s) && w in s.waiters
    ensures ServiceInv(Answer(s, w))
  {
    assert forall day :: Attempts(Answer(s, w), day) == Attempts(s, day);
  }

  lemma OrphansKeep(s: Service, orphans: set<FlightId>)
    requires ServiceInv(s)
    ensures ServiceInv(s.(orphans := orphans))
  {
    assert forall day :: Attempts(s.(orphans := orphans), day) == Attempts(s, day);
  }

  lemma AbandonKeeps(s: Service, k: FlightId)
    requires ServiceInv(s) && k in s.tasks
    ensures ServiceInv(Abandon(s, k))
  {
    OrphansKeep(s, s.orphans + {k});
  }

  lemma TaskActKeeps(s: Service, a: Action)
    requires ServiceInv(s) && Enabled(s, a)
    requires a.Poll? || a.CacheAnswered? || a.ReserveAnswered? || a.ProviderAnswered?
    ensures ServiceInv(Act(s, a))
  {
    var k := a.flight;
    match a
    case Poll(_) => TaskKeeps(s, k, s.tasks[k].(stage := ReadingCache));
    case CacheAnswered(_, r) =>
      if r.Hit? { SettleKeeps(s, k, Some(Outcome(r.songs, Cached))); }
      else if r.CacheFailed? { SettleKeeps(s, k, Some(UNAVAILABLE)); }
      else {
        SettleKeeps(s, k, Some(Outcome([], MissingCredentials)));
        TaskKeeps(s, k, s.tasks[k].(stage := Reserving));
      }
    case ReserveAnswered(_, now, ok) =>
      var s1 := Reserve(s, DayOf(now));
      ReserveKeeps(s, DayOf(now));
      SettleKeeps(s, k, Some(UNAVAILABLE));
      SettleKeeps(s1, k, Some(Outcome([], DailyLimitReached)));
      TaskKeeps(s1, k, s.tasks[k].(stage := Asking(DayOf(now))));
    case ProviderAnswered(_, r) =>
      SettleKeeps(s, k, Some(UNAVAILABLE));
      if r.Found? {
        var o := Outcome(r.songs, Fresh);
        TaskKeeps(s, k, Flight(s.tasks[k].query, s.tasks[k].progress.(outcome := Some(o)), Saving(o)));
      }
  }

  lemma ActKeeps(s: Service, a: Action)
    requires ServiceInv(s) && Enabled(s, a)
    ensures ServiceInv(Act(s, a))
  {
    match a
    case Call(query) => DiscoverKeeps(s, query);
    case Return(w, _) => AnswerKeeps(s, w);
    case Saved(k) => SettleKeeps(s, k, Some(s.tasks[k].stage.outcome));
    case TimedOut(k) =>
      AbandonKeeps(s, k);
      SettleKeeps(Abandon(s, k), k, None);
    case Cancelled(k) =>
      AbandonKeeps(s, k);
      TaskKeeps(Abandon(s, k), k, s.tasks[k].(stage := if s.tasks[k].stage.Spawned? then Lost else Guarding(false)));
    case ReservedLate(k, now) =>
      ReserveKeeps(s, DayOf(now));
      OrphansKeep(Reserve(s, DayOf(now)), s.orphans - {k});
    case Marked(k) => TaskKeeps(s, k, Mark(s, k).tasks[k]);
    case Removed(k) => RemoveKeeps(s, k);
    case Poll(_) => TaskActKeeps(s, a);
    case CacheAnswered(_, _) => TaskActKeeps(s, a);
    case ReserveAnswered(_, _, _) => TaskActKeeps(s, a);
    case ProviderAnswered(_, _) => TaskActKeeps(s, a);
  }

  // ---------------------------------------------------------------- runs

  predicate Steps(s: Service, a: Action, t: Service) {
    Enabled(s, a) && t == Act(s, a)
  }

  predicate Idle(s: Service) {
    s.flights == map[] && s.tasks == map[] && s.waiters == map[] && s.attempts == map[] && s.asked == []
    && s.orphans == {}
  }

  ghost predicate Run(ss: seq<Service>, acts: seq<Action>) {
    && |ss| == |acts| + 1 && Idle(ss[0])
    && (forall i :: 0 <= i < |acts| ==> Steps(ss[i], acts[i], ss[i + 1]))
  }

  lemma {:induction false} RunInv(ss: seq<Service>, acts: seq<Action>, n: nat)
    requires Run(ss, acts) && n <= |acts|
    ensures ServiceInv(ss[n])
  {
    if n > 0 {
      RunInv(ss, acts, n - 1);
      assert Steps(ss[n - 1], acts[n - 1], ss[n]);
      ActKeeps(ss[n - 1], acts[n - 1]);
    }
  }

  /** At most one live attempt per query, whatever callers, cancellations and timeouts do. */
  lemma OneAttemptPerQuery(ss: seq<Service>, acts: seq<Action>, n: nat, j: FlightId, k: FlightId)
    requires Run(ss, acts) && n <= |acts| && j in ss[n].tasks && k in ss[n].tasks
    requires Live(ss[n].tasks[j]) && Live(ss[n].tasks[k]) && ss[n].tasks[j].query == ss[n].tasks[k].query
    ensures j == k
  {
    RunInv(ss, acts, n);
  }

  // ---------------------------------------------------------------- tasks dropped before their first poll

  /** The task was dropped while it had only been spawned, so its guard never existed. */
  predicate DroppedBy(s: Service, a: Action, k: FlightId) {
    a == Cancelled(k) && k in s.tasks && s.tasks[k].stage.Spawned?
  }

  ghost predicate DroppedUnpolled(ss: seq<Service>, acts: seq<Action>, n: nat, k: FlightId)
    requires n <= |acts| < |ss|
  {
    exists i :: 0 <= i < n && DroppedBy(ss[i], acts[i], k)
  }

  predicate TaskAction(a: Action) {
    !a.Call? && !a.Return? && !a.ReservedLate?
  }

  /** A task's step changes that task alone, loses it only when it is dropped unpolled, and leaves the map to the guard. */
  predicate OwnStep(s: Service, a: Action, t: Service)
    requires TaskAction(a) && Enabled(s, a)
  {
    && a.flight in t.tasks && t.tasks == s.tasks[a.flight := t.tasks[a.flight]]
    && t.tasks[a.flight].query == s.tasks[a.flight].query
    && (t.tasks[a.flight].stage.Lost? <==> a.Cancelled? && s.tasks[a.flight].stage.Spawned?)
    && (a.Cancelled? ==> t.tasks[a.flight].progress == s.tasks[a.flight].progress)
    && t.flights == (if a.Removed? then s.flights - {s.tasks[a.flight].query} else s.flights)
    && t.serial == s.serial && t.limit == s.limit
  }

  lemma CacheStepIsOwn(s: Service, k: FlightId, r: CacheRead)
    requires Enabled(s, CacheAnswered(k, r))
    ensures OwnStep(s, CacheAnswered(k, r), OnCache(s, k, r))
  {
  }

  lemma ReserveStepIsOwn(s: Service, k: FlightId, now: int, storage: bool)
    requires Enabled(s, ReserveAnswered(k, now, storage))
    ensures OwnStep(s, ReserveAnswered(k, now, storage), OnReserve(s, k, now, storage))
  {
  }

  lemma ProviderStepIsOwn(s: Service, k: FlightId, r: Provided)
    requires Enabled(s, ProviderAnswered(k, r))
    ensures OwnStep(s, ProviderAnswered(k, r), OnProvider(s, k, r))
  {
  }

  lemma TaskStepIsOwn(s: Service, a: Action)
    requires TaskAction(a) && Enabled(s, a)
    ensures OwnStep(s, a, Act(s, a))
  {
    if a.CacheAnswered? { CacheStepIsOwn(s, a.flight, a.cache); }
    else if a.ReserveAnswered? { ReserveStepIsOwn(s, a.flight, a.now, a.storage); }
    else if a.ProviderAnswered? { ProviderStepIsOwn(s, a.flight, a.provided); }
  }

  lemma LostStep(s: Service, a: Action, k: FlightId)
    requires MapOk(s) && Enabled(s, a)
    ensures (k in Act(s, a).tasks && Act(s, a).tasks[k].stage.Lost?) <==>
              (k in s.tasks && s.tasks[k].stage.Lost?) || DroppedBy(s, a, k)
  {
    if TaskAction(a) { TaskStepIsOwn(s, a); }
    else if a.Call? { assert s.serial !in s.tasks; }
  }

  lemma {:induction false} LostExactlyWhen(ss: seq<Service>, acts: seq<Action>, n: nat, k: FlightId)
    requires Run(ss, acts) && n <= |acts|
    ensures k in ss[n].tasks && ss[n].tasks[k].stage.Lost? <==> DroppedUnpolled(ss, acts, n, k)
  {
    if n > 0 {
      LostExactlyWhen(ss, acts, n - 1, k);
      RunInv(ss, acts, n - 1);
      assert Steps(ss[n - 1], acts[n - 1], ss[n]);
      LostStep(ss[n - 1], acts[n - 1], k);
      assert DroppedUnpolled(ss, acts, n - 1, k) ==> DroppedUnpolled(ss, acts, n, k);
    }
  }

  /** No guard, no mark, no removal: the map names the flight, and nothing was or will be published. */
  ghost predicate Blocks(s: Service, k: FlightId) {
    && k in s.tasks && s.tasks[k].stage.Lost? && s.tasks[k].progress == Progress(None, false)
    && s.tasks[k].query in s.flights && s.flights[s.tasks[k].query] == k
  }

  lemma BlocksStep(s: Service, a: Action, k: FlightId)
    requires MapOk(s) && Enabled(s, a)
    requires Blocks(s, k) || DroppedBy(s, a, k)
    ensures Blocks(Act(s, a), k) && Act(s, a).tasks[k].query == s.tasks[k].query
  {
    assert FlightOk(s.tasks[k]) && k < s.serial;
    if TaskAction(a) {
      TaskStepIsOwn(s, a);
      assert FlightOk(s.tasks[a.flight]);
      if a.Removed? { assert Live(s.tasks[a.flight]); }
    }
  }

  lemma RunBlocks(ss: seq<Service>, acts: seq<Action>, n: nat, k: FlightId)
    requires Run(ss, acts) && n < |acts| && (Blocks(ss[n], k) || DroppedBy(ss[n], acts[n], k))
    ensures Blocks(ss[n + 1], k) && ss[n + 1].tasks[k].query == ss[n].tasks[k].query
  {
    RunInv(ss, acts, n);
    assert Steps(ss[n], acts[n], ss[n + 1]);
    BlocksStep(ss[n], acts[n], k);
  }

  lemma {:induction false} BlocksForEver(ss: seq<Service>, acts: seq<Action>, i: nat, n: nat, k: FlightId)
    requires Run(ss, acts) && i < n <= |acts| && DroppedBy(ss[i], acts[i], k)
    ensures Blocks(ss[n], k) && ss[n].tasks[k].query == ss[i].tasks[k].query
    decreases n
  {
    if i == n - 1 {
      RunBlocks(ss, acts, i, k);
    } else {
      BlocksForEver(ss, acts, i, n - 1, k);
      RunBlocks(ss, acts, n - 1, k);
    }
  }

  /**
   From then on the query has no live attempt, every caller of it joins the lost flight, and a waiter on that flight
   is answered only by its own deadline, and only with unavailability.
   */
  lemma DroppedQueryIsBlocked(ss: seq<Service>, acts: seq<Action>, i: nat, n: nat, k: FlightId)
    requires Run(ss, acts) && i < n <= |acts| && DroppedBy(ss[i], acts[i], k)
    ensures Blocks(ss[n], k) && ss[n].tasks[k].query == ss[i].tasks[k].query
    ensures forall j :: j in ss[n].tasks && ss[n].tasks[j].query == ss[n].tasks[k].query ==> !Live(ss[n].tasks[j])
    ensures var q := ss[i].tasks[k].query;
      Discover(ss[n], q).tasks == ss[n].tasks && Discover(ss[n], q).waiters[ss[n].serial] == Waiter(k, None)
    ensures forall w, timedOut :: Enabled(ss[n], Return(w, timedOut)) && ss[n].waiters[w].flight == k ==>
              timedOut && Answer(ss[n], w).waiters[w].answer == Some(UNAVAILABLE)
  {
    BlocksForEver(ss, acts, i, n, k);
    RunInv(ss, acts, n);
  }

  /** A flight whose guard exists can end: its deadline, the guard's mark and the guard's removal free its query. */
  lemma GuardFreesTheQuery(s: Service, k: FlightId)
    requires MapOk(s) && k in s.tasks && Running(s.tasks[k])
    ensures Enabled(s, TimedOut(k)) && Enabled(Act(s, TimedOut(k)), Marked(k))
    ensures var marked := Act(Act(s, TimedOut(k)), Marked(k));
      Enabled(marked, Removed(k)) && s.tasks[k].query !in Act(marked, Removed(k)).flights
  {
  }

  /**
   A flight in the map has a live task unless that task was dropped before its first poll; a task that was polled is
   done before it leaves the map.
   */
  lemma EveryFlightEnds(ss: seq<Service>, acts: seq<Action>, n: nat, query: string)
    requires Run(ss, acts) && n <= |acts| && query in ss[n].flights
    ensures ss[n].flights[query] in ss[n].tasks
    ensures Live(ss[n].tasks[ss[n].flights[query]]) <==> !DroppedUnpolled(ss, acts, n, ss[n].flights[query])
    ensures forall k :: k in ss[n].tasks && ss[n].tasks[k].stage.Gone? ==>
              ss[n].tasks[k].progress.done && ss[n].tasks[k].progress.outcome.Some? && !DroppedUnpolled(ss, acts, n, k)
  {
    RunInv(ss, acts, n);
    LostExactlyWhen(ss, acts, n, ss[n].flights[query]);
    forall k | k in ss[n].tasks && ss[n].tasks[k].stage.Gone? ensures !DroppedUnpolled(ss, acts, n, k) {
      LostExactlyWhen(ss, acts, n, k);
    }
  }

  /** The failing input: a query is asked, and its task is dropped before it is polled. */
  lemma DroppedBeforeItsFirstPoll(s: Service, query: string)
    returns (ss: seq<Service>, acts: seq<Action>)
    requires Idle(s)
    ensures Run(ss, acts) && ss[0] == s && acts == [Call(query), Cancelled(s.serial)]
    ensures DroppedUnpolled(ss, acts, 2, s.serial) && Blocks(ss[2], s.serial) && ss[2].tasks[s.serial].query == query
  {
    var s1 := Act(s, Call(query));
    var s2 := Act(s1, Cancelled(s.serial));
    ss, acts := [s, s1, s2], [Call(query), Cancelled(s.serial)];
    assert Steps(ss[0], acts[0], ss[1]) && Steps(ss[1], acts[1], ss[2]);
    assert DroppedBy(ss[1], acts[1], s.serial);
  }

  /** Outcomes are written once: what a flight has published is never changed, and it is never undone. */
  ghost predicate Lasting(s: Service, t: Service, k: FlightId) {
    k in s.tasks ==>
      && k in t.tasks && t.tasks[k].query == s.tasks[k].query
      && (s.tasks[k].progress.outcome.Some? ==> t.tasks[k].progress.outcome == s.tasks[k].progress.outcome)
      && (s.tasks[k].progress.done ==> t.tasks[k].progress == s.tasks[k].progress)
  }

  lemma SettleLasting(s: Service, k: FlightId, outcome: Option<Outcome>, j: FlightId)
    requires ServiceInv(s) && k in s.tasks && Running(s.tasks[k])
    requires s.tasks[k].progress.outcome.Some? ==> outcome.None? || outcome == s.tasks[k].progress.outcome
    ensures Lasting(s, Settle(s, k, outcome), j)
  {
    assert FlightOk(s.tasks[k]);
  }

  lemma CacheLasting(s: Service, k: FlightId, r: CacheRead, j: FlightId)
    requires ServiceInv(s) && Enabled(s, CacheAnswered(k, r))
    ensures Lasting(s, OnCache(s, k, r), j)
  {
    assert FlightOk(s.tasks[k]);
    if r.Hit? { SettleLasting(s, k, Some(Outcome(r.songs, Cached)), j); }
    else if r.CacheFailed? { SettleLasting(s, k, Some(UNAVAILABLE), j); }
    else { SettleLasting(s, k, Some(Outcome([], MissingCredentials)), j); }
  }

  lemma ReserveLasting(s: Service, k: FlightId, now: int, storage: bool, j: FlightId)
    requires ServiceInv(s) && Enabled(s, ReserveAnswered(k, now, storage))
    ensures Lasting(s, OnReserve(s, k, now, storage), j)
  {
    assert FlightOk(s.tasks[k]);
    ReserveKeeps(s, DayOf(now));
    SettleLasting(s, k, Some(UNAVAILABLE), j);
    SettleLasting(Reserve(s, DayOf(now)), k, Some(Outcome([], DailyLimitReached)), j);
  }

  lemma TaskActLasting(s: Service, a: Action, j: FlightId)
    requires ServiceInv(s) && Enabled(s, a)
    requires a.CacheAnswered? || a.ReserveAnswered? || a.ProviderAnswered? || a.Saved? || a.TimedOut?
    ensures Lasting(s, Act(s, a), j)
  {
    var k := a.flight;
    assert FlightOk(s.tasks[k]);
    match a
    case CacheAnswered(_, r) => CacheLasting(s, k, r, j);
    case ReserveAnswered(_, now, ok) => ReserveLasting(s, k, now, ok, j);
    case ProviderAnswered(_, r) => SettleLasting(s, k, Some(UNAVAILABLE), j);
    case Saved(_) => SettleLasting(s, k, Some(s.tasks[k].stage.outcome), j);
    case TimedOut(_) =>
      AbandonKeeps(s, k);
      SettleLasting(Abandon(s, k), k, None, j);
  }

  lemma ActLasting(s: Service, a: Action, j: FlightId)
    requires ServiceInv(s) && Enabled(s, a)
    ensures Lasting(s, Act(s, a), j)
  {
    if j in s.tasks { assert FlightOk(s.tasks[j]) && j < s.serial; }
    if a.CacheAnswered? || a.ReserveAnswered? || a.ProviderAnswered? || a.Saved? || a.TimedOut? {
      TaskActLasting(s, a, j);
    } else if TaskAction(a) {
      assert FlightOk(s.tasks[a.flight]);
    }
  }

  lemma {:induction false} RunLasting(ss: seq<Service>, acts: seq<Action>, i: nat, j: nat, k: FlightId)
    requires Run(ss, acts) && i <= j <= |acts|
    ensures Lasting(ss[i], ss[j], k)
    decreases j
  {
    if i < j {
      RunLasting(ss, acts, i, j - 1, k);
      RunInv(ss, acts, j - 1);
      assert Steps(ss[j - 1], acts[j - 1], ss[j]);
      ActLasting(ss[j - 1], acts[j - 1], k);
    }
  }

  /** Once a flight has published an outcome, every waiter that returns from it afterwards returns that one. */
  lemma LaterWaitersGetIt(ss: seq<Service>, acts: seq<Action>, i: nat, j: nat, w: nat, o: Outcome)
    requires Run(ss, acts) && i <= j < |acts| && acts[j].Return? && acts[j].waiter == w
    requires w in ss[j].waiters && ss[j].waiters[w].flight in ss[i].tasks
    requires ss[i].tasks[ss[j].waiters[w].flight].progress.outcome == Some(o)
    ensures w in ss[j + 1].waiters && ss[j + 1].waiters[w].answer == Some(o)
  {
    RunLasting(ss, acts, i, j, ss[j].waiters[w].flight);
    assert Steps(ss[j], acts[j], ss[j + 1]);
  }

  /** Provider searches reserved on one UTC day never exceed the limit, and the stored counter is their number. */
  lemma WithinTheDailyLimit(ss: seq<Service>, acts: seq<Action>, n: nat, day: int)
    requires Run(ss, acts) && n <= |acts|
    ensures Attempts(ss[n], day) == Count(ss[n].asked, day)
    ensures Count(ss[n].asked, day) > 0 ==> Count(ss[n].asked, day) <= ss[0].limit
  {
    RunInv(ss, acts, n);
    SameLimit(ss, acts, n);
  }

  lemma {:induction false} SameLimit(ss: seq<Service>, acts: seq<Action>, n: nat)
    requires Run(ss, acts) && n <= |acts|
    ensures ss[n].limit == ss[0].limit
  {
    if n > 0 {
      SameLimit(ss, acts, n - 1);
      assert Steps(ss[n - 1], acts[n - 1], ss[n]);
      if TaskAction(acts[n - 1]) { TaskStepIsOwn(ss[n - 1], acts[n - 1]); }
    }
  }

  /** A provider search begins only with the reservation that paid for it. */
  lemma AsksOnlyWhatItReserved(s: Service, k: FlightId, now: int, storage: bool)
    requires k in s.tasks && !s.tasks[k].stage.Asking?
    ensures var t := OnReserve(s, k, now, storage);
      if t.tasks[k].stage.Asking? then storage && Allows(s, DayOf(now)) && t.asked == s.asked + [t.tasks[k].stage.day]
      else t.asked == s.asked && t.tasks[k].progress.done
  {
  }

  /** The step sends the provider a search that counts for `day`. */
  predicate Sends(s: Service, a: Action, t: Service, day: int) {
    TaskAction(a) && a.flight in s.tasks && a.flight in t.tasks
    && !s.tasks[a.flight].stage.Asking? && t.tasks[a.flight].stage == Asking(day)
  }

  /** How many searches the provider has been sent for `day`, counted by what the tasks did. */
  function Sent(ss: seq<Service>, acts: seq<Action>, n: nat, day: int): nat
    requires n <= |acts| < |ss|
  {
    if n == 0 then 0 else Sent(ss, acts, n - 1, day) + (if Sends(ss[n - 1], acts[n - 1], ss[n], day) then 1 else 0)
  }

  /** The step commits a reservation for `day` whose task had already ended. */
  predicate Wastes(s: Service, a: Action, day: int) {
    a.ReservedLate? && DayOf(a.now) == day && Allows(s, day)
  }

  /** How many reservations for `day` nobody was waiting for any more. */
  function Wasted(ss: seq<Service>, acts: seq<Action>, n: nat, day: int): nat
    requires n <= |acts| < |ss|
  {
    if n == 0 then 0 else Wasted(ss, acts, n - 1, day) + (if Wastes(ss[n - 1], acts[n - 1], day) then 1 else 0)
  }

  lemma OthersSendNothing(s: Service, a: Action, day: int)
    requires Enabled(s, a) && !a.ReserveAnswered? && !a.ReservedLate?
    ensures Act(s, a).asked == s.asked && !Sends(s, a, Act(s, a), day)
  {
    if a.CacheAnswered? { assert !OnCache(s, a.flight, a.cache).tasks[a.flight].stage.Asking?; }
    else if a.ProviderAnswered? { assert !OnProvider(s, a.flight, a.provided).tasks[a.flight].stage.Asking?; }
  }

  lemma SendsCount(s: Service, a: Action, day: int)
    requires Enabled(s, a)
    ensures Count(Act(s, a).asked, day) ==
            Count(s.asked, day) + (if Sends(s, a, Act(s, a), day) then 1 else 0) + (if Wastes(s, a, day) then 1 else 0)
  {
    if a.ReserveAnswered? {
      AsksOnlyWhatItReserved(s, a.flight, a.now, a.storage);
      CountPushed(s.asked, day, DayOf(a.now));
    } else if a.ReservedLate? {
      CountPushed(s.asked, day, DayOf(a.now));
    } else {
      OthersSendNothing(s, a, day);
    }
  }

  /** Every reservation counted for a UTC day was used for one search sent, or committed after its task had ended. */
  lemma {:induction false} ReservationsAreSentOrWasted(ss: seq<Service>, acts: seq<Action>, n: nat, day: int)
    requires Run(ss, acts) && n <= |acts|
    ensures Sent(ss, acts, n, day) + Wasted(ss, acts, n, day) == Attempts(ss[n], day)
  {
    WithinTheDailyLimit(ss, acts, n, day);
    if n > 0 {
      ReservationsAreSentOrWasted(ss, acts, n - 1, day);
      WithinTheDailyLimit(ss, acts, n - 1, day);
      assert Steps(ss[n - 1], acts[n - 1], ss[n]);
      SendsCount(ss[n - 1], acts[n - 1], day);
    }
  }

  lemma {:induction false} WastedNone(ss: seq<Service>, acts: seq<Action>, n: nat, day: int)
    requires n <= |acts| < |ss|
    ensures Wasted(ss, acts, n, day) == 0 <==> forall i :: 0 <= i < n ==> !Wastes(ss[i], acts[i], day)
  {
    if n > 0 { WastedNone(ss, acts, n - 1, day); }
  }

  /**
   Over any run the searches sent to the provider for a UTC day are paid for by its stored counter and within the
   limit; they are all it paid for exactly when no reservation committed after its task had ended.
   */
  lemma SearchesArePaidFor(ss: seq<Service>, acts: seq<Action>, n: nat, day: int)
    requires Run(ss, acts) && n <= |acts|
    ensures Sent(ss, acts, n, day) <= Attempts(ss[n], day)
    ensures Attempts(ss[n], day) > 0 ==> Attempts(ss[n], day) <= ss[0].limit
    ensures Sent(ss, acts, n, day) == Attempts(ss[n], day) <==> forall i :: 0 <= i < n ==> !Wastes(ss[i], acts[i], day)
  {
    WithinTheDailyLimit(ss, acts, n, day);
    ReservationsAreSentOrWasted(ss, acts, n, day);
    WastedNone(ss, acts, n, day);
  }

  /** It can happen: the deadline comes while the reservation is being made, which then commits for nothing. */
  lemma AReservationIsWasted(s: Service, query: string, now: int)
    returns (ss: seq<Service>, acts: seq<Action>)
    requires Idle(s) && s.key && s.limit > 0
    ensures Run(ss, acts) && ss[0] == s && |acts| == 5
    ensures acts == [Call(query), Poll(s.serial), CacheAnswered(s.serial, Miss), TimedOut(s.serial), ReservedLate(s.serial, now)]
    ensures Attempts(ss[5], DayOf(now)) == 1 && Sent(ss, acts, 5, DayOf(now)) == 0
  {
    var k, day := s.serial, DayOf(now);
    acts := [Call(query), Poll(k), CacheAnswered(k, Miss), TimedOut(k), ReservedLate(k, now)];
    var s1 := Act(s, acts[0]);
    var s2 := Act(s1, acts[1]);
    var s3 := Act(s2, acts[2]);
    var s4 := Act(s3, acts[3]);
    var s5 := Act(s4, acts[4]);
    ss := [s, s1, s2, s3, s4, s5];
    assert forall i :: 0 <= i < 5 ==> Steps(ss[i], acts[i], ss[i + 1]);
    assert Wastes(ss[4], acts[4], day);
    ReservationsAreSentOrWasted(ss, acts, 5, day);
  }
}
