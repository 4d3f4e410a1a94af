/**
 Single-flight discovery: one attempt per query at a time, owned by a task of
 its own, whose completion guard runs however the task ends.  A step is one
 piece of code between awaits; callers, tasks and timeouts interleave freely.
 */
module Flights {
  import opened Prelude
  import opened Songs

  type FlightId = nat

  const SECONDS_A_DAY := 86400

  datatype Status = Cached | Fresh | MissingCredentials | DailyLimitReached | TemporarilyUnavailable
  datatype Outcome = Outcome(results: seq<Song>, status: Status)
  datatype Progress = Progress(outcome: Option<Outcome>, done: bool)

  const UNAVAILABLE := Outcome([], TemporarilyUnavailable)

  /**
   Where a flight's task is.  Spawned: not polled yet, so its guard does not exist.  Guarding: the body is over and
   the guard is dropping, its mark made once `marked`.  Lost: dropped before its first poll.
   */
  datatype Stage =
    | Spawned
    | ReadingCache
    | Reserving
    | Asking(day: int)
    | Saving(outcome: Outcome)
    | Guarding(marked: bool)
    | Gone
    | Lost

  datatype Flight = Flight(query: string, progress: Progress, stage: Stage)

  datatype Waiter = Waiter(flight: FlightId, answer: Option<Outcome>)

  /**
   The service, and the persistent counter of provider searches per UTC day; `asked` lists the days of the reservations
   made.  `orphans` are the tasks that ended while their reservation was with the database, where it may still commit.
   */
  datatype Service = Service(
    key: bool, limit: int, flights: map<string, FlightId>, tasks: map<FlightId, Flight>,
    waiters: map<nat, Waiter>, serial: nat, attempts: map<int, int>, asked: seq<int>,
    orphans: set<FlightId>)

  predicate Live(f: Flight) {
    !f.stage.Gone? && !f.stage.Lost?
  }

  /** The guard exists: the task has been polled and is not over. */
  predicate Running(f: Flight) {
    Live(f) && !f.stage.Spawned? && !f.stage.Guarding?
  }

  // ---------------------------------------------------------------- the daily allowance

  function DayOf(now: int): int {
    now / SECONDS_A_DAY
  }

  function Attempts(s: Service, day: int): int {
    if day in s.attempts then s.attempts[day] else 0
  }

  const MAX_ATTEMPTS := 0x7fff_ffff_ffff_ffff

  /** The row is made if missing, then incremented only below the limit. */
  predicate Allows(s: Service, day: int) {
    Attempts(s, day) < s.limit && Attempts(s, day) < MAX_ATTEMPTS
  }

  function Reserve(s: Service, day: int): Service {
    s.(attempts := s.attempts[day := Attempts(s, day) + (if Allows(s, day) then 1 else 0)],
       asked := if Allows(s, day) then s.asked + [day] else s.asked)
  }

  // ---------------------------------------------------------------- tasks

  function SetTask(s: Service, k: FlightId, f: Flight): Service {
    s.(tasks := s.tasks[k := f])
  }

  /** The last statement of the task: an outcome that is ready replaces what was published, nothing else does. */
  function Finished(p: Progress, outcome: Option<Outcome>): Progress {
    var o := if outcome.Some? then outcome else p.outcome;
    Progress(if o.Some? then o else Some(UNAVAILABLE), true)
  }

  function Settle(s: Service, k: FlightId, outcome: Option<Outcome>): Service
    requires k in s.tasks
  {
    SetTask(s, k, Flight(s.tasks[k].query, Finished(s.tasks[k].progress, outcome), Guarding(false)))
  }

  function Step(s: Service, k: FlightId, stage: Stage): Service
    requires k in s.tasks
  {
    SetTask(s, k, s.tasks[k].(stage := stage))
  }

  datatype CacheRead = Hit(songs: seq<Song>) | Miss | CacheFailed
  datatype Provided = Found(songs: seq<Song>, late: bool) | ProviderFailed

  function OnCache(s: Service, k: FlightId, r: CacheRead): Service
    requires k in s.tasks
  {
    match r
    case Hit(songs) => Settle(s, k, Some(Outcome(songs, Cached)))
    case CacheFailed => Settle(s, k, Some(UNAVAILABLE))
    case Miss => if s.key then Step(s, k, Reserving) else Settle(s, k, Some(Outcome([], MissingCredentials)))
  }

  function OnReserve(s: Service, k: FlightId, now: int, storage: bool): Service
    requires k in s.tasks
  {
    if !storage then Settle(s, k, Some(UNAVAILABLE))
    else if Allows(s, DayOf(now)) then Step(Reserve(s, DayOf(now)), k, Asking(DayOf(now)))
    else Settle(Reserve(s, DayOf(now)), k, Some(Outcome([], DailyLimitReached)))
  }

  /** The task ends at its deadline or is dropped; a transaction it was waiting for is not called back. */
  function Abandon(s: Service, k: FlightId): Service
    requires k in s.tasks
  {
    if s.tasks[k].stage.Reserving? then s.(orphans := s.orphans + {k}) else s
  }

  /** A reservation commits though nobody waits for it any more. */
  function ReserveLate(s: Service, k: FlightId, now: int): Service {
    Reserve(s, DayOf(now)).(orphans := s.orphans - {k})
  }

  /** Publish first, then persist: not even an empty success is lost to a later failure. */
  function OnProvider(s: Service, k: FlightId, r: Provided): Service
    requires k in s.tasks
  {
    if r.ProviderFailed? || r.late then Settle(s, k, Some(UNAVAILABLE))
    else
      var o := Outcome(r.songs, Fresh);
      SetTask(s, k, Flight(s.tasks[k].query, s.tasks[k].progress.(outcome := Some(o)), Saving(o)))
  }

  /** The guard's mark. */
  function Mark(s: Service, k: FlightId): Service
    requires k in s.tasks
  {
    SetTask(s, k, Flight(s.tasks[k].query, Finished(s.tasks[k].progress, None), Guarding(true)))
  }

  /** The guard's removal, under the lock: whatever flight the query has is taken out. */
  function Remove(s: Service, k: FlightId): Service
    requires k in s.tasks
  {
    Step(s, k, Gone).(flights := s.flights - {s.tasks[k].query})
  }

  // ---------------------------------------------------------------- callers

  /** The start of discover, under the lock: join the query's flight or start one. */
  function Discover(s: Service, query: string): Service {
    if query in s.flights then s.(waiters := s.waiters[s.serial := Waiter(s.flights[query], None)], serial := s.serial + 1)
    else s.(flights := s.flights[query := s.serial], tasks := s.tasks[s.serial := Flight(query, Progress(None, false), Spawned)],
            waiters := s.waiters[s.serial := Waiter(s.serial, None)], serial := s.serial + 1)
  }

  /** A waiter returns when its flight is done or its own deadline has come. */
  function Answer(s: Service, w: nat): Service
    requires w in s.waiters && s.waiters[w].flight in s.tasks
  {
    var p := s.tasks[s.waiters[w].flight].progress;
    s.(waiters := s.waiters[w := s.waiters[w].(answer := if p.outcome.Some? then p.outcome else Some(UNAVAILABLE))])
  }

  // ---------------------------------------------------------------- all steps

  datatype Action =
    | Call(query: string)
    | Return(waiter: nat, timedOut: bool)
    | Poll(flight: FlightId)
    | CacheAnswered(flight: FlightId, cache: CacheRead)
    | ReserveAnswered(flight: FlightId, now: int, storage: bool)
    | ProviderAnswered(flight: FlightId, provided: Provided)
    | Saved(flight: FlightId)
    | TimedOut(flight: FlightId)
    | Cancelled(flight: FlightId)
    | ReservedLate(flight: FlightId, now: int)
    | Marked(flight: FlightId)
    | Removed(flight: FlightId)

  predicate Enabled(s: Service, a: Action) {
    match a
    case Call(_) => true
    case Return(w, timedOut) =>
      && w in s.waiters && s.waiters[w].answer.None? && s.waiters[w].flight in s.tasks
      && (s.tasks[s.waiters[w].flight].progress.done || timedOut)
    case Poll(k) => k in s.tasks && s.tasks[k].stage.Spawned?
    case CacheAnswered(k, _) => k in s.tasks && s.tasks[k].stage.ReadingCache?
    case ReserveAnswered(k, _, _) => k in s.tasks && s.tasks[k].stage.Reserving?
    case ProviderAnswered(k, _) => k in s.tasks && s.tasks[k].stage.Asking?
    case Saved(k) => k in s.tasks && s.tasks[k].stage.Saving?
    case TimedOut(k) => k in s.tasks && Running(s.tasks[k])
    case Cancelled(k) => k in s.tasks && (Running(s.tasks[k]) || s.tasks[k].stage.Spawned?)
    case ReservedLate(k, _) => k in s.orphans
    case Marked(k) => k in s.tasks && s.tasks[k].stage == Guarding(false)
    case Removed(k) => k in s.tasks && s.tasks[k].stage == Guarding(true)
  }

  function Act(s: Service, a: Action): Service
    requires Enabled(s, a)
  {
    match a
    case Call(query) => Discover(s, query)
    case Return(w, _) => Answer(s, w)
    case Poll(k) => Step(s, k, ReadingCache)
    case CacheAnswered(k, r) => OnCache(s, k, r)
    case ReserveAnswered(k, now, ok) => OnReserve(s, k, now, ok)
    case ProviderAnswered(k, r) => OnProvider(s, k, r)
    case Saved(k) => Settle(s, k, Some(s.tasks[k].stage.outcome))
    case TimedOut(k) => Settle(Abandon(s, k), k, None)
    case Cancelled(k) => Step(Abandon(s, k), k, if s.tasks[k].stage.Spawned? then Lost else Guarding(false))
    case ReservedLate(k, now) => ReserveLate(s, k, now)
    case Marked(k) => Mark(s, k)
    case Removed(k) => Remove(s, k)
  }
}
