/** Why a discovery answers what it does: every status has its one cause, and every cause its status. */
module Outcomes {
  import opened Prelude
  import opened Songs
  import opened Flights
  import opened FlightLaws

  /** The step that decides a flight's outcome: saved songs, found songs, no key, no allowance left, or a failure. */
  predicate Earns(s: Service, a: Action, k: FlightId, o: Outcome) {
    match o.status
    case Cached => a == CacheAnswered(k, Hit(o.results))
    case Fresh => a == ProviderAnswered(k, Found(o.results, false))
    case MissingCredentials => a == CacheAnswered(k, Miss) && !s.key && o.results == []
    case DailyLimitReached =>
      && a.ReserveAnswered? && a.flight == k && a.storage && o.results == []
      && Attempts(s, a.now / 86400) >= (if s.limit < 0x7fff_ffff_ffff_ffff then s.limit else 0x7fff_ffff_ffff_ffff)
    case TemporarilyUnavailable => o.results == [] && Fails(s, a, k)
  }

  /** The cache, the counter or the provider fails, or the deadline or a cancellation comes before there was an outcome. */
  predicate Fails(s: Service, a: Action, k: FlightId) {
    || a == CacheAnswered(k, CacheFailed)
    || (a.ReserveAnswered? && a.flight == k && !a.storage)
    || (a.ProviderAnswered? && a.flight == k && (a.provided.ProviderFailed? || a.provided.late))
    || ((a == TimedOut(k) || a == Marked(k)) && k in s.tasks && s.tasks[k].progress.outcome.None?)
  }

  predicate HasOutcome(s: Service, k: FlightId, o: Outcome) {
    k in s.tasks && s.tasks[k].progress.outcome == Some(o)
  }

  lemma SettledOutcome(s: Service, k: FlightId, outcome: Option<Outcome>, j: FlightId, o: Outcome)
    requires k in s.tasks && s.tasks[k].progress.outcome.None?
    ensures HasOutcome(Settle(s, k, outcome), j, o) <==>
              if j == k then o == (if outcome.Some? then outcome.value else UNAVAILABLE) else HasOutcome(s, j, o)
  {
  }

  lemma CacheEarns(s: Service, k: FlightId, r: CacheRead, j: FlightId, o: Outcome)
    requires MapOk(s) && Enabled(s, CacheAnswered(k, r))
    ensures HasOutcome(OnCache(s, k, r), j, o) <==> HasOutcome(s, j, o) || Earns(s, CacheAnswered(k, r), j, o)
  {
    assert FlightOk(s.tasks[k]);
    if r.Hit? { SettledOutcome(s, k, Some(Outcome(r.songs, Cached)), j, o); }
    else if r.CacheFailed? { SettledOutcome(s, k, Some(UNAVAILABLE), j, o); }
    else { SettledOutcome(s, k, Some(Outcome([], MissingCredentials)), j, o); }
  }

  lemma ReserveEarns(s: Service, k: FlightId, now: int, storage: bool, j: FlightId, o: Outcome)
    requires MapOk(s) && Enabled(s, ReserveAnswered(k, now, storage))
    ensures HasOutcome(OnReserve(s, k, now, storage), j, o) <==>
              HasOutcome(s, j, o) || Earns(s, ReserveAnswered(k, now, storage), j, o)
  {
    assert FlightOk(s.tasks[k]);
    SettledOutcome(s, k, Some(UNAVAILABLE), j, o);
    SettledOutcome(Reserve(s, DayOf(now)), k, Some(Outcome([], DailyLimitReached)), j, o);
  }

  lemma ProviderEarns(s: Service, k: FlightId, r: Provided, j: FlightId, o: Outcome)
    requires MapOk(s) && Enabled(s, ProviderAnswered(k, r))
    ensures HasOutcome(OnProvider(s, k, r), j, o) <==> HasOutcome(s, j, o) || Earns(s, ProviderAnswered(k, r), j, o)
  {
    assert FlightOk(s.tasks[k]);
    SettledOutcome(s, k, Some(UNAVAILABLE), j, o);
  }

  lemma SavedEarns(s: Service, k: FlightId, j: FlightId, o: Outcome)
    requires MapOk(s) && Enabled(s, Saved(k))
    ensures HasOutcome(Act(s, Saved(k)), j, o) <==> HasOutcome(s, j, o)
  {
    assert FlightOk(s.tasks[k]);
  }

  lemma TimeoutEarns(s: Service, k: FlightId, j: FlightId, o: Outcome)
    requires MapOk(s) && Enabled(s, TimedOut(k))
    ensures HasOutcome(Act(s, TimedOut(k)), j, o) <==> HasOutcome(s, j, o) || Earns(s, TimedOut(k), j, o)
  {
    assert FlightOk(s.tasks[k]);
  }

  lemma MarkEarns(s: Service, k: FlightId, j: FlightId, o: Outcome)
    requires MapOk(s) && Enabled(s, Marked(k))
    ensures HasOutcome(Act(s, Marked(k)), j, o) <==> HasOutcome(s, j, o) || Earns(s, Marked(k), j, o)
  {
  }

  lemma EndsEarn(s: Service, a: Action, j: FlightId, o: Outcome)
    requires MapOk(s) && Enabled(s, a) && (a.Saved? || a.TimedOut? || a.Marked? || a.Cancelled? || a.Removed? || a.Poll?)
    ensures HasOutcome(Act(s, a), j, o) <==> HasOutcome(s, j, o) || Earns(s, a, j, o)
  {
    if a.Saved? { SavedEarns(s, a.flight, j, o); }
    else if a.TimedOut? { TimeoutEarns(s, a.flight, j, o); }
    else if a.Marked? { MarkEarns(s, a.flight, j, o); }
  }

  /** A step gives a flight an outcome exactly by earning it. */
  lemma OutcomesAreEarned(s: Service, a: Action, j: FlightId, o: Outcome)
    requires MapOk(s) && Enabled(s, a)
    ensures HasOutcome(Act(s, a), j, o) <==> HasOutcome(s, j, o) || Earns(s, a, j, o)
  {
    if a.CacheAnswered? { CacheEarns(s, a.flight, a.cache, j, o); }
    else if a.ReserveAnswered? { ReserveEarns(s, a.flight, a.now, a.storage, j, o); }
    else if a.ProviderAnswered? { ProviderEarns(s, a.flight, a.provided, j, o); }
    else if TaskAction(a) { EndsEarn(s, a, j, o); }
    else if a.Call? { assert s.serial !in s.tasks; }
  }

  lemma EarnedStep(ss: seq<Service>, acts: seq<Action>, m: nat, k: FlightId, o: Outcome)
    requires m < |acts| < |ss|
    ensures Earned(ss, acts, m + 1, k, o) <==> Earned(ss, acts, m, k, o) || Earns(ss[m], acts[m], k, o)
  {
    if Earned(ss, acts, m + 1, k, o) {
      var i :| 0 <= i < m + 1 && Earns(ss[i], acts[i], k, o);
      assert i < m ==> Earned(ss, acts, m, k, o);
    }
    if Earned(ss, acts, m, k, o) {
      var i :| 0 <= i < m && Earns(ss[i], acts[i], k, o);
      assert 0 <= i < m + 1 && Earns(ss[i], acts[i], k, o);
    }
  }

  ghost predicate Earned(ss: seq<Service>, acts: seq<Action>, n: nat, k: FlightId, o: Outcome)
    requires n <= |acts| < |ss|
  {
    exists i :: 0 <= i < n && Earns(ss[i], acts[i], k, o)
  }

  /** Over any run a flight has an outcome if and only if some step of the run earned it, so no two steps earn two. */
  lemma {:induction false} OutcomesWereEarned(ss: seq<Service>, acts: seq<Action>, n: nat, k: FlightId, o: Outcome)
    requires Run(ss, acts) && n <= |acts|
    ensures HasOutcome(ss[n], k, o) <==> Earned(ss, acts, n, k, o)
  {
    if n > 0 {
      OutcomesWereEarned(ss, acts, n - 1, k, o);
      RunInv(ss, acts, n - 1);
      assert Steps(ss[n - 1], acts[n - 1], ss[n]);
      OutcomesAreEarned(ss[n - 1], acts[n - 1], k, o);
      EarnedStep(ss, acts, n - 1, k, o);
    }
  }

  // ---------------------------------------------------------------- what callers are told

  /** A waiter's answer is its flight's outcome, or that there was none in time. */
  predicate ToldTrue(s: Service, w: nat) {
    w in s.waiters && s.waiters[w].answer.Some? ==>
      s.waiters[w].answer.value == UNAVAILABLE || HasOutcome(s, s.waiters[w].flight, s.waiters[w].answer.value)
  }

  predicate Numbered(s: Service, w: nat) {
    w in s.waiters ==> w < s.serial
  }

  lemma AnswersStay(s: Service, a: Action, w: nat)
    requires ServiceInv(s) && Enabled(s, a) && ToldTrue(s, w) && Numbered(s, w)
    ensures ToldTrue(Act(s, a), w) && Numbered(Act(s, a), w)
  {
    if w in s.waiters {
      ActLasting(s, a, s.waiters[w].flight);
      WaitersStay(s, a, w);
    } else if w in Act(s, a).waiters {
      NewWaiters(s, a, w);
    }
  }

  lemma WaitersStay(s: Service, a: Action, w: nat)
    requires Enabled(s, a) && w in s.waiters && s.waiters[w].flight in s.tasks && (a.Call? ==> w < s.serial)
    ensures w in Act(s, a).waiters && Act(s, a).waiters[w].flight == s.waiters[w].flight
    ensures !(a.Return? && a.waiter == w) ==> Act(s, a).waiters[w] == s.waiters[w]
    ensures Act(s, a).serial >= s.serial
  {
  }

  lemma NewWaiters(s: Service, a: Action, w: nat)
    requires Enabled(s, a) && w !in s.waiters && w in Act(s, a).waiters
    ensures Act(s, a).waiters[w].answer.None? && w < Act(s, a).serial
  {
  }

  lemma {:induction false} WaitersAreTold(ss: seq<Service>, acts: seq<Action>, n: nat, w: nat)
    requires Run(ss, acts) && n <= |acts|
    ensures ToldTrue(ss[n], w) && Numbered(ss[n], w)
  {
    if n > 0 {
      WaitersAreTold(ss, acts, n - 1, w);
      RunInv(ss, acts, n - 1);
      assert Steps(ss[n - 1], acts[n - 1], ss[n]);
      AnswersStay(ss[n - 1], acts[n - 1], w);
    }
  }

  /** Over any run: a caller told of songs, of a missing key or of a used-up day is told what a step of its flight earned. */
  lemma CallersAreToldWhy(ss: seq<Service>, acts: seq<Action>, n: nat, w: nat)
    requires Run(ss, acts) && n <= |acts| && w in ss[n].waiters && ss[n].waiters[w].answer.Some?
    ensures var o := ss[n].waiters[w].answer.value;
      if o.status.TemporarilyUnavailable? then o.results == [] else Earned(ss, acts, n, ss[n].waiters[w].flight, o)
  {
    WaitersAreTold(ss, acts, n, w);
    var o, k := ss[n].waiters[w].answer.value, ss[n].waiters[w].flight;
    OutcomesWereEarned(ss, acts, n, k, o);
    if o != UNAVAILABLE {
      var i :| 0 <= i < n && Earns(ss[i], acts[i], k, o);
    }
  }
}
