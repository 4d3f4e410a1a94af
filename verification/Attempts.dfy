/**
 The retry identity of a submission: it is kept while its outcome is uncertain and dropped once it is known, so a retry
 after an uncertain answer is the same request to the server.
 */
module Attempts {
  import opened Prelude
  import opened Rooms
  import opened Transactions
  import opened Events
  import opened Session
  import opened SessionLaws
  import opened SessionRuns
  import opened SessionEffects
  import Server = Submissions

  // ---------------------------------------------------------------- one step

  /** Within the epoch the attempt stays; a new membership starts without one. */
  predicate KeepsAttempt(s: Session, t: Session) {
    if t.version == s.version then t.snap.attempt == s.snap.attempt else t.snap.attempt.None?
  }

  lemma SyncAttempt(s: Session, at: nat)
    ensures Sync(s, at).snap == s.snap && Sync(s, at).version == s.version
  {
  }

  lemma MembershipAttempt(s: Session, next: Option<LobbyView>)
    ensures KeepsAttempt(s, SetMembership(s, next))
  {
    if !SameMembership(s, next) { ConnectKeeps(NewEpoch(s, next)); }
  }

  lemma EndAttempt(s: Session, reason: EndReason, e: Epoch, at: nat)
    ensures KeepsAttempt(s, End(s, reason, e, at))
  {
    MembershipAttempt(s, None);
    var s1 := SetMembership(s, None);
    SyncAttempt(s1.(snap := s1.snap.(ended := Some(reason), loading := false)), at);
  }

  lemma PassAttempt(s: Session, w: nat, bound: Epoch, at: nat)
    requires w in s.passes
    ensures KeepsAttempt(s, LoopHead(s, w, at)) && KeepsAttempt(s, FailPass(s, w)) && KeepsAttempt(s, EndIteration(s, w, bound, at))
  {
  }

  lemma CurrentAttempt(s: Session, w: nat, r: Option<Option<LobbyView>>, at: nat)
    requires Enabled(s, OnCurrent(w, r))
    ensures KeepsAttempt(s, CurrentDone(s, w, r, at))
  {
    PassAttempt(s, w, Capture(s), at);
    if r.Some? { MembershipAttempt(s, r.value); }
  }

  lemma IdentityAttempt(s: Session, w: nat, r: Option<Option<UserId>>, at: nat)
    requires Enabled(s, OnIdentity(w, r))
    ensures KeepsAttempt(s, IdentityDone(s, w, r, at))
  {
    PassAttempt(s, w, Capture(s), at);
    if r.Some? { PassAttempt(s.(snap := s.snap.(user := r.value)), w, s.passes[w].stage.bound, at); }
  }

  lemma ReadAttempt(s: Session, w: nat, r: ReadReply, at: nat)
    requires Enabled(s, OnRead(w, r))
    ensures KeepsAttempt(s, ReadDone(s, w, r, at))
  {
    var p := s.passes[w];
    PassAttempt(s, w, p.stage.bound, at);
    if r.Got? {
      PassAttempt(ApplyQueue(s, r.view, p.stage.bound), w, p.stage.bound, at);
    } else {
      PassAttempt(s.(dirty := true, passes := s.passes[w := p.(recoveries := p.recoveries + 1)]), w, p.stage.bound, at);
    }
  }

  lemma EventAttempt(s: Session, c: nat, event: Event, at: nat)
    requires Enabled(s, OnEvent(c, event))
    ensures KeepsAttempt(s, StreamEvent(s, c, event, at))
  {
    SyncAttempt(s.(snap := s.snap.(live := true)), at);
    if event.MembershipEnded? { EndAttempt(s, event.reason, s.readers[c].epoch, at); }
  }

  lemma StreamAttempt(s: Session, c: nat, at: nat)
    requires c in s.readers
    ensures KeepsAttempt(s, AfterStream(s, c, at))
  {
    SyncAttempt(s.(snap := s.snap.(live := false)), at);
  }

  lemma ReleaseAttempt(s: Session, e: Epoch)
    ensures KeepsAttempt(s, ReleaseBusy(s, e))
  {
  }

  lemma ReplyAttempt(s: Session, k: nat, r: CallReply, at: nat)
    requires Enabled(s, OnReply(k, r))
    ensures KeepsAttempt(s, CallDone(s, k, r, at))
  {
    var e := s.calls[k].epoch;
    if s.calls[k].op.SendLeave? { LeftAttempt(s, k, r, at); }
    else if r.Replied? { ReleaseAttempt(Settle(ApplyQueue(s, r.view, e), k, true, false), e); }
    else { SyncAttempt(s.(snap := s.snap.(error := true)), at); }
  }

  lemma LeftAttempt(s: Session, k: nat, r: CallReply, at: nat)
    requires Enabled(s, OnReply(k, r)) && s.calls[k].op.SendLeave?
    ensures KeepsAttempt(s, CallDone(s, k, r, at))
  {
    var s1 := s.(calls := s.calls - {k});
    SyncAttempt(s1.(snap := s1.snap.(error := true, busy := false)), at);
    EndAttempt(s1, Left, s.calls[k].epoch, at);
  }

  lemma RestAttempt(s: Session, a: Action, at: nat)
    requires Enabled(s, a) && (a.OnSynced? || a.OnFinally? || a.OnTimer? || a.OnClosed? || a.OnRefreshed? || a.DoRequest?
                               || a.DoAdvance? || a.DoRetry? || a.DoLeave?)
    ensures KeepsAttempt(s, Act(s, a, at))
  {
    if a.OnSynced? { ReleaseAttempt(Settle(s, a.call, false, s.calls[a.call].stage.uncertain), s.calls[a.call].epoch); }
    else if a.OnClosed? || a.OnRefreshed? { StreamAttempt(s, a.reader, at); }
  }

  /** Stopping and starting keep the attempt, though they begin new epochs. */
  lemma RestartsKeepTheAttempt(s: Session, at: nat)
    ensures Stop(s).snap.attempt == s.snap.attempt && Start(s, at).snap.attempt == s.snap.attempt
  {
    if !s.active {
      ConnectKeeps(Awaken(s));
      SyncAttempt(Connect(Awaken(s)), at);
    }
  }

  /**
   All that changes the attempt: adding while there is none makes it; discarding it while nothing is outstanding, and
   the return of a submission, settle it; a new membership drops it; nothing else touches it.
   */
  lemma AttemptStep(s: Session, a: Action, at: nat)
    requires Enabled(s, a) && !a.DoStart? && !a.DoStop?
    ensures
      var t := Act(s, a, at);
      if t.version != s.version then t.snap.attempt.None?
      else if a.DoAdd? && s.snap.attempt.None? && !s.snap.busy then t.snap.attempt == Some(a.attempt)
      else if a.DoDiscard? && !s.snap.busy then t.snap.attempt.None?
      else if a.OnReturned? && Valid(s, s.calls[a.call].epoch) then
        t.snap.attempt == None || (s.calls[a.call].op.SendSubmission? && t.snap.attempt == Some(s.calls[a.call].op.attempt))
      else t.snap.attempt == s.snap.attempt
  {
    if a.OnCurrent? { CurrentAttempt(s, a.pass, a.current, at); }
    else if a.OnIdentity? { IdentityAttempt(s, a.pass, a.identity, at); }
    else if a.OnRead? { ReadAttempt(s, a.pass, a.read, at); }
    else if a.OnEvent? { EventAttempt(s, a.reader, a.event, at); }
    else if a.OnReply? { ReplyAttempt(s, a.call, a.reply, at); }
    else if !a.OnReturned? && !a.DoAdd? && !a.DoDiscard? { RestAttempt(s, a, at); }
  }

  // ---------------------------------------------------------------- what becomes of a call

  predicate OwnCompletion(a: Action, k: nat) {
    (a.OnReply? || a.OnSynced? || a.OnReturned?) && a.call == k
  }

  /** The call is as it was, or not there as it was not. */
  predicate SameCall(s: Session, t: Session, k: nat) {
    (k in s.calls <==> k in t.calls) && (k in s.calls ==> t.calls[k] == s.calls[k])
  }

  lemma StartCallSame(s: Session, op: Operation, e: Epoch, k: nat)
    requires k < s.serial
    ensures SameCall(s, StartCall(s, op, e), k) && s.serial <= StartCall(s, op, e).serial
  {
  }

  lemma ReleaseSame(s: Session, e: Epoch, k: nat)
    requires k < s.serial
    ensures SameCall(s, ReleaseBusy(s, e), k)
  {
    var s1 := s.(snap := s.snap.(busy := false), pendingEnd := None);
    if s.pendingEnd.Some? { StartCallSame(s1, Send(Advance(s.pendingEnd.value.0)), s.pendingEnd.value.1, k); }
  }

  lemma OthersReplySame(s: Session, j: nat, r: CallReply, at: nat, k: nat)
    requires Enabled(s, OnReply(j, r)) && j != k && k < s.serial
    ensures SameCall(s, CallDone(s, j, r, at), k)
  {
    var e := s.calls[j].epoch;
    if s.calls[j].op.SendLeave? { LeftSame(s, j, r, at, k); }
    else if r.Replied? { ReleaseSame(Settle(ApplyQueue(s, r.view, e), j, true, false), e, k); }
    else { SyncKeeps(s.(snap := s.snap.(error := true)), at); }
  }

  lemma LeftSame(s: Session, j: nat, r: CallReply, at: nat, k: nat)
    requires Enabled(s, OnReply(j, r)) && s.calls[j].op.SendLeave? && j != k
    ensures SameCall(s, CallDone(s, j, r, at), k)
  {
    var s1 := s.(calls := s.calls - {j});
    EndSendsNothing(s1, Left, s.calls[j].epoch, at);
    SyncKeeps(s1.(snap := s1.snap.(error := true, busy := false)), at);
  }

  lemma PassesSame(s: Session, a: Action, at: nat)
    requires Enabled(s, a) && (a.OnCurrent? || a.OnIdentity? || a.OnRead? || a.OnFinally? || a.OnEvent? || a.OnClosed?
                               || a.OnRefreshed? || a.OnTimer? || a.DoStart? || a.DoStop?)
    ensures Act(s, a, at).calls == s.calls
  {
    if a.OnCurrent? { CurrentSendsNothing(s, a.pass, a.current, at); }
    else if a.OnIdentity? { IdentitySendsNothing(s, a.pass, a.identity, at); }
    else if a.OnRead? { ReadSendsNothing(s, a.pass, a.read, at); }
    else if a.OnEvent? { EventSendsNothing(s, a.reader, a.event, at); }
    else if a.OnClosed? || a.OnRefreshed? { StreamSendsNothing(s, a.reader, at); }
    else if a.DoStart? { StartSendsNothing(s, at); }
  }

  lemma UsersSame(s: Session, a: Action, at: nat, k: nat)
    requires UserAction(a) && k < s.serial
    ensures SameCall(s, Act(s, a, at), k)
  {
    if a.DoRequest? { StartCallSame(s, Send(a.command), Capture(s), k); }
    else if a.DoAdvance? { StartCallSame(s, Send(Advance(a.entry)), Capture(s), k); }
    else if a.DoRetry? { if s.snap.attempt.Some? { StartCallSame(s, SendSubmission(s.snap.attempt.value), Capture(s), k); } }
    else if a.DoAdd? {
      var s1 := s.(snap := s.snap.(attempt := Some(a.attempt)));
      StartCallSame(s1, SendSubmission(a.attempt), Capture(s1), k);
    }
  }

  /** Only its own completions touch a call, and no number is used twice. */
  lemma CallStays(s: Session, a: Action, at: nat, k: nat)
    requires Enabled(s, a) && !OwnCompletion(a, k) && k < s.serial
    ensures SameCall(s, Act(s, a, at), k)
  {
    if UserAction(a) { UsersSame(s, a, at, k); }
    else if a.OnReply? { OthersReplySame(s, a.call, a.reply, at, k); }
    else if a.OnSynced? { ReleaseSame(Settle(s, a.call, false, s.calls[a.call].stage.uncertain), s.calls[a.call].epoch, k); }
    else if !a.OnReturned? { PassesSame(s, a, at); }
  }

  /** A submission's reply and resynchronization, step by step: what is remembered is what the server answered. */
  lemma SubmissionSteps(s: Session, a: Action, at: nat, k: nat)
    requires Enabled(s, a) && OwnCompletion(a, k) && k < s.serial && s.calls[k].op.SendSubmission?
    ensures
      var t, c := Act(s, a, at), s.calls[k];
      k in t.calls ==>
        && t.calls[k].op == c.op && t.calls[k].epoch == c.epoch && !a.OnReturned?
        && (a.OnReply? ==> (a.reply.Replied? && t.calls[k].stage == Returning(true, false))
                           || (a.reply.Refused? && t.calls[k].stage.Syncing? && t.calls[k].stage.uncertain == a.reply.uncertain))
        && (a.OnSynced? ==> c.stage.Syncing? && t.calls[k].stage == Returning(false, c.stage.uncertain))
  {
    var e := s.calls[k].epoch;
    if a.OnReply? {
      SyncKeeps(s.(snap := s.snap.(error := true)), at);
      if a.reply.Replied? { ReleaseSame(Settle(ApplyQueue(s, a.reply.view, e), k, true, false), e, k); }
    } else if a.OnSynced? {
      ReleaseSame(Settle(s, k, false, s.calls[k].stage.uncertain), e, k);
    }
  }

  // ---------------------------------------------------------------- runs

  predicate Answers(a: Action, k: nat) {
    a.OnReply? && a.call == k
  }

  /** From `i` to before `n` the server answered the call, and with nothing but `r`. */
  ghost predicate WasAnswered(acts: seq<Action>, i: nat, n: nat, k: nat, r: CallReply) {
    && n <= |acts| && (exists p :: i <= p < n && Answers(acts[p], k))
    && (forall p :: i <= p < n && Answers(acts[p], k) ==> acts[p].reply == r)
  }

  ghost predicate WasNotAnswered(acts: seq<Action>, i: nat, n: nat, k: nat) {
    n <= |acts| && forall p :: i <= p < n ==> !Answers(acts[p], k)
  }

  /** What a submission's call remembers is what it was answered. */
  ghost predicate FateOk(acts: seq<Action>, i: nat, n: nat, k: nat, stage: CallStage) {
    match stage
    case InFlight => WasNotAnswered(acts, i, n, k)
    case Syncing(_, uncertain) => WasAnswered(acts, i, n, k, Refused(uncertain))
    case Returning(ok, uncertain) =>
      if ok then exists v :: WasAnswered(acts, i, n, k, Replied(v)) else WasAnswered(acts, i, n, k, Refused(uncertain))
  }

  lemma AnsweredLater(acts: seq<Action>, i: nat, n: nat, k: nat, r: CallReply)
    requires i <= n < |acts| && WasAnswered(acts, i, n, k, r) && !Answers(acts[n], k)
    ensures WasAnswered(acts, i, n + 1, k, r)
  {
    var p :| i <= p < n && Answers(acts[p], k);
    assert i <= p < n + 1;
  }

  lemma AnsweredNow(acts: seq<Action>, i: nat, n: nat, k: nat)
    requires i <= n < |acts| && WasNotAnswered(acts, i, n, k) && Answers(acts[n], k)
    ensures WasAnswered(acts, i, n + 1, k, acts[n].reply)
  {
    assert i <= n < n + 1 && Answers(acts[n], k);
  }

  lemma FateLater(acts: seq<Action>, i: nat, n: nat, k: nat, stage: CallStage)
    requires i <= n < |acts| && FateOk(acts, i, n, k, stage) && !Answers(acts[n], k)
    ensures FateOk(acts, i, n + 1, k, stage)
  {
    match stage
    case InFlight =>
    case Syncing(_, uncertain) => AnsweredLater(acts, i, n, k, Refused(uncertain));
    case Returning(ok, uncertain) =>
      if ok {
        var v :| WasAnswered(acts, i, n, k, Replied(v));
        AnsweredLater(acts, i, n, k, Replied(v));
      } else {
        AnsweredLater(acts, i, n, k, Refused(uncertain));
      }
  }

  /** The step `i` sends the call `k`, a submission of `a`. */
  ghost predicate Submits(ss: seq<Session>, acts: seq<Action>, i: nat, k: nat, a: Attempt) {
    && i < |acts| < |ss| && k !in ss[i].calls && k in ss[i + 1].calls && ss[i + 1].calls[k].op == SendSubmission(a)
  }

  lemma SubmissionIsNew(s: Session, a: Action, at: nat, k: nat)
    requires Enabled(s, a) && k !in s.calls && k in Act(s, a, at).calls && Act(s, a, at).calls[k].op.SendSubmission?
    ensures (a.DoAdd? || a.DoRetry?) && k == s.serial && Act(s, a, at).calls[k].stage.InFlight?
    ensures Act(s, a, at).calls[k].epoch == Capture(s) && Valid(s, Capture(s)) && !s.snap.busy
    ensures Act(s, a, at).version == s.version && Act(s, a, at).snap.attempt == Some(Act(s, a, at).calls[k].op.attempt)
    ensures a.DoRetry? ==> s.snap.attempt == Some(Act(s, a, at).calls[k].op.attempt)
    ensures a.DoAdd? ==> a.attempt == Act(s, a, at).calls[k].op.attempt
  {
    if !a.DoAdd? && !a.DoRetry? { OthersSubmitNothing(s, a, at, k); }
  }

  lemma OthersSubmitNothing(s: Session, a: Action, at: nat, k: nat)
    requires Enabled(s, a) && k !in s.calls && !a.DoAdd? && !a.DoRetry?
    ensures k in Act(s, a, at).calls ==> !Act(s, a, at).calls[k].op.SendSubmission?
  {
    if k in Act(s, a, at).calls {
      if a.OnReply? { RepliesSubmitNothing(s, a.call, a.reply, at, k); }
      else if a.OnSynced? { ReleaseSubmitsNothing(Settle(s, a.call, false, s.calls[a.call].stage.uncertain), s.calls[a.call].epoch, k); }
      else if !UserAction(a) && !a.OnReturned? { PassesSame(s, a, at); }
    }
  }

  lemma ReleaseSubmitsNothing(s: Session, e: Epoch, k: nat)
    requires k !in s.calls && k in ReleaseBusy(s, e).calls
    ensures ReleaseBusy(s, e).calls[k].op.Send?
  {
  }

  lemma RepliesSubmitNothing(s: Session, j: nat, r: CallReply, at: nat, k: nat)
    requires Enabled(s, OnReply(j, r)) && k !in s.calls && k in CallDone(s, j, r, at).calls
    ensures CallDone(s, j, r, at).calls[k].op.Send?
  {
    if s.calls[j].op.SendLeave? { LeavingSendsNothing(s, j, r, at); }
    else if r.Replied? && Valid(s, s.calls[j].epoch) {
      ReleaseSubmitsNothing(Settle(ApplyQueue(s, r.view, s.calls[j].epoch), j, true, false), s.calls[j].epoch, k);
    } else { RefusalSendsNothing(s, j, r, at); }
  }

  /** Numbers are never taken back. */
  lemma {:induction false} SerialGrows(ss: seq<Session>, acts: seq<Action>, times: seq<nat>, n: nat)
    requires SessionRun(ss, acts, times) && n < |acts|
    ensures BornBy(ss[n], times[n]) && ss[n].serial <= ss[n + 1].serial
  {
    if n > 0 {
      SerialGrows(ss, acts, times, n - 1);
      RunKeepsInv(ss, acts, times, n - 1);
      assert Steps(ss[n - 1], acts[n - 1], times[n - 1], ss[n]);
      ActEffects(ss[n - 1], acts[n - 1], times[n - 1]);
    }
    RunKeepsInv(ss, acts, times, n);
    assert Steps(ss[n], acts[n], times[n], ss[n + 1]);
    ActEffects(ss[n], acts[n], times[n]);
  }

  ghost predicate Fated(ss: seq<Session>, acts: seq<Action>, i: nat, n: nat, k: nat, a: Attempt)
    requires n <= |acts| < |ss|
  {
    k in ss[n].calls ==> ss[n].calls[k].op == SendSubmission(a) && FateOk(acts, i, n, k, ss[n].calls[k].stage)
  }

  lemma FateStep(ss: seq<Session>, acts: seq<Action>, times: seq<nat>, i: nat, n: nat, k: nat, a: Attempt)
    requires SessionRun(ss, acts, times) && i <= n < |acts| && k < ss[n].serial && Fated(ss, acts, i, n, k, a)
    ensures Fated(ss, acts, i, n + 1, k, a)
  {
    var s, x, t := ss[n], acts[n], ss[n + 1];
    assert Steps(s, x, times[n], t);
    if OwnCompletion(x, k) {
      if k in t.calls {
        SubmissionSteps(s, x, times[n], k);
        if x.OnReply? {
          AnsweredNow(acts, i, n, k);
        } else {
          FateLater(acts, i, n, k, s.calls[k].stage);
        }
      }
    } else {
      CallStays(s, x, times[n], k);
      if k in s.calls { FateLater(acts, i, n, k, s.calls[k].stage); }
    }
  }

  lemma {:induction false} FateHolds(ss: seq<Session>, acts: seq<Action>, times: seq<nat>, i: nat, n: nat, k: nat, a: Attempt)
    requires SessionRun(ss, acts, times) && Submits(ss, acts, i, k, a) && i < n <= |acts|
    ensures k < ss[n].serial && Fated(ss, acts, i, n, k, a)
    decreases n
  {
    var m := n - 1;
    assert Steps(ss[m], acts[m], times[m], ss[n]);
    RunKeepsInv(ss, acts, times, m);
    RunKeepsInv(ss, acts, times, n);
    if m == i {
      SubmissionIsNew(ss[i], acts[i], times[i], k);
    } else {
      FateHolds(ss, acts, times, i, m, k, a);
      FateStep(ss, acts, times, i, m, k, a);
      SerialGrows(ss, acts, times, m);
    }
  }

  /**
   When a submission returns in a valid epoch, its attempt is kept if and only if its one answer was an uncertain
   failure; a success and a certain refusal drop it.
   */
  lemma ReturnsSettleTheAttempt(ss: seq<Session>, acts: seq<Action>, times: seq<nat>, i: nat, k: nat, a: Attempt, j: nat)
    returns (r: CallReply)
    requires SessionRun(ss, acts, times) && Submits(ss, acts, i, k, a) && i < j < |acts| && acts[j] == OnReturned(k)
    requires k in ss[j].calls && Valid(ss[j], ss[j].calls[k].epoch)
    ensures WasAnswered(acts, i, j, k, r) && (r.Replied? || r.Refused?)
    ensures ss[j + 1].snap.attempt == if r == Refused(true) then Some(a) else None
  {
    FateHolds(ss, acts, times, i, j, k, a);
    assert Steps(ss[j], acts[j], times[j], ss[j + 1]);
    var stage := ss[j].calls[k].stage;
    if stage.ok {
      var v :| WasAnswered(acts, i, j, k, Replied(v));
      r := Replied(v);
    } else {
      r := Refused(stage.uncertain);
    }
  }

  /** The steps that settle an attempt: a submission returns in its epoch, or the user discards it. */
  predicate Settles(s: Session, a: Action)
    requires Enabled(s, a)
  {
    (a.OnReturned? && Valid(s, s.calls[a.call].epoch)) || (a.DoDiscard? && !s.snap.busy)
  }

  /** One epoch, in which nothing settles the attempt. */
  ghost predicate Unsettled(ss: seq<Session>, acts: seq<Action>, i: nat, n: nat) {
    && i <= n <= |acts| < |ss| && (forall m :: i <= m <= n ==> ss[m].version == ss[i].version)
    && (forall m :: i <= m < n ==> Enabled(ss[m], acts[m]) && !Settles(ss[m], acts[m]))
  }

  /** An attempt lasts, whatever happens, until it is settled in its epoch. */
  lemma {:induction false} AttemptsLast(ss: seq<Session>, acts: seq<Action>, times: seq<nat>, i: nat, n: nat, a: Attempt)
    requires SessionRun(ss, acts, times) && Unsettled(ss, acts, i, n) && ss[i].snap.attempt == Some(a)
    ensures ss[n].snap.attempt == Some(a)
    decreases n
  {
    if i < n {
      var m := n - 1;
      AttemptsLast(ss, acts, times, i, m, a);
      assert Steps(ss[m], acts[m], times[m], ss[n]);
      assert ss[m].version == ss[n].version && !Settles(ss[m], acts[m]);
      if acts[m].DoStart? || acts[m].DoStop? {
        RestartsKeepTheAttempt(ss[m], times[m]);
      } else {
        AttemptStep(ss[m], acts[m], times[m]);
      }
    }
  }

  /** From its sending until it is settled a submission's attempt is shown, with its request id. */
  lemma SentAttemptsLast(ss: seq<Session>, acts: seq<Action>, times: seq<nat>, i: nat, k: nat, a: Attempt, n: nat)
    requires SessionRun(ss, acts, times) && Submits(ss, acts, i, k, a) && i < n && Unsettled(ss, acts, i + 1, n)
    ensures ss[n].snap.attempt == Some(a)
  {
    assert Steps(ss[i], acts[i], times[i], ss[i + 1]);
    SubmissionIsNew(ss[i], acts[i], times[i], k);
    AttemptsLast(ss, acts, times, i + 1, n, a);
  }

  /**
   After an uncertain answer, whatever is submitted before the attempt is settled is the same request: the same video
   under the same request id.
   */
  lemma RetriesRepeatTheRequest(ss: seq<Session>, acts: seq<Action>, times: seq<nat>, i: nat, k: nat, a: Attempt, j: nat,
                                n: nat, h: nat, b: Attempt)
    requires SessionRun(ss, acts, times) && Submits(ss, acts, i, k, a) && i < j < n < |acts| && acts[j] == OnReturned(k)
    requires k in ss[j].calls && Valid(ss[j], ss[j].calls[k].epoch) && WasAnswered(acts, i, j, k, Refused(true))
    requires Unsettled(ss, acts, j + 1, n) && Submits(ss, acts, n, h, b)
    ensures acts[n].DoRetry? && b == a
  {
    var r := ReturnsSettleTheAttempt(ss, acts, times, i, k, a, j);
    assert r == Refused(true) by {
      var p :| i <= p < j && Answers(acts[p], k);
    }
    AttemptsLast(ss, acts, times, j + 1, n, a);
    assert Steps(ss[n], acts[n], times[n], ss[n + 1]);
    SubmissionIsNew(ss[n], acts[n], times[n], h);
    if acts[n].DoAdd? { AddsNothingMore(ss[n], acts[n], times[n]); }
  }

  lemma AddsNothingMore(s: Session, a: Action, at: nat)
    requires Enabled(s, a) && a.DoAdd? && s.snap.attempt.Some?
    ensures Act(s, a, at) == s
  {
  }

  /**
   So a retry adds no second entry: if the server answers both the request and its retry for one lobby, they name one
   entry, and at most one of them created it.
   */
  lemma RetriesAddOnce(ss: seq<Session>, acts: seq<Action>, times: seq<nat>, i: nat, k: nat, a: Attempt, j: nat,
                       n: nat, h: nat, b: Attempt, ys: seq<Server.System>, at: nat, x: nat, y: nat)
    requires SessionRun(ss, acts, times) && Submits(ss, acts, i, k, a) && i < j < n < |acts| && acts[j] == OnReturned(k)
    requires k in ss[j].calls && Valid(ss[j], ss[j].calls[k].epoch) && WasAnswered(acts, i, j, k, Refused(true))
    requires Unsettled(ss, acts, j + 1, n) && Submits(ss, acts, n, h, b)
    requires Server.Execution(ys) && at < |ys| && x in ys[at].tasks && y in ys[at].tasks && x != y
    requires ys[at].tasks[x].stage.Answered? && ys[at].tasks[y].stage.Answered?
    requires ys[at].tasks[x].job.request == a.request && ys[at].tasks[y].job.request == b.request
    requires ys[at].tasks[x].job.user.id == ys[at].tasks[y].job.user.id
    requires ys[at].tasks[x].stage.lobby == ys[at].tasks[y].stage.lobby
    requires ys[at].tasks[x].stage.room.expiresAt == ys[at].tasks[y].stage.room.expiresAt
    ensures ys[at].tasks[x].stage.reply.entry == ys[at].tasks[y].stage.reply.entry
    ensures !(ys[at].tasks[x].stage.reply.changed && ys[at].tasks[y].stage.reply.changed)
  {
    RetriesRepeatTheRequest(ss, acts, times, i, k, a, j, n, h, b);
    Server.ExactlyOnce(ys, at, x, y);
  }
}
