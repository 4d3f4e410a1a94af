/**
 The session over whole runs: stale completions change nothing that matters,
 views only move on within a membership, hints are never lost, and an advance
 is only ever sent for the entry the user is looking at.
 */
module SessionRuns {
  import opened Prelude
  import opened Rooms
  import opened Transactions
  import opened Events
  import opened Session
  import opened SessionLaws

  // ---------------------------------------------------------------- stale completions

  /** The epoch a completion carries. */
  function Carried(s: Session, a: Action): Option<Epoch>
    requires Enabled(s, a)
  {
    match a
    case OnCurrent(w, _) => BoundOf(s.passes[w].stage)
    case OnIdentity(w, _) => BoundOf(s.passes[w].stage)
    case OnRead(w, _) => BoundOf(s.passes[w].stage)
    case OnEvent(c, _) => Some(s.readers[c].epoch)
    case OnClosed(c, _) => Some(s.readers[c].epoch)
    case OnRefreshed(c) => Some(s.readers[c].epoch)
    case OnTimer(c) => Some(s.readers[c].epoch)
    case OnReply(k, _) => Some(s.calls[k].epoch)
    case OnSynced(k) => Some(s.calls[k].epoch)
    case OnReturned(k) => Some(s.calls[k].epoch)
    case _ => None
  }

  /** All of the snapshot but the three status lights. */
  predicate SameContent(a: Snap, b: Snap) {
    && a.known == b.known && a.queue == b.queue && a.user == b.user && a.busy == b.busy
    && a.error == b.error && a.ended == b.ended && a.attempt == b.attempt
  }

  predicate PassAction(a: Action) {
    a.OnCurrent? || a.OnIdentity? || a.OnRead? || a.OnFinally?
  }

  predicate ReaderAction(a: Action) {
    a.OnEvent? || a.OnClosed? || a.OnRefreshed? || a.OnTimer?
  }

  /** No content changes, no connection is opened and nothing is sent. */
  predicate Harmless(s: Session, t: Session) {
    && SameContent(s.snap, t.snap) && Capture(t) == Capture(s) && t.active == s.active
    && t.connection == s.connection && t.pendingEnd == s.pendingEnd && t.calls.Keys <= s.calls.Keys
  }

  lemma LoopHeadIsHarmless(s: Session, w: nat, at: nat)
    requires w in s.passes
    ensures Harmless(s, LoopHead(s, w, at)) && LoopHead(s, w, at).snap == s.snap
  {
  }

  lemma FailPassIsHarmless(s: Session, w: nat)
    requires w in s.passes
    ensures Harmless(s, FailPass(s, w))
    ensures FailPass(s, w).snap != s.snap ==> !Aborted(s, s.passes[w].signal) && FailPass(s, w).snap.syncError
  {
  }

  lemma StalePass(s: Session, a: Action, at: nat)
    requires Enabled(s, a) && PassAction(a) && Carried(s, a).Some? && !Valid(s, Carried(s, a).value)
    ensures Harmless(s, Act(s, a, at)) && (Act(s, a, at).snap != s.snap ==> Act(s, a, at).snap.syncError)
  {
    FailPassIsHarmless(s, a.pass);
    LoopHeadIsHarmless(s, a.pass, at);
  }

  lemma StaleReader(s: Session, a: Action, at: nat)
    requires Enabled(s, a) && ReaderAction(a) && !Valid(s, Carried(s, a).value)
    ensures Harmless(s, Act(s, a, at)) && Act(s, a, at).snap == s.snap
  {
  }

  lemma StaleCall(s: Session, a: Action, at: nat)
    requires Enabled(s, a) && (a.OnReply? || a.OnSynced? || a.OnReturned?) && !Valid(s, Carried(s, a).value)
    ensures Harmless(s, Act(s, a, at)) && Act(s, a, at).snap == s.snap
  {
  }

  /** A completion of an epoch that is over is harmless; at most a failed read may light the error lamp. */
  lemma StaleCompletionsAreHarmless(s: Session, a: Action, at: nat)
    requires Enabled(s, a) && Carried(s, a).Some? && !Valid(s, Carried(s, a).value)
    ensures Harmless(s, Act(s, a, at))
    ensures Act(s, a, at).snap != s.snap ==> PassAction(a) && Act(s, a, at).snap.syncError
  {
    if PassAction(a) { StalePass(s, a, at); }
    else if ReaderAction(a) { StaleReader(s, a, at); }
    else { StaleCall(s, a, at); }
  }

  lemma AbortedBound(s: Session, w: nat)
    requires SessionInv(s) && w in s.passes && Aborted(s, s.passes[w].signal) && BoundOf(s.passes[w].stage).Some?
    ensures !Valid(s, BoundOf(s.passes[w].stage).value)
  {
  }

  /** A pass whose lifetime was stopped changes nothing the user can see, not even a status light. */
  lemma AbortedPassesAreSilent(s: Session, a: Action, at: nat)
    requires SessionInv(s) && Enabled(s, a) && PassAction(a) && Aborted(s, s.passes[a.pass].signal)
    ensures Act(s, a, at).snap == s.snap && Harmless(s, Act(s, a, at))
  {
    var w := a.pass;
    if BoundOf(s.passes[w].stage).Some? {
      AbortedBound(s, w);
      FailPassIsHarmless(s, w);
      LoopHeadIsHarmless(s, w, at);
    }
  }

  // ---------------------------------------------------------------- within one epoch

  predicate Forward(q: Option<QueueView>, r: Option<QueueView>) {
    q.Some? ==> r.Some? && r.value.revision >= q.value.revision && r.value.membership == q.value.membership
  }

  /** The version counts membership changes and restarts; between two of them the membership stays and its queue moves on. */
  predicate EpochKeeps(s: Session, t: Session) {
    && t.version >= s.version
    && (t.version == s.version ==> IdOf(t.snap.known) == IdOf(s.snap.known) && Forward(s.snap.queue, t.snap.queue))
  }

  /** However often the session is stopped and started meanwhile, the queue of a membership it keeps moves on. */
  predicate MembershipMovesOn(s: Session, t: Session) {
    s.snap.known.In? && IdOf(t.snap.known) == IdOf(s.snap.known) ==> Forward(s.snap.queue, t.snap.queue)
  }

  predicate Onward(s: Session, t: Session) {
    EpochKeeps(s, t) && MembershipMovesOn(s, t)
  }

  lemma SyncKeeps(s: Session, at: nat)
    ensures Onward(s, Sync(s, at)) && Sync(s, at).snap == s.snap && Sync(s, at).calls == s.calls
    ensures Sync(s, at).hintAt == s.hintAt || Sync(s, at).hintAt == at
  {
  }

  lemma ConnectKeeps(s: Session)
    ensures Connect(s).snap == s.snap && Connect(s).version == s.version && Connect(s).hintAt == s.hintAt
  {
  }

  lemma MembershipKeeps(s: Session, next: Option<LobbyView>)
    ensures Onward(s, SetMembership(s, next)) && SetMembership(s, next).hintAt == s.hintAt
  {
    if !SameMembership(s, next) { ConnectKeeps(NewEpoch(s, next)); }
  }

  lemma EndKeeps(s: Session, reason: EndReason, e: Epoch, at: nat)
    ensures Onward(s, End(s, reason, e, at))
    ensures End(s, reason, e, at).hintAt == s.hintAt || End(s, reason, e, at).hintAt == at
  {
    if Valid(s, e) {
      var s1 := SetMembership(s, None);
      var s2 := s1.(snap := s1.snap.(ended := Some(reason), loading := false));
      MembershipKeeps(s, None);
      SyncKeeps(s2, at);
      assert Onward(s, s2);
    }
  }

  lemma ApplyKeeps(s: Session, view: QueueView, e: Epoch)
    requires QueueOk(s)
    ensures Onward(s, ApplyQueue(s, view, e)) && ApplyQueue(s, view, e).hintAt == s.hintAt
  {
  }

  lemma ReleaseKeeps(s: Session, e: Epoch)
    ensures var t := ReleaseBusy(s, e); t.version == s.version && t.snap.known == s.snap.known && t.snap.queue == s.snap.queue && t.hintAt == s.hintAt
  {
  }

  ghost predicate Moves(s: Session, t: Session, at: nat) {
    Onward(s, t) && (t.hintAt == s.hintAt || t.hintAt == at)
  }

  lemma LeaveKeeps(s: Session, k: nat, r: CallReply, at: nat)
    requires Enabled(s, OnReply(k, r)) && s.calls[k].op.SendLeave?
    ensures Moves(s, CallDone(s, k, r, at), at)
  {
    var s1 := s.(calls := s.calls - {k});
    if !Valid(s, s.calls[k].epoch) {
    } else if r.Refused? {
      SyncKeeps(s1.(snap := s1.snap.(error := true, busy := false)), at);
    } else {
      EndKeeps(s1, Left, s.calls[k].epoch, at);
    }
  }

  lemma ReplyKeeps(s: Session, k: nat, r: CallReply, at: nat)
    requires QueueOk(s) && Enabled(s, OnReply(k, r)) && !s.calls[k].op.SendLeave?
    ensures Moves(s, CallDone(s, k, r, at), at)
  {
    var e := s.calls[k].epoch;
    if Valid(s, e) {
      if r.Replied? {
        ApplyKeeps(s, r.view, e);
        ReleaseKeeps(Settle(ApplyQueue(s, r.view, e), k, true, false), e);
      } else {
        SyncKeeps(s.(snap := s.snap.(error := true)), at);
      }
    }
  }

  lemma EventKeeps(s: Session, c: nat, event: Event, at: nat)
    requires Enabled(s, OnEvent(c, event))
    ensures Moves(s, StreamEvent(s, c, event, at), at)
  {
    EndKeeps(s, if event.MembershipEnded? then event.reason else Left, s.readers[c].epoch, at);
    SyncKeeps(s.(snap := s.snap.(live := true)), at);
  }

  lemma StreamKeeps(s: Session, c: nat, at: nat)
    requires c in s.readers
    ensures Moves(s, AfterStream(s, c, at), at)
  {
    SyncKeeps(s.(snap := s.snap.(live := false)), at);
  }

  lemma PassHeadKeeps(s: Session, w: nat, at: nat)
    requires w in s.passes
    ensures Moves(s, LoopHead(s, w, at), at) && Moves(s, FailPass(s, w), at)
    ensures LoopHead(s, w, at).calls == s.calls && FailPass(s, w).calls == s.calls
  {
  }

  lemma CurrentKeeps(s: Session, w: nat, r: Option<Option<LobbyView>>, at: nat)
    requires Enabled(s, OnCurrent(w, r))
    ensures Moves(s, CurrentDone(s, w, r, at), at)
  {
    PassHeadKeeps(s, w, at);
    if r.Some? { MembershipKeeps(s, r.value); }
  }

  lemma IterationKeeps(s: Session, w: nat, bound: Epoch, at: nat)
    requires w in s.passes
    ensures Moves(s, EndIteration(s, w, bound, at), at) && EndIteration(s, w, bound, at).calls == s.calls
  {
  }

  lemma IdentityKeeps(s: Session, w: nat, r: Option<Option<UserId>>, at: nat)
    requires Enabled(s, OnIdentity(w, r))
    ensures Moves(s, IdentityDone(s, w, r, at), at)
  {
    PassHeadKeeps(s, w, at);
    if r.Some? { IterationKeeps(s.(snap := s.snap.(user := r.value)), w, s.passes[w].stage.bound, at); }
  }

  lemma ReadKeeps(s: Session, w: nat, r: ReadReply, at: nat)
    requires QueueOk(s) && Enabled(s, OnRead(w, r))
    ensures Moves(s, ReadDone(s, w, r, at), at)
  {
    var p := s.passes[w];
    PassHeadKeeps(s, w, at);
    if r.Got? {
      ApplyKeeps(s, r.view, p.stage.bound);
      IterationKeeps(s, w, p.stage.bound, at);
      IterationKeeps(ApplyQueue(s, r.view, p.stage.bound), w, p.stage.bound, at);
    }
  }

  lemma StartKeeps(s: Session, at: nat)
    ensures Moves(s, Start(s, at), at)
  {
    if !s.active {
      var s1 := Awaken(s);
      ConnectFrame(s1);
      SyncKeeps(Connect(s1), at);
    }
  }

  lemma StartCallKeeps(s: Session, op: Operation, e: Epoch)
    ensures StartCall(s, op, e).hintAt == s.hintAt && Onward(s, StartCall(s, op, e))
  {
  }

  lemma SubmittingKeeps(s: Session, attempt: Attempt)
    ensures Add(s, attempt).hintAt == s.hintAt && Onward(s, Add(s, attempt))
  {
    var s1 := s.(snap := s.snap.(attempt := Some(attempt)));
    StartCallKeeps(s1, SendSubmission(attempt), Capture(s1));
  }

  lemma UserKeeps(s: Session, a: Action, at: nat)
    requires UserAction(a)
    ensures Moves(s, Act(s, a, at), at)
  {
    if a.DoRequest? { StartCallKeeps(s, Send(a.command), Capture(s)); }
    else if a.DoAdvance? { StartCallKeeps(s, Send(Advance(a.entry)), Capture(s)); }
    else if a.DoAdd? { SubmittingKeeps(s, a.attempt); }
    else if a.DoRetry? { if s.snap.attempt.Some? { StartCallKeeps(s, SendSubmission(s.snap.attempt.value), Capture(s)); } }
  }

  lemma OtherKeeps(s: Session, a: Action, at: nat)
    requires Enabled(s, a) && (a.DoStop? || a.OnFinally? || a.OnReturned? || a.OnTimer?)
    ensures Moves(s, Act(s, a, at), at)
  {
  }

  /** Every step keeps the epoch's promise, and a hint is never dated back. */
  lemma StepKeeps(s: Session, a: Action, at: nat)
    requires QueueOk(s) && Enabled(s, a)
    ensures Moves(s, Act(s, a, at), at)
  {
    if a.OnReply? { if s.calls[a.call].op.SendLeave? { LeaveKeeps(s, a.call, a.reply, at); } else { ReplyKeeps(s, a.call, a.reply, at); } }
    else if a.OnSynced? { ReleaseKeeps(Settle(s, a.call, false, s.calls[a.call].stage.uncertain), s.calls[a.call].epoch); }
    else if a.OnEvent? { EventKeeps(s, a.reader, a.event, at); }
    else if a.OnClosed? || a.OnRefreshed? { StreamKeeps(s, a.reader, at); }
    else if a.OnCurrent? { CurrentKeeps(s, a.pass, a.current, at); }
    else if a.OnIdentity? { IdentityKeeps(s, a.pass, a.identity, at); }
    else if a.OnRead? { ReadKeeps(s, a.pass, a.read, at); }
    else if a.DoStart? { StartKeeps(s, at); }
    else if UserAction(a) { UserKeeps(s, a, at); }
    else { OtherKeeps(s, a, at); }
  }

  // ---------------------------------------------------------------- runs

  predicate Steps(s: Session, a: Action, at: nat, t: Session) {
    Enabled(s, a) && t == Act(s, a, at)
  }

  /** Any interleaving of the user, the network and the session's own continuations. */
  ghost predicate SessionRun(ss: seq<Session>, acts: seq<Action>, times: seq<nat>) {
    && |ss| == |acts| + 1 && |times| == |acts| && ss[0] == INITIAL
    && (forall i :: 0 <= i < |acts| ==> Steps(ss[i], acts[i], times[i], ss[i + 1]))
    && (forall i, j :: 0 <= i <= j < |times| ==> times[i] <= times[j])
  }

  lemma {:induction false} RunKeepsInv(ss: seq<Session>, acts: seq<Action>, times: seq<nat>, n: nat)
    requires SessionRun(ss, acts, times) && n <= |acts|
    ensures SessionInv(ss[n]) && (n == 0 ==> ss[n].hintAt == 0) && (n > 0 ==> ss[n].hintAt <= times[n - 1])
  {
    if n == 0 {
      InitialSession();
    } else {
      RunKeepsInv(ss, acts, times, n - 1);
      assert Steps(ss[n - 1], acts[n - 1], times[n - 1], ss[n]);
      if n > 1 { assert times[n - 2] <= times[n - 1]; }
      ActInv(ss[n - 1], acts[n - 1], times[n - 1]);
      StepKeeps(ss[n - 1], acts[n - 1], times[n - 1]);
    }
  }

  lemma RunStepKeeps(ss: seq<Session>, acts: seq<Action>, times: seq<nat>, n: nat)
    requires SessionRun(ss, acts, times) && n < |acts|
    ensures Onward(ss[n], ss[n + 1]) && QueueOk(ss[n])
  {
    RunKeepsInv(ss, acts, times, n);
    assert Steps(ss[n], acts[n], times[n], ss[n + 1]);
    StepKeeps(ss[n], acts[n], times[n]);
  }

  /** Between two moments of one epoch the membership is the same and the applied queue never goes back. */
  lemma {:induction false} EpochsKeepTheirMembership(ss: seq<Session>, acts: seq<Action>, times: seq<nat>, i: nat, j: nat)
    requires SessionRun(ss, acts, times) && i <= j <= |acts|
    ensures EpochKeeps(ss[i], ss[j])
    decreases j
  {
    if i < j {
      EpochsKeepTheirMembership(ss, acts, times, i, j - 1);
      RunStepKeeps(ss, acts, times, j - 1);
    }
  }

  ghost predicate Holds(ss: seq<Session>, i: nat, j: nat, m: MembershipId) {
    j < |ss| && forall n :: i <= n <= j ==> IdOf(ss[n].snap.known) == Some(m)
  }

  /** As long as the session has one membership, across every stop and start, its applied queue never goes back. */
  lemma {:induction false} QueueOnlyMovesOn(ss: seq<Session>, acts: seq<Action>, times: seq<nat>, i: nat, j: nat, m: MembershipId)
    requires SessionRun(ss, acts, times) && i <= j && Holds(ss, i, j, m)
    ensures Forward(ss[i].snap.queue, ss[j].snap.queue)
    decreases j
  {
    if i < j {
      QueueOnlyMovesOn(ss, acts, times, i, j - 1, m);
      RunStepKeeps(ss, acts, times, j - 1);
      assert IdOf(ss[j - 1].snap.known) == Some(m) == IdOf(ss[j].snap.known);
    }
  }

  /** At most one mutation is outstanding in an epoch, and the queue shown is of the membership the session has. */
  lemma OneOutstanding(ss: seq<Session>, acts: seq<Action>, times: seq<nat>, n: nat, j: nat, k: nat)
    requires SessionRun(ss, acts, times) && n <= |acts|
    requires j in ss[n].calls && k in ss[n].calls
    requires Outstanding(ss[n].calls[j], ss[n].version) && Outstanding(ss[n].calls[k], ss[n].version)
    ensures j == k && ss[n].snap.busy
    ensures ss[n].snap.queue.Some? ==> Some(ss[n].snap.queue.value.membership) == IdOf(ss[n].snap.known)
  {
    RunKeepsInv(ss, acts, times, n);
  }

  predicate Outdated(s: Session, w: nat) {
    w in s.passes && BoundOf(s.passes[w].stage).Some? && !Valid(s, BoundOf(s.passes[w].stage).value)
  }

  /**
   No hint is lost: a pass in flight whose epoch is over will go round again, and an active session that is idle,
   clean and without error has completed a full pass that began no earlier than its last hint.
   */
  lemma NoLostHint(ss: seq<Session>, acts: seq<Action>, times: seq<nat>, n: nat, w: nat)
    requires SessionRun(ss, acts, times) && n <= |acts|
    ensures var s := ss[n];
      && (s.flight == Some(w) && Outdated(s, w) ==> s.dirty)
      && (s.active && s.flight.None? && !s.dirty && !s.snap.syncError ==> Covered(s))
  {
    RunKeepsInv(ss, acts, times, n);
  }

  // ---------------------------------------------------------------- progression

  predicate SendsAdvance(s: Session, t: Session, k: nat, entry: EntryId) {
    k in t.calls && k !in s.calls && t.calls[k].op == Send(Advance(entry))
  }

  /** What holds once an advance has been sent: the sender hosts, and the entry is the one it shows. */
  predicate Aimed(t: Session, k: nat, entry: EntryId)
    requires k in t.calls
  {
    CurrentEntry(t) == Some(entry) && IsHost(t) && Valid(t, t.calls[k].epoch)
  }

  lemma AdvanceAims(s: Session, x: EntryId, natural: bool, e: Epoch, k: nat, entry: EntryId)
    requires SendsAdvance(s, AdvanceEntry(s, x, natural, e), k, entry)
    ensures entry == x && k == s.serial && Aimed(AdvanceEntry(s, x, natural, e), k, entry)
    ensures AdvanceEntry(s, x, natural, e).pendingEnd == s.pendingEnd
  {
  }

  /** The deferred end of an entry is used up, whether or not it turns into an advance. */
  lemma ReleaseAims(s: Session, e: Epoch, k: nat, entry: EntryId)
    requires SendsAdvance(s, ReleaseBusy(s, e), k, entry)
    ensures Aimed(ReleaseBusy(s, e), k, entry) && ReleaseBusy(s, e).pendingEnd.None?
    ensures s.pendingEnd.Some? && s.pendingEnd.value.0 == entry
  {
    var s1 := s.(snap := s.snap.(busy := false), pendingEnd := None);
    AdvanceAims(s1, s.pendingEnd.value.0, true, s.pendingEnd.value.1, k, entry);
  }

  /** Replies are the only completions that send anything, and they send only a deferred advance. */
  lemma ReplyAims(s: Session, a: Action, at: nat, k: nat, entry: EntryId)
    requires Enabled(s, a) && (a.OnReply? || a.OnSynced?) && SendsAdvance(s, Act(s, a, at), k, entry)
    ensures Aimed(Act(s, a, at), k, entry) && Act(s, a, at).pendingEnd.None?
    ensures s.pendingEnd.Some? && s.pendingEnd.value.0 == entry
  {
    var e := s.calls[a.call].epoch;
    if a.OnSynced? {
      ReleaseAims(Settle(s, a.call, false, s.calls[a.call].stage.uncertain), e, k, entry);
    } else if s.calls[a.call].op.SendLeave? {
      LeavingSendsNothing(s, a.call, a.reply, at);
    } else if Valid(s, e) && a.reply.Replied? {
      ReleaseAims(Settle(ApplyQueue(s, a.reply.view, e), a.call, true, false), e, k, entry);
    } else {
      RefusalSendsNothing(s, a.call, a.reply, at);
    }
  }

  lemma EndSendsNothing(s: Session, reason: EndReason, e: Epoch, at: nat)
    ensures End(s, reason, e, at).calls == s.calls
  {
    MembershipFrame(s, None);
  }

  lemma LeavingSendsNothing(s: Session, k: nat, r: CallReply, at: nat)
    requires Enabled(s, OnReply(k, r)) && s.calls[k].op.SendLeave?
    ensures CallDone(s, k, r, at).calls.Keys <= s.calls.Keys
  {
    EndSendsNothing(s.(calls := s.calls - {k}), Left, s.calls[k].epoch, at);
  }

  lemma RefusalSendsNothing(s: Session, k: nat, r: CallReply, at: nat)
    requires Enabled(s, OnReply(k, r)) && !s.calls[k].op.SendLeave? && (r.Refused? || !Valid(s, s.calls[k].epoch))
    ensures CallDone(s, k, r, at).calls.Keys <= s.calls.Keys
  {
    SyncKeeps(s.(snap := s.snap.(error := true)), at);
  }

  lemma CurrentSendsNothing(s: Session, w: nat, r: Option<Option<LobbyView>>, at: nat)
    requires Enabled(s, OnCurrent(w, r))
    ensures CurrentDone(s, w, r, at).calls == s.calls
  {
    if r.Some? { MembershipFrame(s, r.value); }
  }

  lemma IdentitySendsNothing(s: Session, w: nat, r: Option<Option<UserId>>, at: nat)
    requires Enabled(s, OnIdentity(w, r))
    ensures IdentityDone(s, w, r, at).calls == s.calls
  {
    PassHeadKeeps(s, w, at);
    if r.Some? { IterationKeeps(s.(snap := s.snap.(user := r.value)), w, s.passes[w].stage.bound, at); }
  }

  lemma ReadSendsNothing(s: Session, w: nat, r: ReadReply, at: nat)
    requires Enabled(s, OnRead(w, r))
    ensures ReadDone(s, w, r, at).calls == s.calls
  {
    var p := s.passes[w];
    PassHeadKeeps(s, w, at);
    if r.Got? {
      var s1 := ApplyQueue(s, r.view, p.stage.bound);
      IterationKeeps(s, w, p.stage.bound, at);
      IterationKeeps(s1, w, p.stage.bound, at);
    } else if r.Forbidden? {
      PassHeadKeeps(s.(dirty := true, passes := s.passes[w := p.(recoveries := p.recoveries + 1)]), w, at);
    }
  }

  lemma EventSendsNothing(s: Session, c: nat, e: Event, at: nat)
    requires Enabled(s, OnEvent(c, e))
    ensures StreamEvent(s, c, e, at).calls == s.calls
  {
    EndSendsNothing(s, if e.MembershipEnded? then e.reason else Left, s.readers[c].epoch, at);
  }

  lemma StreamSendsNothing(s: Session, c: nat, at: nat)
    requires c in s.readers
    ensures AfterStream(s, c, at).calls == s.calls
  {
    SyncKeeps(s.(snap := s.snap.(live := false)), at);
  }

  lemma CallsSendTheirOwn(s: Session, op: Operation, e: Epoch, k: nat, entry: EntryId)
    requires op != Send(Advance(entry))
    ensures !SendsAdvance(s, StartCall(s, op, e), k, entry)
  {
  }

  lemma RequestsSendNoAdvance(s: Session, c: Command, k: nat, entry: EntryId)
    ensures !SendsAdvance(s, Request(s, c), k, entry)
  {
    if !c.Advance? { CallsSendTheirOwn(s, Send(c), Capture(s), k, entry); }
  }

  lemma SubmissionsSendNoAdvance(s: Session, attempt: Attempt, k: nat, entry: EntryId)
    ensures !SendsAdvance(s, RetrySubmission(s), k, entry) && !SendsAdvance(s, Add(s, attempt), k, entry)
  {
    if s.snap.attempt.Some? { CallsSendTheirOwn(s, SendSubmission(s.snap.attempt.value), Capture(s), k, entry); }
    var s1 := s.(snap := s.snap.(attempt := Some(attempt)));
    CallsSendTheirOwn(s1, SendSubmission(attempt), Capture(s1), k, entry);
  }

  lemma StartSendsNothing(s: Session, at: nat)
    ensures Start(s, at).calls == s.calls
  {
    if !s.active {
      ConnectFrame(Awaken(s));
      SyncKeeps(Connect(Awaken(s)), at);
    }
  }

  lemma UsersSendNoAdvance(s: Session, a: Action, at: nat, k: nat, entry: EntryId)
    requires Enabled(s, a) && !a.DoAdvance? && (UserAction(a) || a.DoStart? || a.DoStop? || a.OnReturned? || a.OnFinally? || a.OnTimer?)
    ensures !SendsAdvance(s, Act(s, a, at), k, entry)
  {
    if a.DoRequest? { RequestsSendNoAdvance(s, a.command, k, entry); }
    else if a.DoAdd? { SubmissionsSendNoAdvance(s, a.attempt, k, entry); }
    else if a.DoRetry? { SubmissionsSendNoAdvance(s, Attempt("", 0), k, entry); }
    else if a.DoStart? { StartSendsNothing(s, at); }
  }

  /**
   An advance is only ever sent by the host, in a valid epoch, for the entry current in the view then applied:
   at the player's request, or as the one use of an end deferred while another mutation was outstanding.
   */
  lemma AdvanceIsForTheCurrentEntry(s: Session, a: Action, at: nat, k: nat, entry: EntryId)
    requires Enabled(s, a) && SendsAdvance(s, Act(s, a, at), k, entry)
    ensures Aimed(Act(s, a, at), k, entry)
    ensures (a.DoAdvance? && a.entry == entry)
            || (s.pendingEnd.Some? && s.pendingEnd.value.0 == entry && Act(s, a, at).pendingEnd.None?)
  {
    if a.DoAdvance? { AdvanceAims(s, a.entry, a.natural, Capture(s), k, entry); }
    else if a.OnReply? || a.OnSynced? { ReplyAims(s, a, at, k, entry); }
    else if a.OnCurrent? { CurrentSendsNothing(s, a.pass, a.current, at); }
    else if a.OnIdentity? { IdentitySendsNothing(s, a.pass, a.identity, at); }
    else if a.OnRead? { ReadSendsNothing(s, a.pass, a.read, at); }
    else if a.OnEvent? { EventSendsNothing(s, a.reader, a.event, at); }
    else if a.OnClosed? || a.OnRefreshed? { StreamSendsNothing(s, a.reader, at); }
    else { UsersSendNoAdvance(s, a, at, k, entry); }
  }
}
