/**
 What every step of the session keeps: one pass per lifetime, hints that are
 never lost, one outstanding mutation per epoch, and views that only move on.
 */
module SessionLaws {
  import opened Prelude
  import opened Rooms
  import opened Transactions
  import opened Events
  import opened Session

  // ---------------------------------------------------------------- invariants

  function BoundOf(p: PassStage): Option<Epoch> {
    match p
    case AwaitCurrent(e) => Some(e)
    case AwaitIdentity(e, _) => Some(e)
    case AwaitRead(e, _) => Some(e)
    case Finished => None
  }

  /** What a pass works on is what its epoch is about. */
  predicate BoundFits(p: PassStage) {
    && (p.AwaitIdentity? ==> p.bound.membership == IdOf(KnownOf(p.next)))
    && (p.AwaitRead? ==> p.bound.membership == Some(p.lobby.membership))
  }

  /** A pass of an earlier lifetime is bound to an epoch that is over. */
  predicate PassFits(p: Pass, version: nat, lifetime: nat) {
    && p.signal <= lifetime && BoundFits(p.stage)
    && (BoundOf(p.stage).Some? ==> BoundOf(p.stage).value.version <= version)
    && (BoundOf(p.stage).Some? && p.signal < lifetime ==> BoundOf(p.stage).value.version < version)
  }

  /** The passes that are not aborted are the one flight. */
  ghost predicate PassesOk(s: Session) {
    && (forall w :: w in s.passes ==> w < s.serial && PassFits(s.passes[w], s.version, s.lifetime))
    && (forall w :: w in s.passes && !Aborted(s, s.passes[w].signal) ==> s.flight == Some(w))
    && (s.flight.Some? ==> s.active && s.flight.value in s.passes && s.passes[s.flight.value].signal == s.lifetime)
    && (s.covered.Some? ==> s.covered.value.version <= s.version)
  }

  /** The last hint is covered by a full pass of this epoch that had begun no earlier. */
  predicate Covered(s: Session) {
    s.covered.Some? && s.covered.value.born >= s.hintAt && s.covered.value.version == s.version
  }

  /** A running pass either is valid and took up every hint, or `dirty` will make it go round again. */
  predicate PassOk(s: Session, p: Pass) {
    if p.stage.Finished? then !s.dirty && !s.snap.syncError ==> Covered(s)
    else !s.dirty ==> Valid(s, BoundOf(p.stage).value) && p.born >= s.hintAt
  }

  ghost predicate HintsOk(s: Session) {
    && (s.flight.Some? && s.flight.value in s.passes ==> PassOk(s, s.passes[s.flight.value]))
    && (s.active && s.flight.None? && !s.dirty && !s.snap.syncError ==> Covered(s))
  }

  ghost predicate ReadersOk(s: Session) {
    && (forall c :: c in s.readers ==> c < s.serial)
    && (s.connection.Some? ==> s.active && s.connection.value in s.readers && s.readers[s.connection.value].epoch == Capture(s))
    && (s.active && s.snap.known.In? ==> s.connection.Some?)
  }

  /** A request of the current epoch whose mutate() or leave() has not released `busy` yet. */
  predicate Outstanding(c: Call, version: nat) {
    !c.stage.Returning? && c.epoch.version == version
  }

  ghost predicate CallsOk(s: Session) {
    && (forall k :: k in s.calls ==> k < s.serial && s.calls[k].epoch.version <= s.version)
    && (forall j, k ::
          j in s.calls && k in s.calls && Outstanding(s.calls[j], s.version) && Outstanding(s.calls[k], s.version) ==> j == k)
    && (forall k :: k in s.calls && Outstanding(s.calls[k], s.version) ==> s.snap.busy)
    && (s.pendingEnd.Some? ==> s.active && s.pendingEnd.value.1.version == s.version)
  }

  ghost predicate QueueOk(s: Session) {
    s.snap.queue.Some? ==> s.snap.known.In? && s.snap.queue.value.membership == s.snap.known.view.membership
  }

  ghost predicate SessionInv(s: Session) {
    PassesOk(s) && HintsOk(s) && ReadersOk(s) && CallsOk(s) && QueueOk(s)
  }

  lemma InitialSession()
    ensures SessionInv(INITIAL)
  {
  }

  // ---------------------------------------------------------------- the pieces

  /** Everything but the pass bookkeeping. */
  ghost predicate RestOk(s: Session) {
    ReadersOk(s) && CallsOk(s) && QueueOk(s)
  }

  /** sync() leaves an active session with a flight that knows of the hint. */
  lemma SyncInv(s: Session, at: nat)
    requires PassesOk(s) && RestOk(s)
    ensures PassesOk(Sync(s, at)) && RestOk(Sync(s, at)) && HintsOk(Sync(s, at))
    ensures s.active ==> Sync(s, at).flight.Some? && Sync(s, at).hintAt == at
    ensures Sync(s, at).snap == s.snap && Sync(s, at).calls == s.calls && Sync(s, at).readers == s.readers
    ensures Capture(Sync(s, at)) == Capture(s) && Sync(s, at).active == s.active
  {
  }

  lemma ConnectInv(s: Session)
    requires PassesOk(s) && CallsOk(s) && QueueOk(s) && s.active && s.connection.None?
    requires forall c :: c in s.readers ==> c < s.serial
    ensures PassesOk(Connect(s)) && RestOk(Connect(s))
  {
  }

  lemma NewEpochInv(s: Session, next: Option<LobbyView>)
    requires PassesOk(s) && RestOk(s)
    ensures PassesOk(NewEpoch(s, next)) && CallsOk(NewEpoch(s, next)) && QueueOk(NewEpoch(s, next))
  {
    var t := NewEpoch(s, next);
    forall k | k in t.calls ensures !Outstanding(t.calls[k], t.version) { assert s.calls[k].epoch.version <= s.version; }
  }

  lemma SameMembershipInv(s: Session, next: Option<LobbyView>)
    requires PassesOk(s) && RestOk(s) && s.active && SameMembership(s, next)
    ensures PassesOk(SetMembership(s, next)) && RestOk(SetMembership(s, next))
  {
    assert Capture(SetMembership(s, next)) == Capture(s);
  }

  /** A membership answer: either the same membership, or a new epoch with everything of the old one dropped. */
  lemma MembershipInv(s: Session, next: Option<LobbyView>)
    requires PassesOk(s) && RestOk(s) && s.active
    ensures PassesOk(SetMembership(s, next)) && RestOk(SetMembership(s, next))
  {
    if SameMembership(s, next) {
      SameMembershipInv(s, next);
    } else {
      NewEpochInv(s, next);
      ConnectInv(NewEpoch(s, next));
    }
  }

  /** What an answer about the membership leaves alone. */
  ghost predicate Kept(s: Session, t: Session) {
    && t.active == s.active && t.passes == s.passes && t.flight == s.flight && t.dirty == s.dirty
    && t.hintAt == s.hintAt && t.covered == s.covered && t.lifetime == s.lifetime && t.calls == s.calls
    && t.snap.syncError == s.snap.syncError && t.snap.user == s.snap.user && t.snap.ended == s.snap.ended
  }

  lemma ConnectFrame(s: Session)
    ensures Kept(s, Connect(s)) && Connect(s).snap == s.snap && Connect(s).version == s.version
  {
  }

  lemma MembershipFrame(s: Session, next: Option<LobbyView>)
    ensures Kept(s, SetMembership(s, next)) && IdOf(SetMembership(s, next).snap.known) == IdOf(KnownOf(next))
  {
    if !SameMembership(s, next) {
      var s1 := NewEpoch(s, next);
      ConnectFrame(s1);
      assert Kept(s, s1);
    }
  }

  lemma EndInv(s: Session, reason: EndReason, e: Epoch, at: nat)
    requires SessionInv(s)
    ensures SessionInv(End(s, reason, e, at))
  {
    if Valid(s, e) {
      MembershipInv(s, None);
      MembershipFrame(s, None);
      var s1 := SetMembership(s, None);
      SyncInv(s1.(snap := s1.snap.(ended := Some(reason), loading := false)), at);
    }
  }

  lemma LoopHeadInv(s: Session, w: nat, at: nat)
    requires PassesOk(s) && RestOk(s) && w in s.passes
    requires s.flight == Some(w) && !s.dirty && !s.snap.syncError ==> Covered(s)
    requires s.flight != Some(w) ==> HintsOk(s)
    requires s.flight == Some(w) ==> s.hintAt <= at
    ensures SessionInv(LoopHead(s, w, at))
  {
  }

  /** A pass may give up when it is aborted or has reported an error. */
  lemma FinishPassInv(s: Session, w: nat)
    requires SessionInv(s) && w in s.passes
    ensures Aborted(s, s.passes[w].signal) || s.snap.syncError ==> SessionInv(SetStage(s, w, Finished))
  {
  }

  lemma FailPassInv(s: Session, w: nat)
    requires SessionInv(s) && w in s.passes
    ensures SessionInv(FailPass(s, w))
  {
    FinishPassInv(s, w);
    if !Aborted(s, s.passes[w].signal) {
      var s1 := s.(snap := s.snap.(loading := false, syncError := true, live := false));
      FinishPassInv(s1, w);
    }
  }

  /** A pass that is not aborted may move on to a stage bound to the present epoch. */
  lemma NextStageInv(s: Session, w: nat, stage: PassStage)
    requires PassesOk(s) && RestOk(s) && w in s.passes && !Aborted(s, s.passes[w].signal)
    requires BoundOf(stage) == Some(Capture(s)) && BoundFits(stage)
    requires !s.dirty ==> s.passes[w].born >= s.hintAt
    ensures SessionInv(SetStage(s, w, stage))
  {
  }

  lemma AnsweredInv(s: Session, w: nat, next: Option<LobbyView>)
    requires SessionInv(s) && w in s.passes && s.passes[w].stage.AwaitCurrent?
    requires Valid(s, s.passes[w].stage.epoch) && !Aborted(s, s.passes[w].signal)
    ensures var s1 := SetMembership(s, next); SessionInv(SetStage(s1, w, AwaitIdentity(Capture(s1), next)))
  {
    MembershipInv(s, next);
    MembershipFrame(s, next);
    var s1 := SetMembership(s, next);
    NextStageInv(s1, w, AwaitIdentity(Capture(s1), next));
  }

  lemma CurrentDoneInv(s: Session, w: nat, r: Option<Option<LobbyView>>, at: nat)
    requires SessionInv(s) && Enabled(s, OnCurrent(w, r)) && s.hintAt <= at
    ensures SessionInv(CurrentDone(s, w, r, at))
  {
    if r.None? {
      FailPassInv(s, w);
    } else if !Valid(s, s.passes[w].stage.epoch) || Aborted(s, s.passes[w].signal) {
      LoopHeadInv(s, w, at);
    } else {
      AnsweredInv(s, w, r.value);
    }
  }

  lemma EndIterationInv(s: Session, w: nat, bound: Epoch, at: nat)
    requires PassesOk(s) && RestOk(s) && w in s.passes && s.hintAt <= at
    requires s.flight == Some(w) && !s.dirty ==> Valid(s, bound) && s.passes[w].born >= s.hintAt
    requires s.flight != Some(w) ==> HintsOk(s) && !Valid(s, bound)
    ensures SessionInv(EndIteration(s, w, bound, at))
  {
    var s1 := if Valid(s, bound)
              then s.(snap := s.snap.(syncError := false, loading := false),
                      covered := Some(Coverage(s.passes[w].born, s.version)))
              else s;
    LoopHeadInv(s1, w, at);
  }

  lemma UserInv(s: Session, user: Option<UserId>)
    requires SessionInv(s)
    ensures SessionInv(s.(snap := s.snap.(user := user)))
  {
  }

  lemma IdentifiedInv(s: Session, w: nat, user: Option<UserId>, at: nat)
    requires SessionInv(s) && w in s.passes && s.passes[w].stage.AwaitIdentity? && s.hintAt <= at
    requires Valid(s, s.passes[w].stage.bound) && !Aborted(s, s.passes[w].signal)
    ensures SessionInv(IdentityDone(s, w, Some(user), at))
  {
    var bound, next := s.passes[w].stage.bound, s.passes[w].stage.next;
    var s1 := s.(snap := s.snap.(user := user));
    UserInv(s, user);
    if next.None? {
      EndIterationInv(s1, w, bound, at);
    } else {
      NextStageInv(s1, w, AwaitRead(bound, next.value));
    }
  }

  lemma IdentityDoneInv(s: Session, w: nat, r: Option<Option<UserId>>, at: nat)
    requires SessionInv(s) && Enabled(s, OnIdentity(w, r)) && s.hintAt <= at
    ensures SessionInv(IdentityDone(s, w, r, at))
  {
    if r.None? {
      FailPassInv(s, w);
    } else if !Valid(s, s.passes[w].stage.bound) || Aborted(s, s.passes[w].signal) {
      LoopHeadInv(s, w, at);
    } else {
      IdentifiedInv(s, w, r.value, at);
    }
  }

  lemma ApplyQueueInv(s: Session, view: QueueView, e: Epoch)
    requires PassesOk(s) && RestOk(s)
    ensures PassesOk(ApplyQueue(s, view, e)) && RestOk(ApplyQueue(s, view, e))
    ensures HintsOk(s) ==> HintsOk(ApplyQueue(s, view, e))
  {
  }

  lemma ReadInv(s: Session, w: nat, view: QueueView, at: nat)
    requires SessionInv(s) && w in s.passes && s.passes[w].stage.AwaitRead? && s.hintAt <= at
    ensures SessionInv(ReadDone(s, w, Got(view), at))
  {
    var p := s.passes[w];
    var s1 := if Aborted(s, p.signal) then s else ApplyQueue(s, view, p.stage.bound);
    ApplyQueueInv(s, view, p.stage.bound);
    EndIterationInv(s1, w, p.stage.bound, at);
  }

  function Recovering(s: Session, w: nat): Session
    requires w in s.passes
  {
    s.(dirty := true, passes := s.passes[w := s.passes[w].(recoveries := s.passes[w].recoveries + 1)])
  }

  lemma RecoveringInv(s: Session, w: nat)
    requires SessionInv(s) && w in s.passes && !Aborted(s, s.passes[w].signal)
    ensures PassesOk(Recovering(s, w)) && RestOk(Recovering(s, w))
    ensures Recovering(s, w).flight == Some(w) && Recovering(s, w).dirty
  {
  }

  lemma RecoverInv(s: Session, w: nat, at: nat)
    requires SessionInv(s) && w in s.passes && !Aborted(s, s.passes[w].signal) && s.hintAt <= at
    ensures SessionInv(LoopHead(Recovering(s, w), w, at))
  {
    RecoveringInv(s, w);
    var t := Recovering(s, w);
    LoopHeadInv(t, w, at);
  }

  lemma ReadDoneInv(s: Session, w: nat, r: ReadReply, at: nat)
    requires SessionInv(s) && Enabled(s, OnRead(w, r)) && s.hintAt <= at
    ensures SessionInv(ReadDone(s, w, r, at))
  {
    var p := s.passes[w];
    if r.Got? {
      ReadInv(s, w, r.view, at);
    } else if !Valid(s, p.stage.bound) || Aborted(s, p.signal) {
      LoopHeadInv(s, w, at);
    } else if r.Forbidden? && p.recoveries < 2 {
      RecoverInv(s, w, at);
    } else {
      FailPassInv(s, w);
    }
  }

  lemma FinallyInv(s: Session, w: nat)
    requires SessionInv(s) && Enabled(s, OnFinally(w))
    ensures SessionInv(Finally(s, w))
  {
  }

  lemma StreamEventInv(s: Session, c: nat, event: Event, at: nat)
    requires SessionInv(s) && Enabled(s, OnEvent(c, event))
    ensures SessionInv(StreamEvent(s, c, event, at))
  {
    if Valid(s, s.readers[c].epoch) && !Cut(s, c) {
      if event.MembershipEnded? {
        EndInv(s, event.reason, s.readers[c].epoch, at);
      } else if !event.AuthExpired? {
        SyncInv(s.(snap := s.snap.(live := true)), at);
      }
    }
  }

  lemma SetReaderInv(s: Session, c: nat, reader: Reader)
    requires SessionInv(s) && c in s.readers && reader.epoch == s.readers[c].epoch
    ensures SessionInv(s.(readers := s.readers[c := reader]))
  {
  }

  lemma AfterStreamInv(s: Session, c: nat, at: nat)
    requires SessionInv(s) && c in s.readers
    ensures SessionInv(AfterStream(s, c, at))
  {
    if !Valid(s, s.readers[c].epoch) || Cut(s, c) {
      SetReaderInv(s, c, s.readers[c].(stage := Over));
    } else {
      var s1 := s.(snap := s.snap.(live := false));
      SyncInv(s1, at);
      SetReaderInv(Sync(s1, at), c, s.readers[c].(stage := Waiting));
    }
  }

  // ---------------------------------------------------------------- mutations

  ghost predicate NoneOutstanding(s: Session) {
    forall k :: k in s.calls ==> !Outstanding(s.calls[k], s.version)
  }

  lemma StartCallInv(s: Session, op: Operation, e: Epoch)
    requires SessionInv(s)
    ensures SessionInv(StartCall(s, op, e))
  {
  }

  lemma AdvanceEntryInv(s: Session, entry: EntryId, natural: bool, e: Epoch)
    requires SessionInv(s)
    ensures SessionInv(AdvanceEntry(s, entry, natural, e))
  {
    StartCallInv(s, Send(Advance(entry)), e);
  }

  lemma ReleaseBusyInv(s: Session, e: Epoch)
    requires SessionInv(s) && (Valid(s, e) ==> NoneOutstanding(s))
    ensures SessionInv(ReleaseBusy(s, e))
  {
    if Valid(s, e) {
      var s1 := s.(snap := s.snap.(busy := false), pendingEnd := None);
      assert SessionInv(s1);
      if s.pendingEnd.Some? && !s.snap.syncError {
        AdvanceEntryInv(s1, s.pendingEnd.value.0, true, s.pendingEnd.value.1);
      }
    }
  }

  lemma DropCallInv(s: Session, k: nat)
    requires SessionInv(s) && k in s.calls
    ensures SessionInv(s.(calls := s.calls - {k}))
    ensures Outstanding(s.calls[k], s.version) ==> NoneOutstanding(s.(calls := s.calls - {k}))
  {
  }

  /** A call may move on as long as it keeps its epoch and does not become outstanding again. */
  lemma SetCallInv(s: Session, k: nat, c: Call)
    requires SessionInv(s) && k in s.calls && c.epoch == s.calls[k].epoch
    requires !c.stage.Returning? ==> !s.calls[k].stage.Returning?
    ensures SessionInv(s.(calls := s.calls[k := c]))
    ensures c.stage.Returning? && Outstanding(s.calls[k], s.version) ==> NoneOutstanding(s.(calls := s.calls[k := c]))
  {
  }

  lemma SettleInv(s: Session, k: nat, ok: bool, uncertain: bool)
    requires SessionInv(s) && k in s.calls
    ensures SessionInv(Settle(s, k, ok, uncertain))
    ensures Outstanding(s.calls[k], s.version) ==> NoneOutstanding(Settle(s, k, ok, uncertain))
  {
    if s.calls[k].op.SendSubmission? {
      SetCallInv(s, k, s.calls[k].(stage := Returning(ok, uncertain)));
    } else {
      DropCallInv(s, k);
    }
  }

  /** What the user sees of errors, attempts and endings is no part of the invariant. */
  lemma NoticeInv(s: Session, snap: Snap)
    requires SessionInv(s)
    requires snap.known == s.snap.known && snap.queue == s.snap.queue
             && snap.busy == s.snap.busy && snap.syncError == s.snap.syncError
    ensures SessionInv(s.(snap := snap))
  {
  }

  lemma LeaveDoneInv(s: Session, k: nat, r: CallReply, at: nat)
    requires SessionInv(s) && Enabled(s, OnReply(k, r)) && s.calls[k].op.SendLeave?
    ensures SessionInv(CallDone(s, k, r, at))
  {
    DropCallInv(s, k);
    var s1 := s.(calls := s.calls - {k});
    if Valid(s, s.calls[k].epoch) {
      if r.Refused? {
        SyncInv(s1.(snap := s1.snap.(error := true, busy := false)), at);
      } else {
        EndInv(s1, Left, s.calls[k].epoch, at);
      }
    }
  }

  lemma RefusedInv(s: Session, k: nat, r: CallReply, at: nat)
    requires SessionInv(s) && Enabled(s, OnReply(k, r)) && !s.calls[k].op.SendLeave? && r.Refused?
    ensures SessionInv(CallDone(s, k, r, at))
  {
    if !Valid(s, s.calls[k].epoch) {
      DropCallInv(s, k);
    } else {
      NoticeInv(s, s.snap.(error := true));
      var s1 := s.(snap := s.snap.(error := true));
      SyncInv(s1, at);
      SetCallInv(Sync(s1, at), k, s.calls[k].(stage := Syncing(Sync(s1, at).flight.value, r.uncertain)));
    }
  }

  lemma RepliedInv(s: Session, k: nat, r: CallReply, at: nat)
    requires SessionInv(s) && Enabled(s, OnReply(k, r)) && !s.calls[k].op.SendLeave? && r.Replied?
    ensures SessionInv(CallDone(s, k, r, at))
  {
    var e := s.calls[k].epoch;
    if !Valid(s, e) {
      DropCallInv(s, k);
    } else {
      var s1 := ApplyQueue(s, r.view, e);
      ApplyQueueInv(s, r.view, e);
      SettleInv(s1, k, true, false);
      ReleaseBusyInv(Settle(s1, k, true, false), e);
    }
  }

  lemma CallSyncedInv(s: Session, k: nat)
    requires SessionInv(s) && k in s.calls && s.calls[k].stage.Syncing?
    ensures SessionInv(CallSynced(s, k))
  {
    SettleInv(s, k, false, s.calls[k].stage.uncertain);
    ReleaseBusyInv(Settle(s, k, false, s.calls[k].stage.uncertain), s.calls[k].epoch);
  }

  lemma SubmissionDoneInv(s: Session, k: nat)
    requires SessionInv(s) && k in s.calls && s.calls[k].stage.Returning?
    ensures SessionInv(SubmissionDone(s, k))
  {
    DropCallInv(s, k);
    var c, s1 := s.calls[k], s.(calls := s.calls - {k});
    NoticeInv(s1, s1.snap.(attempt := None));
    NoticeInv(s1, s1.snap.(attempt := None, error := true));
    if c.op.SendSubmission? { NoticeInv(s1, s1.snap.(attempt := Some(c.op.attempt), error := true)); }
  }

  lemma AddInv(s: Session, attempt: Attempt)
    requires SessionInv(s)
    ensures SessionInv(Add(s, attempt))
  {
    NoticeInv(s, s.snap.(attempt := Some(attempt)));
    RetryInv(s.(snap := s.snap.(attempt := Some(attempt))));
  }

  lemma LeaveSessionInv(s: Session)
    requires SessionInv(s)
    ensures SessionInv(LeaveSession(s))
  {
  }

  lemma WakeInv(s: Session)
    requires SessionInv(s) && !s.active
    ensures var s1 := Awaken(s);
      && PassesOk(s1) && CallsOk(s1) && QueueOk(s1) && s1.active && s1.connection.None?
      && (forall c :: c in s1.readers ==> c < s1.serial)
  {
  }

  lemma StartSyncInv(s: Session, at: nat)
    requires PassesOk(s) && CallsOk(s) && QueueOk(s) && s.active && s.connection.None?
    requires forall c :: c in s.readers ==> c < s.serial
    ensures SessionInv(Sync(Connect(s), at))
  {
    ConnectInv(s);
    SyncInv(Connect(s), at);
  }

  lemma StartInv(s: Session, at: nat)
    requires SessionInv(s)
    ensures SessionInv(Start(s, at))
  {
    if !s.active {
      var s1 := Awaken(s);
      WakeInv(s);
      StartSyncInv(s1, at);
    }
  }

  lemma StopInv(s: Session)
    requires SessionInv(s)
    ensures SessionInv(Stop(s))
  {
  }

  lemma PassActInv(s: Session, a: Action, at: nat)
    requires SessionInv(s) && Enabled(s, a) && s.hintAt <= at
    requires a.OnCurrent? || a.OnIdentity? || a.OnRead? || a.OnFinally?
    ensures SessionInv(Act(s, a, at))
  {
    if a.OnCurrent? { CurrentDoneInv(s, a.pass, a.current, at); }
    else if a.OnIdentity? { IdentityDoneInv(s, a.pass, a.identity, at); }
    else if a.OnRead? { ReadDoneInv(s, a.pass, a.read, at); }
    else { FinallyInv(s, a.pass); }
  }

  lemma ReaderActInv(s: Session, a: Action, at: nat)
    requires SessionInv(s) && Enabled(s, a)
    requires a.OnEvent? || a.OnClosed? || a.OnRefreshed? || a.OnTimer?
    ensures SessionInv(Act(s, a, at))
  {
    var c := a.reader;
    if a.OnEvent? {
      StreamEventInv(s, c, a.event, at);
    } else if a.OnTimer? {
      SetReaderInv(s, c, Reader(s.readers[c].epoch, false, Streaming));
      SetReaderInv(s, c, s.readers[c].(stage := Over));
    } else {
      SetReaderInv(s, c, s.readers[c].(stage := Refreshing));
      AfterStreamInv(s, c, at);
    }
  }

  lemma CallActInv(s: Session, a: Action, at: nat)
    requires SessionInv(s) && Enabled(s, a)
    requires a.OnReply? || a.OnSynced? || a.OnReturned?
    ensures SessionInv(Act(s, a, at))
  {
    var k := a.call;
    if a.OnSynced? { CallSyncedInv(s, k); }
    else if a.OnReturned? { SubmissionDoneInv(s, k); }
    else if s.calls[k].op.SendLeave? { LeaveDoneInv(s, k, a.reply, at); }
    else if a.reply.Refused? { RefusedInv(s, k, a.reply, at); }
    else { RepliedInv(s, k, a.reply, at); }
  }

  predicate UserAction(a: Action) {
    a.DoRequest? || a.DoAdvance? || a.DoAdd? || a.DoRetry? || a.DoDiscard? || a.DoLeave?
  }

  lemma RetryInv(s: Session)
    requires SessionInv(s)
    ensures SessionInv(RetrySubmission(s))
  {
    if s.snap.attempt.Some? { StartCallInv(s, SendSubmission(s.snap.attempt.value), Capture(s)); }
  }

  lemma RequestInv(s: Session, c: Command)
    requires SessionInv(s)
    ensures SessionInv(Request(s, c))
  {
    StartCallInv(s, Send(c), Capture(s));
  }

  lemma UserActInv(s: Session, a: Action, at: nat)
    requires SessionInv(s) && UserAction(a)
    ensures SessionInv(Act(s, a, at))
  {
    if a.DoRequest? { RequestInv(s, a.command); }
    else if a.DoAdvance? { AdvanceEntryInv(s, a.entry, a.natural, Capture(s)); }
    else if a.DoAdd? { AddInv(s, a.attempt); }
    else if a.DoRetry? { RetryInv(s); }
    else if a.DoDiscard? { NoticeInv(s, s.snap.(attempt := None, error := false)); }
    else { LeaveSessionInv(s); }
  }

  /** Every step of the session keeps the invariant. */
  lemma ActInv(s: Session, a: Action, at: nat)
    requires SessionInv(s) && Enabled(s, a) && s.hintAt <= at
    ensures SessionInv(Act(s, a, at))
  {
    if a.DoStart? { StartInv(s, at); }
    else if a.DoStop? { StopInv(s); }
    else if UserAction(a) { UserActInv(s, a, at); }
    else if a.OnReply? || a.OnSynced? || a.OnReturned? { CallActInv(s, a, at); }
    else if a.OnEvent? || a.OnClosed? || a.OnRefreshed? || a.OnTimer? { ReaderActInv(s, a, at); }
    else { PassActInv(s, a, at); }
  }
}
