/** Where a step's membership, queue and coverage come from: what the composition needs to know of one step. */
module SessionEffects {
  import opened Prelude
  import opened Rooms
  import opened Transactions
  import opened Events
  import opened Session
  import opened SessionLaws
  import opened SessionRuns

  ghost predicate BornBy(s: Session, at: nat) {
    forall w :: w in s.passes ==> s.passes[w].born <= at
  }

  ghost predicate KeepsReaders(s: Session, t: Session) {
    forall c :: c in s.readers ==> c in t.readers && t.readers[c].epoch == s.readers[c].epoch
  }

  ghost predicate Numbered(s: Session) {
    forall c :: c in s.readers ==> c < s.serial
  }

  /** No step forgets a reader, reuses a number, or dates a hint or a pass after the present. */
  ghost predicate Grows(s: Session, t: Session, at: nat) {
    && s.serial <= t.serial && KeepsReaders(s, t)
    && (t.hintAt == s.hintAt || t.hintAt == at) && BornBy(t, at)
  }

  /** A step that shows nothing new. */
  ghost predicate Quiet(s: Session, t: Session, at: nat) {
    && Grows(s, t, at)
    && t.snap.known == s.snap.known && t.snap.queue == s.snap.queue && t.covered == s.covered
    && t.version == s.version && t.connection == s.connection
  }

  function ViewOf(a: Action): Option<QueueView> {
    if a.OnRead? && a.read.Got? then Some(a.read.view)
    else if a.OnReply? && a.reply.Replied? then Some(a.reply.view)
    else None
  }

  /** The membership comes from an answer or is dropped. */
  ghost predicate KnownFrom(s: Session, t: Session, a: Action) {
    || t.snap.known == s.snap.known || t.snap.known == NoLobby
    || (a.OnCurrent? && a.current.Some? && t.snap.known == KnownOf(a.current.value))
  }

  /** The queue comes from a reply of this epoch's membership or is dropped. */
  ghost predicate QueueFrom(s: Session, t: Session, a: Action) {
    || t.snap.queue == s.snap.queue || t.snap.queue == None
    || (ViewOf(a).Some? && t.snap.queue == ViewOf(a))
  }

  /** The last await of a full pass: the queue was read, or there is no membership to read. */
  predicate Completes(s: Session, a: Action) {
    || (a.OnRead? && a.read.Got? && a.pass in s.passes && s.passes[a.pass].stage.AwaitRead?)
    || (a.OnIdentity? && a.pass in s.passes && s.passes[a.pass].stage.AwaitIdentity? && s.passes[a.pass].stage.next.None?)
  }

  /** Coverage is claimed only by the last step of a pass whose epoch is still on. */
  ghost predicate CoverFrom(s: Session, t: Session, a: Action) {
    || t.covered == s.covered
    || (Completes(s, a)
        && Valid(s, BoundOf(s.passes[a.pass].stage).value)
        && t.covered == Some(Coverage(s.passes[a.pass].born, s.version)) && t.version == s.version
        && t.snap.known == s.snap.known
        && (a.OnRead? ==> t.snap.queue == ApplyQueue(s, a.read.view, s.passes[a.pass].stage.bound).snap.queue))
  }

  ghost predicate Connects(s: Session, t: Session) {
    t.connection == s.connection || t.connection == None || (t.connection.Some? && t.connection.value >= s.serial)
  }

  ghost predicate Effects(s: Session, t: Session, a: Action, at: nat) {
    KnownFrom(s, t, a) && QueueFrom(s, t, a) && CoverFrom(s, t, a) && Connects(s, t) && Grows(s, t, at)
  }

  // ---------------------------------------------------------------- quiet pieces

  lemma SyncQuiet(s: Session, at: nat)
    requires BornBy(s, at)
    ensures Quiet(s, Sync(s, at), at)
  {
  }

  lemma LoopHeadQuiet(s: Session, w: nat, at: nat)
    requires BornBy(s, at) && w in s.passes
    ensures Quiet(s, LoopHead(s, w, at), at) && Quiet(s, FailPass(s, w), at)
  {
  }

  lemma StageQuiet(s: Session, w: nat, stage: PassStage, at: nat)
    requires BornBy(s, at) && w in s.passes
    ensures Quiet(s, SetStage(s, w, stage), at)
  {
  }

  lemma StartCallQuiet(s: Session, op: Operation, e: Epoch, at: nat)
    requires BornBy(s, at)
    ensures Quiet(s, StartCall(s, op, e), at)
  {
  }

  lemma ReleaseQuiet(s: Session, e: Epoch, at: nat)
    requires BornBy(s, at)
    ensures Quiet(s, ReleaseBusy(s, e), at)
  {
  }

  lemma SettleQuiet(s: Session, k: nat, ok: bool, uncertain: bool, at: nat)
    requires BornBy(s, at) && k in s.calls
    ensures Quiet(s, Settle(s, k, ok, uncertain), at)
  {
  }

  lemma ReaderQuiet(s: Session, c: nat, at: nat)
    requires BornBy(s, at) && c in s.readers
    ensures Quiet(s, AfterStream(s, c, at), at)
  {
    SyncQuiet(s.(snap := s.snap.(live := false)), at);
  }

  lemma SubmissionQuiet(s: Session, k: nat, at: nat)
    requires BornBy(s, at) && k in s.calls && s.calls[k].stage.Returning?
    ensures Quiet(s, SubmissionDone(s, k), at)
  {
  }

  lemma RetryQuiet(s: Session, attempt: Attempt, at: nat)
    requires BornBy(s, at)
    ensures Quiet(s, RetrySubmission(s), at) && Quiet(s, Add(s, attempt), at)
  {
  }

  lemma RequestQuiet(s: Session, c: Command, at: nat)
    requires BornBy(s, at)
    ensures Quiet(s, Request(s, c), at)
  {
    StartCallQuiet(s, Send(c), Capture(s), at);
  }

  lemma AdvanceQuiet(s: Session, entry: EntryId, natural: bool, e: Epoch, at: nat)
    requires BornBy(s, at)
    ensures Quiet(s, AdvanceEntry(s, entry, natural, e), at)
  {
    StartCallQuiet(s, Send(Advance(entry)), e, at);
  }

  lemma UserQuiet(s: Session, a: Action, at: nat)
    requires BornBy(s, at) && UserAction(a)
    ensures Quiet(s, Act(s, a, at), at)
  {
    if a.DoRequest? { RequestQuiet(s, a.command, at); }
    else if a.DoAdvance? { AdvanceQuiet(s, a.entry, a.natural, Capture(s), at); }
    else if a.DoAdd? { RetryQuiet(s, a.attempt, at); }
    else if a.DoRetry? { RetryQuiet(s, Attempt("", 0), at); }
  }

  // ---------------------------------------------------------------- the steps

  /** A step that shows nothing new but may drop the membership. */
  ghost predicate Fades(s: Session, t: Session, at: nat) {
    && Grows(s, t, at) && t.covered == s.covered && Connects(s, t)
    && (t.snap.known == s.snap.known || t.snap.known == NoLobby)
    && (t.snap.queue == s.snap.queue || t.snap.queue == None)
  }

  lemma ConnectEffects(s: Session, at: nat)
    requires Numbered(s) && BornBy(s, at)
    ensures Grows(s, Connect(s), at) && Connect(s).covered == s.covered && Connect(s).snap == s.snap
    ensures Connect(s).connection == s.connection || Connect(s).connection == Some(s.serial)
  {
  }

  lemma MembershipEffects(s: Session, next: Option<LobbyView>, at: nat)
    requires Numbered(s) && BornBy(s, at)
    ensures var t := SetMembership(s, next);
      && Grows(s, t, at) && t.covered == s.covered && Connects(s, t)
      && (t.snap.known == s.snap.known || t.snap.known == KnownOf(next))
      && (t.snap.queue == s.snap.queue || t.snap.queue == None)
  {
    if !SameMembership(s, next) { ConnectEffects(NewEpoch(s, next), at); }
  }

  lemma EndEffects(s: Session, reason: EndReason, e: Epoch, at: nat)
    requires Numbered(s) && BornBy(s, at)
    ensures Fades(s, End(s, reason, e, at), at)
  {
    MembershipEffects(s, None, at);
    var s1 := SetMembership(s, None);
    SyncQuiet(s1.(snap := s1.snap.(ended := Some(reason), loading := false)), at);
  }

  lemma StartEffects(s: Session, at: nat)
    requires Numbered(s) && BornBy(s, at)
    ensures Fades(s, Start(s, at), at) && Start(s, at).snap.known == s.snap.known
  {
    if !s.active {
      var s1 := Awaken(s);
      ConnectEffects(s1, at);
      SyncQuiet(Connect(s1), at);
    }
  }

  lemma CurrentEffects(s: Session, w: nat, r: Option<Option<LobbyView>>, at: nat)
    requires Numbered(s) && BornBy(s, at) && Enabled(s, OnCurrent(w, r))
    ensures Effects(s, CurrentDone(s, w, r, at), OnCurrent(w, r), at)
  {
    LoopHeadQuiet(s, w, at);
    if r.Some? {
      MembershipEffects(s, r.value, at);
      var s1 := SetMembership(s, r.value);
      MembershipFrame(s, r.value);
      StageQuiet(s1, w, AwaitIdentity(Capture(s1), r.value), at);
    }
  }

  lemma IterationEffects(s: Session, w: nat, bound: Epoch, at: nat)
    requires BornBy(s, at) && w in s.passes
    ensures var t := EndIteration(s, w, bound, at);
      && Grows(s, t, at) && t.snap.known == s.snap.known && t.snap.queue == s.snap.queue
      && t.version == s.version && t.connection == s.connection
      && t.covered == if Valid(s, bound) then Some(Coverage(s.passes[w].born, s.version)) else s.covered
  {
    var s1 := if Valid(s, bound)
              then s.(snap := s.snap.(syncError := false, loading := false),
                      covered := Some(Coverage(s.passes[w].born, s.version)))
              else s;
    LoopHeadQuiet(s1, w, at);
  }

  lemma IdentityEffects(s: Session, w: nat, r: Option<Option<UserId>>, at: nat)
    requires BornBy(s, at) && Enabled(s, OnIdentity(w, r))
    ensures Effects(s, IdentityDone(s, w, r, at), OnIdentity(w, r), at)
  {
    LoopHeadQuiet(s, w, at);
    if r.Some? {
      var s1 := s.(snap := s.snap.(user := r.value));
      IterationEffects(s1, w, s.passes[w].stage.bound, at);
      if s.passes[w].stage.next.Some? {
        StageQuiet(s1, w, AwaitRead(s.passes[w].stage.bound, s.passes[w].stage.next.value), at);
      }
    }
  }

  lemma ReadEffects(s: Session, w: nat, view: QueueView, at: nat)
    requires SessionInv(s) && BornBy(s, at) && Enabled(s, OnRead(w, Got(view)))
    ensures Effects(s, ReadDone(s, w, Got(view), at), OnRead(w, Got(view)), at)
  {
    var p := s.passes[w];
    if Aborted(s, p.signal) {
      AbortedBound(s, w);
      IterationEffects(s, w, p.stage.bound, at);
    } else {
      IterationEffects(ApplyQueue(s, view, p.stage.bound), w, p.stage.bound, at);
    }
  }

  lemma UnreadEffects(s: Session, w: nat, r: ReadReply, at: nat)
    requires BornBy(s, at) && Enabled(s, OnRead(w, r)) && !r.Got?
    ensures Effects(s, ReadDone(s, w, r, at), OnRead(w, r), at)
  {
    var p := s.passes[w];
    LoopHeadQuiet(s, w, at);
    LoopHeadQuiet(s.(dirty := true, passes := s.passes[w := p.(recoveries := p.recoveries + 1)]), w, at);
  }

  lemma EventEffects(s: Session, c: nat, event: Event, at: nat)
    requires Numbered(s) && BornBy(s, at) && Enabled(s, OnEvent(c, event))
    ensures Fades(s, StreamEvent(s, c, event, at), at)
  {
    EndEffects(s, if event.MembershipEnded? then event.reason else Left, s.readers[c].epoch, at);
    SyncQuiet(s.(snap := s.snap.(live := true)), at);
  }

  lemma LeftEffects(s: Session, k: nat, r: CallReply, at: nat)
    requires Numbered(s) && BornBy(s, at) && Enabled(s, OnReply(k, r)) && s.calls[k].op.SendLeave?
    ensures Fades(s, CallDone(s, k, r, at), at)
  {
    var s1 := s.(calls := s.calls - {k});
    EndEffects(s1, Left, s.calls[k].epoch, at);
    SyncQuiet(s1.(snap := s1.snap.(error := true, busy := false)), at);
  }

  lemma ReplyEffects(s: Session, k: nat, r: CallReply, at: nat)
    requires BornBy(s, at) && Enabled(s, OnReply(k, r)) && !s.calls[k].op.SendLeave?
    ensures Effects(s, CallDone(s, k, r, at), OnReply(k, r), at)
  {
    var e := s.calls[k].epoch;
    if Valid(s, e) {
      if r.Replied? {
        var s1 := ApplyQueue(s, r.view, e);
        SettleQuiet(s1, k, true, false, at);
        ReleaseQuiet(Settle(s1, k, true, false), e, at);
      } else {
        SyncQuiet(s.(snap := s.snap.(error := true)), at);
      }
    }
  }

  lemma StoppedEffects(s: Session, a: Action, at: nat)
    requires BornBy(s, at) && Enabled(s, a) && (a.DoStop? || a.OnFinally? || a.OnTimer?)
    ensures Fades(s, Act(s, a, at), at)
  {
  }

  lemma QuietEffects(s: Session, t: Session, a: Action, at: nat)
    requires Quiet(s, t, at) || Fades(s, t, at)
    ensures Effects(s, t, a, at)
  {
  }

  lemma SyncedEffects(s: Session, k: nat, at: nat)
    requires BornBy(s, at) && k in s.calls && s.calls[k].stage.Syncing?
    ensures Quiet(s, CallSynced(s, k), at)
  {
    SettleQuiet(s, k, false, s.calls[k].stage.uncertain, at);
    ReleaseQuiet(Settle(s, k, false, s.calls[k].stage.uncertain), s.calls[k].epoch, at);
  }

  lemma ClosedEffects(s: Session, c: nat, clean: bool, at: nat)
    requires BornBy(s, at) && Enabled(s, OnClosed(c, clean))
    ensures Quiet(s, StreamClosed(s, c, clean, at), at)
  {
    ReaderQuiet(s, c, at);
  }

  lemma FadingEffects(s: Session, a: Action, at: nat)
    requires Numbered(s) && BornBy(s, at) && Enabled(s, a)
    requires a.DoStart? || a.DoStop? || a.OnFinally? || a.OnTimer? || a.OnEvent? || (a.OnReply? && s.calls[a.call].op.SendLeave?)
    ensures Fades(s, Act(s, a, at), at)
  {
    if a.DoStart? { StartEffects(s, at); }
    else if a.OnEvent? { EventEffects(s, a.reader, a.event, at); }
    else if a.OnReply? { LeftEffects(s, a.call, a.reply, at); }
    else { StoppedEffects(s, a, at); }
  }

  lemma ActEffects(s: Session, a: Action, at: nat)
    requires SessionInv(s) && BornBy(s, at) && Enabled(s, a)
    ensures Effects(s, Act(s, a, at), a, at)
  {
    var t := Act(s, a, at);
    if a.OnCurrent? { CurrentEffects(s, a.pass, a.current, at); }
    else if a.OnIdentity? { IdentityEffects(s, a.pass, a.identity, at); }
    else if a.OnRead? { if a.read.Got? { ReadEffects(s, a.pass, a.read.view, at); } else { UnreadEffects(s, a.pass, a.read, at); } }
    else if a.OnReply? && !s.calls[a.call].op.SendLeave? { ReplyEffects(s, a.call, a.reply, at); }
    else {
      if UserAction(a) { UserQuiet(s, a, at); }
      else if a.OnClosed? { ClosedEffects(s, a.reader, a.clean, at); }
      else if a.OnRefreshed? { ReaderQuiet(s, a.reader, at); }
      else if a.OnSynced? { SyncedEffects(s, a.call, at); }
      else if a.OnReturned? { SubmissionQuiet(s, a.call, at); }
      else { FadingEffects(s, a, at); }
      QuietEffects(s, t, a, at);
    }
  }

  /** A revision event of the current connection is a hint taken up now. */
  lemma EventIsAHint(s: Session, c: nat, event: Event, at: nat)
    requires SessionInv(s) && Enabled(s, OnEvent(c, event)) && s.connection == Some(c) && !Terminal(event)
    ensures StreamEvent(s, c, event, at).hintAt == at
  {
  }
}
