/**
 What the session owes its user, step by step: what each call may send, what it
 shows of every answer, event and failure, and when it reconnects.
 */
module Duties {
  import opened Prelude
  import opened Rooms
  import opened Transactions
  import opened Events
  import opened Session

  function Membership(s: Session): Option<MembershipId> {
    if s.snap.known.In? then Some(s.snap.known.view.membership) else None
  }

  function Present(s: Session): Epoch {
    Epoch(s.version, Membership(s))
  }

  predicate Current(s: Session, e: Epoch) {
    s.active && e == Present(s)
  }

  predicate Hosts(s: Session) {
    s.snap.known.In? && s.snap.user == Some(s.snap.known.view.owner)
  }

  // ---------------------------------------------------------------- what the user may send

  /** Guests vote; hosts move, remove and set policies that can be stored; an advance has a call of its own. */
  predicate Allowed(s: Session, c: Command) {
    match c
    case Advance(_) => false
    case Vote(_) => s.snap.user.Some? && !Hosts(s)
    case SetPolicy(p) => Hosts(s) && (p.Fixed? ==> 1 <= p.count <= 2147483647)
    case _ => Hosts(s)
  }

  /** One request goes out for the present membership; the session is busy and shows no error. */
  predicate Sends(s: Session, t: Session, op: Operation) {
    t == s.(snap := s.snap.(busy := true, error := false),
            calls := s.calls[s.serial := Call(Present(s), op, InFlight)], serial := s.serial + 1)
  }

  predicate Ready(s: Session) {
    s.active && s.snap.known.In? && !s.snap.busy
  }

  /** A request is sent exactly when the session is ready and the user may; else nothing happens. */
  lemma RequestsSend(s: Session, c: Command, at: nat)
    ensures var t := Act(s, DoRequest(c), at);
      if Ready(s) && Allowed(s, c) then Sends(s, t, Send(c)) else t == s
  {
  }

  /** Only the host advances, and only the entry shown as current; an end of playback waits while another call is out. */
  lemma AdvancesSend(s: Session, entry: EntryId, natural: bool, at: nat)
    ensures var t := Act(s, DoAdvance(entry, natural), at);
      if !s.active || !Hosts(s) || s.snap.queue.None? || s.snap.queue.value.current.None?
         || s.snap.queue.value.current.value.id != entry then t == s
      else if !s.snap.busy then Sends(s, t, Send(Advance(entry)))
      else t == if natural then s.(pendingEnd := Some((entry, Present(s)))) else s
  {
  }

  /** A retry repeats the attempt that is kept, and no other request identity. */
  lemma RetriesSend(s: Session, at: nat)
    ensures var t := Act(s, DoRetry, at);
      if Ready(s) && s.snap.attempt.Some? then Sends(s, t, SendSubmission(s.snap.attempt.value)) else t == s
  {
  }

  /** Adding replaces no attempt that is kept; it keeps the new one and sends it if it can. */
  lemma AddsSend(s: Session, x: Attempt, at: nat)
    ensures var t, kept := Act(s, DoAdd(x), at), s.(snap := s.snap.(attempt := Some(x)));
      if s.snap.attempt.Some? || s.snap.busy then t == s
      else if Ready(s) then Sends(kept, t, SendSubmission(x)) else t == kept
  {
  }

  /** Giving an attempt up clears it and its error, except while a call is out. */
  lemma DiscardsForget(s: Session, at: nat)
    ensures Act(s, DoDiscard, at) == if s.snap.busy then s else s.(snap := s.snap.(attempt := None, error := false))
  {
  }

  /** Leaving asks for nothing but a membership and no other call out; it is sent even after the session was stopped. */
  lemma LeavingSends(s: Session, at: nat)
    ensures var t := Act(s, DoLeave, at);
      if s.snap.known.In? && !s.snap.busy then Sends(s, t, SendLeave) else t == s
  {
  }

  // ---------------------------------------------------------------- memberships

  function Told(next: Option<LobbyView>): Known {
    match next case None => NoLobby case Some(v) => In(v)
  }

  /** Another membership, or none: everything that belonged to the previous one goes, and a lobby gets a new stream. */
  predicate Renewed(s: Session, t: Session, next: Option<LobbyView>) {
    && t.version == s.version + 1 && t.pendingEnd.None? && t.active == s.active && t.lifetime == s.lifetime
    && t.snap == Snap(Told(next), None, s.snap.user, false, s.snap.loading, false, false, s.snap.syncError, s.snap.ended, None)
    && t.calls == s.calls
    && (next.None? ==> t.connection.None? && t.readers == s.readers)
    && (next.Some? ==>
          && t.connection == Some(s.serial)
          && t.readers == s.readers[s.serial := Reader(Epoch(s.version + 1, Some(next.value.membership)), false, Streaming)])
  }

  predicate SameOtherwise(s: Session, t: Session) {
    && t.version == s.version && t.pendingEnd == s.pendingEnd && t.active == s.active && t.lifetime == s.lifetime
    && t.calls == s.calls && t.connection == s.connection && t.readers == s.readers
  }

  /** A later answer about the membership it knows, unless it is older than the one shown; anything else starts anew. */
  lemma MembershipIsTaken(s: Session, next: Option<LobbyView>)
    ensures var t := SetMembership(s, next);
      if s.snap.known == Unknown || Membership(s) != (if next.Some? then Some(next.value.membership) else None)
      then Renewed(s, t, next)
      else
        && SameOtherwise(s, t)
        && t.snap == if next.Some? && next.value.revision < s.snap.known.view.revision then s.snap
                     else s.snap.(known := Told(next))
  {
  }

  /** Where a pass goes on after an answer that is no longer its business, or after all of its answers. */
  predicate GoesRound(s: Session, t: Session, w: nat, at: nat)
    requires w in s.passes
  {
    && w in t.passes && t.passes.Keys == s.passes.Keys
    && (if s.active && s.passes[w].signal == s.lifetime && s.dirty
        then !t.dirty && t.passes[w].stage == AwaitCurrent(Present(s)) && t.passes[w].born == at
        else t.dirty == s.dirty && t.passes[w].stage.Finished?)
  }

  predicate Attends(s: Session, w: nat, e: Epoch)
    requires w in s.passes
  {
    Current(s, e) && s.passes[w].signal == s.lifetime
  }

  /** Its lifetime still running, a pass that fails says so and no longer claims to be live. */
  predicate ShowsFailure(s: Session, t: Session, w: nat)
    requires w in s.passes
  {
    && SameOtherwise(s, t) && t.dirty == s.dirty
    && t.snap == (if s.active && s.passes[w].signal == s.lifetime
                  then s.snap.(loading := false, syncError := true, live := false) else s.snap)
    && t.passes == s.passes[w := s.passes[w].(stage := Finished)]
  }

  lemma CurrentIsTaken(s: Session, w: nat, r: Option<Option<LobbyView>>, at: nat)
    requires Enabled(s, OnCurrent(w, r))
    ensures var t := Act(s, OnCurrent(w, r), at);
      if r.None? then ShowsFailure(s, t, w)
      else if !Attends(s, w, s.passes[w].stage.epoch) then SameOtherwise(s, t) && t.snap == s.snap && GoesRound(s, t, w, at)
      else
        var told := SetMembership(s, r.value);
        t == told.(passes := told.passes[w := told.passes[w].(stage := AwaitIdentity(Present(told), r.value))])
  {
    MembershipPasses(s, if r.Some? then r.value else None);
  }

  lemma MembershipPasses(s: Session, next: Option<LobbyView>)
    ensures SetMembership(s, next).passes == s.passes && SetMembership(s, next).dirty == s.dirty
  {
  }

  // ---------------------------------------------------------------- identities and queues

  predicate ShowsCoverage(s: Session, t: Session, bound: Epoch) {
    t.snap == if Current(s, bound) then s.snap.(syncError := false, loading := false) else s.snap
  }

  lemma CoverageIsShown(s: Session, w: nat, bound: Epoch, at: nat)
    requires w in s.passes
    ensures var t := EndIteration(s, w, bound, at);
      SameOtherwise(s, t) && GoesRound(s, t, w, at) && ShowsCoverage(s, t, bound)
  {
  }

  /** Who the user is, is shown; with no lobby the pass is then complete, and says so. */
  lemma IdentityIsTaken(s: Session, w: nat, r: Option<Option<UserId>>, at: nat)
    requires Enabled(s, OnIdentity(w, r))
    ensures var t := Act(s, OnIdentity(w, r), at);
      var bound, next := s.passes[w].stage.bound, s.passes[w].stage.next;
      if r.None? then ShowsFailure(s, t, w)
      else if !Attends(s, w, bound) then SameOtherwise(s, t) && t.snap == s.snap && GoesRound(s, t, w, at)
      else
        && SameOtherwise(s, t)
        && (if next.Some?
            then t.snap == s.snap.(user := r.value)
                 && t.passes == s.passes[w := s.passes[w].(stage := AwaitRead(bound, next.value))]
            else ShowsCoverage(s.(snap := s.snap.(user := r.value)), t, bound) && GoesRound(s, t, w, at))
  {
    if r.Some? { CoverageIsShown(s.(snap := s.snap.(user := r.value)), w, s.passes[w].stage.bound, at); }
  }

  /** A view of the present membership and lobby that is no older than the one shown. */
  predicate Shows(s: Session, view: QueueView, e: Epoch) {
    && Current(s, e) && s.snap.known.In?
    && view.membership == s.snap.known.view.membership && view.lobby == s.snap.known.view.lobby
    && (s.snap.queue.Some? ==> view.revision >= s.snap.queue.value.revision)
  }

  function WithQueue(s: Session, view: QueueView, shown: bool): Session {
    if shown then s.(snap := s.snap.(queue := Some(view))) else s
  }

  lemma QueueIsShown(s: Session, view: QueueView, e: Epoch)
    ensures ApplyQueue(s, view, e) == WithQueue(s, view, Shows(s, view, e))
  {
  }

  lemma ReadIsTaken(s: Session, w: nat, view: QueueView, at: nat)
    requires Enabled(s, OnRead(w, Got(view)))
    ensures var t := Act(s, OnRead(w, Got(view)), at);
      var bound := s.passes[w].stage.bound;
      && SameOtherwise(s, t) && GoesRound(s, t, w, at)
      && ShowsCoverage(WithQueue(s, view, Shows(s, view, bound) && s.passes[w].signal == s.lifetime), t, bound)
  {
    var bound := s.passes[w].stage.bound;
    QueueIsShown(s, view, bound);
    CoverageIsShown(s, w, bound, at);
    CoverageIsShown(WithQueue(s, view, true), w, bound, at);
  }

  /** A read that is forbidden is tried again twice, from the membership on; any other failure ends the pass. */
  lemma ReadMayFail(s: Session, w: nat, r: ReadReply, at: nat)
    requires Enabled(s, OnRead(w, r)) && !r.Got?
    ensures var t := Act(s, OnRead(w, r), at);
      var p := s.passes[w];
      if !Attends(s, w, p.stage.bound) then SameOtherwise(s, t) && t.snap == s.snap && GoesRound(s, t, w, at)
      else if r.Forbidden? && p.recoveries < 2 then
        && SameOtherwise(s, t) && t.snap == s.snap && !t.dirty
        && t.passes == s.passes[w := Pass(p.signal, p.recoveries + 1, at, AwaitCurrent(Present(s)))]
      else ShowsFailure(s, t, w)
  {
  }

  // ---------------------------------------------------------------- hints and streams

  /** A running session notes the hint: its flight will take it up, or a new one has. */
  predicate Hinted(s: Session, t: Session, at: nat) {
    if !s.active then t == s
    else
      && SameOtherwise(s, t) && t.snap == s.snap && t.hintAt == at
      && (s.flight.Some? ==> t.dirty && t.flight == s.flight && t.passes == s.passes)
      && (s.flight.None? ==>
            && !t.dirty && t.flight == Some(s.serial)
            && t.passes == s.passes[s.serial := Pass(s.lifetime, 0, at, AwaitCurrent(Present(s)))])
  }

  lemma HintIsTaken(s: Session, at: nat)
    ensures Hinted(s, Sync(s, at), at)
  {
  }

  /** The membership is over, its reason is shown, and what replaces it is looked up. */
  ghost predicate EndsWith(s: Session, t: Session, reason: EndReason, at: nat) {
    exists gone: Session ::
      && Renewed(s, gone, None) && gone.passes == s.passes && gone.flight == s.flight
      && Hinted(gone.(snap := gone.snap.(ended := Some(reason), loading := false)), t, at)
  }

  lemma EndIsShown(s: Session, reason: EndReason, at: nat)
    requires s.active && s.snap.known.In?
    ensures EndsWith(s, End(s, reason, Present(s), at), reason, at)
  {
    var gone := SetMembership(s, None);
    MembershipIsTaken(s, None);
    MembershipPasses(s, None);
    HintIsTaken(gone.(snap := gone.snap.(ended := Some(reason), loading := false)), at);
  }

  /** The stream's epoch is the present one, and it is the connection now held. */
  predicate Attached(s: Session, c: nat)
    requires c in s.readers
  {
    Current(s, s.readers[c].epoch) && s.connection == Some(c)
  }

  function AtStage(s: Session, c: nat, stage: ReaderStage): Session
    requires c in s.readers
  {
    s.(readers := s.readers[c := s.readers[c].(stage := stage)])
  }

  /** An end ends the membership for its own reason, an expiry is remembered, and anything else is a hint. */
  lemma EventIsTaken(s: Session, c: nat, event: Event, at: nat)
    requires Enabled(s, OnEvent(c, event))
    requires s.readers[c].epoch.membership.Some?
    ensures var t := Act(s, OnEvent(c, event), at);
      if !Attached(s, c) then t == s
      else match event
        case MembershipEnded(reason) => EndsWith(s, t, reason, at)
        case AuthExpired => t == s.(readers := s.readers[c := s.readers[c].(expired := true)])
        case _ => Hinted(s.(snap := s.snap.(live := true)), t, at)
  {
    if Attached(s, c) {
      if event.MembershipEnded? { EndIsShown(s, event.reason, at); }
      HintIsTaken(s.(snap := s.snap.(live := true)), at);
    }
  }

  /** A stream that is over is followed by a hint and a wait; one that is no longer wanted, by nothing. */
  ghost predicate Rests(s: Session, t: Session, c: nat, at: nat)
    requires c in s.readers
  {
    if !Attached(s, c) then t == AtStage(s, c, Over)
    else exists hinted: Session ::
      && Hinted(s.(snap := s.snap.(live := false)), hinted, at)
      && t == hinted.(readers := s.readers[c := s.readers[c].(stage := Waiting)])
  }

  lemma StreamRests(s: Session, c: nat, at: nat)
    requires c in s.readers
    ensures Rests(s, AfterStream(s, c, at), c, at)
  {
    HintIsTaken(s.(snap := s.snap.(live := false)), at);
  }

  /** The sign-in is refreshed after a stream that said it expired and then closed, in its epoch, and only then. */
  lemma CloseIsTaken(s: Session, c: nat, clean: bool, at: nat)
    requires Enabled(s, OnClosed(c, clean))
    ensures var t := Act(s, OnClosed(c, clean), at);
      if clean && s.readers[c].expired && Current(s, s.readers[c].epoch) then t == AtStage(s, c, Refreshing)
      else Rests(s, t, c, at)
  {
    StreamRests(s, c, at);
  }

  lemma RefreshIsTaken(s: Session, c: nat, at: nat)
    requires Enabled(s, OnRefreshed(c))
    ensures Rests(s, Act(s, OnRefreshed(c), at), c, at)
  {
    StreamRests(s, c, at);
  }

  /** After its wait a stream is opened again, exactly while it is wanted. */
  lemma TimerReconnects(s: Session, c: nat, at: nat)
    requires Enabled(s, OnTimer(c))
    ensures var t := Act(s, OnTimer(c), at);
      t == if Attached(s, c) then s.(readers := s.readers[c := Reader(s.readers[c].epoch, false, Streaming)])
           else AtStage(s, c, Over)
  {
  }

  // ---------------------------------------------------------------- replies

  function WithoutCall(s: Session, k: nat): Session {
    s.(calls := s.calls - {k})
  }

  /** A submission goes on to its own continuation; any other call is over. */
  function Settled(s: Session, k: nat, ok: bool, uncertain: bool): Session
    requires k in s.calls
  {
    if s.calls[k].op.SendSubmission? then s.(calls := s.calls[k := s.calls[k].(stage := Returning(ok, uncertain))])
    else WithoutCall(s, k)
  }

  /** The deferred end of playback is still this host's, for the entry still shown, and nothing is known to have failed. */
  predicate Defers(s: Session) {
    && s.pendingEnd.Some? && !s.snap.syncError && Current(s, s.pendingEnd.value.1) && Hosts(s)
    && s.snap.queue.Some? && s.snap.queue.value.current.Some? && s.snap.queue.value.current.value.id == s.pendingEnd.value.0
  }

  /** The session is free again, and a deferred end of playback is sent at once. */
  predicate Released(s: Session, t: Session) {
    var free := s.(snap := s.snap.(busy := false), pendingEnd := None);
    if Defers(s) then Sends(free, t, Send(Advance(s.pendingEnd.value.0))) else t == free
  }

  lemma BusyIsReleased(s: Session)
    requires s.active
    ensures Released(s, ReleaseBusy(s, Present(s)))
  {
  }

  /** A reply shows its view, if it may, and frees the session; after its epoch it is only forgotten. */
  lemma ReplyIsTaken(s: Session, k: nat, view: QueueView, at: nat)
    requires Enabled(s, OnReply(k, Replied(view)))
    ensures var t, e := Act(s, OnReply(k, Replied(view)), at), s.calls[k].epoch;
      if !Current(s, e) then t == WithoutCall(s, k)
      else Released(Settled(WithQueue(s, view, Shows(s, view, e)), k, true, false), t)
  {
    var e := s.calls[k].epoch;
    QueueIsShown(s, view, e);
    if Current(s, e) { BusyIsReleased(Settled(WithQueue(s, view, Shows(s, view, e)), k, true, false)); }
  }

  /** A failed mutation is shown, and stays busy until the synchronization it asks for is over. */
  lemma RefusalIsTaken(s: Session, k: nat, uncertain: bool, at: nat)
    requires Enabled(s, OnReply(k, Refused(uncertain))) && !s.calls[k].op.SendLeave?
    ensures var t := Act(s, OnReply(k, Refused(uncertain)), at);
      if !Current(s, s.calls[k].epoch) then t == WithoutCall(s, k)
      else exists hinted: Session ::
        && Hinted(s.(snap := s.snap.(error := true)), hinted, at) && hinted.flight.Some?
        && t == hinted.(calls := s.calls[k := s.calls[k].(stage := Syncing(hinted.flight.value, uncertain))])
  {
    HintIsTaken(s.(snap := s.snap.(error := true)), at);
  }

  /** Then it frees the session too. */
  lemma SynchronizedIsFree(s: Session, k: nat, at: nat)
    requires Enabled(s, OnSynced(k))
    ensures var t, settled := Act(s, OnSynced(k), at), Settled(s, k, false, s.calls[k].stage.uncertain);
      if !Current(s, s.calls[k].epoch) then t == settled else Released(settled, t)
  {
    if Current(s, s.calls[k].epoch) { BusyIsReleased(Settled(s, k, false, s.calls[k].stage.uncertain)); }
  }

  /** The answer to leaving: the membership is over because the user left, or the failure is shown and looked into. */
  lemma LeaveIsTaken(s: Session, k: nat, r: CallReply, at: nat)
    requires Enabled(s, OnReply(k, r)) && s.calls[k].op.SendLeave? && s.calls[k].epoch.membership.Some?
    ensures var t, gone := Act(s, OnReply(k, r), at), WithoutCall(s, k);
      if !Current(s, s.calls[k].epoch) then t == gone
      else if r.LeftOk? then EndsWith(gone, t, Left, at)
      else Hinted(gone.(snap := s.snap.(error := true, busy := false)), t, at)
  {
    var gone := WithoutCall(s, k);
    if Current(s, s.calls[k].epoch) {
      if r.LeftOk? { EndIsShown(gone, Left, at); } else { HintIsTaken(gone.(snap := s.snap.(error := true, busy := false)), at); }
    }
  }

  /** A submission that went through is forgotten; a certain refusal too, with its error; an uncertain one is kept. */
  lemma SubmissionIsSettled(s: Session, k: nat, at: nat)
    requires Enabled(s, OnReturned(k)) && s.calls[k].op.SendSubmission?
    ensures var t, c := Act(s, OnReturned(k), at), s.calls[k];
      t == if !Current(s, c.epoch) then WithoutCall(s, k)
           else if c.stage.ok then WithoutCall(s, k).(snap := s.snap.(attempt := None))
           else WithoutCall(s, k).(snap := s.snap.(attempt := if c.stage.uncertain then Some(c.op.attempt) else None, error := true))
  {
  }

  // ---------------------------------------------------------------- stopping and starting

  /** Stopping shows nothing new: it ends the epoch, the pass, the deferral and the stream, and outstanding calls go on. */
  lemma StopEndsTheEpoch(s: Session, at: nat)
    ensures var t := Act(s, DoStop, at);
      && !t.active && t.version == s.version + 1 && t.lifetime == s.lifetime
      && t.snap == s.snap && t.calls == s.calls && t.passes == s.passes && t.readers == s.readers
      && !t.dirty && t.flight.None? && t.pendingEnd.None? && t.connection.None?
  {
  }

  /** Starting, unless started, begins an epoch and a lifetime with a pass, and a stream of the membership if there is one. */
  lemma StartBeginsAnEpoch(s: Session, at: nat)
    ensures var t := Act(s, DoStart, at);
      if s.active then t == s
      else
        && t.active && t.version == s.version + 1 && t.lifetime == s.lifetime + 1
        && t.snap == s.snap && t.calls == s.calls && t.pendingEnd == s.pendingEnd && t.flight.Some? && t.hintAt == at
        && (s.flight.None? ==> t.flight.value in t.passes
                               && t.passes[t.flight.value] == Pass(t.lifetime, 0, at, AwaitCurrent(Present(t))))
        && (if s.snap.known.In? then
              t.connection == Some(s.serial) && t.readers == s.readers[s.serial := Reader(Present(t), false, Streaming)]
            else t.connection == s.connection && t.readers == s.readers)
  {
    if !s.active { HintIsTaken(Connect(Awaken(s)), at); }
  }
}
