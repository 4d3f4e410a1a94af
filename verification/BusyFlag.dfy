/**
 The busy flag: it refuses every other request while one is out.  It is given
 back by the request that took it, except when the session was stopped
 meanwhile: then nothing gives it back until the membership changes.
 */
module BusyFlag {
  import opened Prelude
  import opened Rooms
  import opened Transactions
  import opened Events
  import opened Session
  import opened SessionLaws
  import opened SessionRuns
  import opened Duties

  /** A request that will give the flag back when it is answered. */
  predicate Frees(s: Session, k: nat) {
    k in s.calls && !s.calls[k].stage.Returning? && Duties.Current(s, s.calls[k].epoch)
  }

  ghost predicate HasCall(s: Session) {
    exists k: nat :: Frees(s, k)
  }

  /** Only a member is ever busy, and no call is of an epoch still to come. */
  ghost predicate FlagOk(s: Session) {
    && (s.snap.busy ==> s.snap.known.In?)
    && (forall k :: k in s.calls ==> s.calls[k].epoch.version <= s.version)
  }

  /** Streams and calls are made for a membership. */
  ghost predicate Named(s: Session) {
    && (forall c :: c in s.readers ==> s.readers[c].epoch.membership.Some?)
    && (forall k :: k in s.calls ==> s.calls[k].epoch.membership.Some?)
  }

  /** What was busy with a request stays so or is freed; what was busy without one finds none, and only another membership frees it. */
  ghost predicate Tracks(s: Session, t: Session) {
    && (t.snap.busy ==> t.snap.known.In?) && (t.active && !s.active ==> t.snap.busy == s.snap.busy)
    && (s.active && (s.snap.busy ==> HasCall(s)) && t.active && t.snap.busy ==> HasCall(t))
    && (s.snap.busy && !HasCall(s) ==> !HasCall(t) && (t.snap.busy || Membership(t) != Membership(s)))
  }

  /** The calls that free the flag are the same, and so is the flag. */
  ghost predicate Alike(s: Session, t: Session) {
    && t.active == s.active && t.snap.busy == s.snap.busy && Membership(t) == Membership(s)
    && (forall k :: Frees(s, k) <==> Frees(t, k))
  }

  lemma AlikeTracks(s: Session, t: Session)
    requires FlagOk(s) && Alike(s, t)
    ensures Tracks(s, t)
  {
    if k :| Frees(s, k) { assert Frees(t, k); }
    if k :| Frees(t, k) { assert Frees(s, k); }
  }

  /** The membership is over, and what was out belongs to its epoch. */
  predicate Drops(s: Session, t: Session) {
    && t.active == s.active && t.version > s.version && !t.snap.busy && Membership(t) != Membership(s)
    && (forall k :: k in t.calls ==> k in s.calls && t.calls[k].epoch == s.calls[k].epoch)
  }

  lemma DropsTrack(s: Session, t: Session)
    requires FlagOk(s) && Drops(s, t)
    ensures Tracks(s, t)
  {
  }

  lemma SendingTracks(s: Session, t: Session, op: Operation)
    requires FlagOk(s) && s.snap.known.In? && !s.snap.busy && Sends(s, t, op)
    ensures Tracks(s, t)
  {
    if t.active { assert Frees(t, s.serial); }
  }

  /** Whoever releases the flag had it, and a deferred request may take it at once. */
  lemma ReleasingTracks(s: Session, x: Session, t: Session, k: nat)
    requires FlagOk(s) && Frees(s, k) && Released(x, t)
    ensures Tracks(s, t)
  {
    if Defers(x) && t.active { assert Frees(t, x.serial); }
  }

  lemma SubmissionsTrack(s: Session, a: Action, at: nat)
    requires FlagOk(s) && (a.DoAdd? || a.DoRetry? || a.DoDiscard?)
    ensures Tracks(s, Act(s, a, at))
  {
    var t := Act(s, a, at);
    match a
    case DoAdd(x) =>
      AddsSend(s, x, at);
      var kept := s.(snap := s.snap.(attempt := Some(x)));
      if !s.snap.attempt.Some? && Ready(s) { SendingTracks(kept, t, SendSubmission(x)); } else { AlikeTracks(s, t); }
    case DoRetry =>
      RetriesSend(s, at);
      if Ready(s) && s.snap.attempt.Some? { SendingTracks(s, t, SendSubmission(s.snap.attempt.value)); } else { AlikeTracks(s, t); }
    case DoDiscard =>
      DiscardsForget(s, at);
      AlikeTracks(s, t);
    case _ =>
  }

  lemma UsersTrack(s: Session, a: Action, at: nat)
    requires FlagOk(s) && UserAction(a) && Enabled(s, a)
    ensures Tracks(s, Act(s, a, at))
  {
    var t := Act(s, a, at);
    match a
    case DoRequest(c) =>
      RequestsSend(s, c, at);
      if Ready(s) && Allowed(s, c) { SendingTracks(s, t, Send(c)); } else { AlikeTracks(s, t); }
    case DoAdvance(entry, natural) =>
      AdvancesSend(s, entry, natural, at);
      if t.snap.busy && !s.snap.busy { SendingTracks(s, t, Send(Advance(entry))); } else { AlikeTracks(s, t); }
    case DoAdd(_) => SubmissionsTrack(s, a, at);
    case DoRetry => SubmissionsTrack(s, a, at);
    case DoDiscard => SubmissionsTrack(s, a, at);
    case DoLeave =>
      LeavingSends(s, at);
      if s.snap.known.In? && !s.snap.busy { SendingTracks(s, t, SendLeave); } else { AlikeTracks(s, t); }
    case _ =>
  }

  lemma HintedAlike(s: Session, t: Session, at: nat)
    requires Hinted(s, t, at)
    ensures Alike(s, t)
  {
  }

  lemma ThenAlike(s: Session, x: Session, t: Session)
    requires Alike(s, x) && Alike(x, t)
    ensures Alike(s, t)
  {
  }

  lemma RenewedDrops(s: Session, t: Session, next: Option<LobbyView>)
    requires Renewed(s, t, next) && Membership(s) != (if next.Some? then Some(next.value.membership) else None)
    ensures Drops(s, t)
  {
  }

  /** The end of a membership drops its requests. */
  lemma EndDrops(s: Session, x: Session, t: Session, reason: EndReason, at: nat)
    requires EndsWith(x, t, reason, at) && s.active && s.snap.known.In? && x.active
    requires x.version == s.version && x.snap == s.snap && forall k :: k in x.calls ==> k in s.calls && x.calls[k] == s.calls[k]
    ensures Drops(s, t)
  {
    var gone: Session :| Renewed(x, gone, None)
      && Hinted(gone.(snap := gone.snap.(ended := Some(reason), loading := false)), t, at);
    RenewedDrops(x, gone, None);
  }

  lemma CurrentTracks(s: Session, w: nat, r: Option<Option<LobbyView>>, at: nat)
    requires FlagOk(s) && Enabled(s, OnCurrent(w, r))
    ensures Tracks(s, Act(s, OnCurrent(w, r), at))
  {
    var t := Act(s, OnCurrent(w, r), at);
    CurrentIsTaken(s, w, r, at);
    if r.Some? && Attends(s, w, s.passes[w].stage.epoch) {
      MembershipIsTaken(s, r.value);
      var told := SetMembership(s, r.value);
      var id := if r.value.Some? then Some(r.value.value.membership) else None;
      if Membership(s) != id {
        RenewedDrops(s, told, r.value);
        DropsTrack(s, t);
      } else if s.snap.known == Unknown {
        RenewedUnknown(s, told, t);
      } else {
        AlikeTracks(s, t);
      }
    } else {
      AlikeTracks(s, t);
    }
  }

  /** The first answer of all: nothing was busy before it. */
  lemma RenewedUnknown(s: Session, told: Session, t: Session)
    requires FlagOk(s) && s.snap.known == Unknown && !told.snap.busy && t.snap == told.snap
    ensures Tracks(s, t)
  {
  }

  lemma IdentityTracks(s: Session, w: nat, r: Option<Option<UserId>>, at: nat)
    requires FlagOk(s) && Enabled(s, OnIdentity(w, r))
    ensures Tracks(s, Act(s, OnIdentity(w, r), at))
  {
    IdentityIsTaken(s, w, r, at);
    AlikeTracks(s, Act(s, OnIdentity(w, r), at));
  }

  lemma ReadTracks(s: Session, w: nat, r: ReadReply, at: nat)
    requires FlagOk(s) && Enabled(s, OnRead(w, r))
    ensures Tracks(s, Act(s, OnRead(w, r), at))
  {
    if r.Got? { ReadIsTaken(s, w, r.view, at); } else { ReadMayFail(s, w, r, at); }
    AlikeTracks(s, Act(s, OnRead(w, r), at));
  }

  lemma EventTracks(s: Session, c: nat, event: Event, at: nat)
    requires FlagOk(s) && Named(s) && Enabled(s, OnEvent(c, event))
    ensures Tracks(s, Act(s, OnEvent(c, event), at))
  {
    var t := Act(s, OnEvent(c, event), at);
    EventIsTaken(s, c, event, at);
    if !Attached(s, c) {
      AlikeTracks(s, t);
    } else if event.MembershipEnded? {
      EndDrops(s, s, t, event.reason, at);
      DropsTrack(s, t);
    } else {
      if !event.AuthExpired? { HintedAlike(s.(snap := s.snap.(live := true)), t, at); }
      AlikeTracks(s, t);
    }
  }

  lemma RestsAlike(s: Session, t: Session, c: nat, at: nat)
    requires c in s.readers && Rests(s, t, c, at)
    ensures Alike(s, t)
  {
    if Attached(s, c) {
      var hinted: Session :| Hinted(s.(snap := s.snap.(live := false)), hinted, at)
        && t == hinted.(readers := s.readers[c := s.readers[c].(stage := Waiting)]);
      HintedAlike(s.(snap := s.snap.(live := false)), hinted, at);
    }
  }

  lemma ReadersTrack(s: Session, a: Action, at: nat)
    requires FlagOk(s) && Enabled(s, a) && (a.OnClosed? || a.OnRefreshed? || a.OnTimer?)
    ensures Tracks(s, Act(s, a, at))
  {
    var t := Act(s, a, at);
    match a
    case OnClosed(c, clean) =>
      CloseIsTaken(s, c, clean, at);
      if !(clean && s.readers[c].expired && Duties.Current(s, s.readers[c].epoch)) { RestsAlike(s, t, c, at); }
      AlikeTracks(s, t);
    case OnRefreshed(c) =>
      RefreshIsTaken(s, c, at);
      RestsAlike(s, t, c, at);
      AlikeTracks(s, t);
    case OnTimer(c) =>
      TimerReconnects(s, c, at);
      AlikeTracks(s, t);
    case _ =>
  }

  // ---------------------------------------------------------------- answers

  /** Forgetting a call that frees nothing changes nothing. */
  lemma ForgettingTracks(s: Session, k: nat)
    requires FlagOk(s) && k in s.calls && !Frees(s, k)
    ensures Tracks(s, WithoutCall(s, k))
  {
    AlikeTracks(s, WithoutCall(s, k));
  }

  lemma ReplyTracks(s: Session, k: nat, view: QueueView, at: nat)
    requires FlagOk(s) && Enabled(s, OnReply(k, Replied(view)))
    ensures Tracks(s, Act(s, OnReply(k, Replied(view)), at))
  {
    ReplyIsTaken(s, k, view, at);
    var e := s.calls[k].epoch;
    if Duties.Current(s, e) {
      ReleasingTracks(s, Settled(WithQueue(s, view, Shows(s, view, e)), k, true, false), Act(s, OnReply(k, Replied(view)), at), k);
    } else {
      ForgettingTracks(s, k);
    }
  }

  lemma RefusalTracks(s: Session, k: nat, uncertain: bool, at: nat)
    requires FlagOk(s) && Enabled(s, OnReply(k, Refused(uncertain))) && !s.calls[k].op.SendLeave?
    ensures Tracks(s, Act(s, OnReply(k, Refused(uncertain)), at))
  {
    var t := Act(s, OnReply(k, Refused(uncertain)), at);
    RefusalIsTaken(s, k, uncertain, at);
    if Duties.Current(s, s.calls[k].epoch) {
      var hinted: Session :| Hinted(s.(snap := s.snap.(error := true)), hinted, at) && hinted.flight.Some?
        && t == hinted.(calls := s.calls[k := s.calls[k].(stage := Syncing(hinted.flight.value, uncertain))]);
      HintedAlike(s.(snap := s.snap.(error := true)), hinted, at);
      AlikeTracks(s, t);
    } else {
      ForgettingTracks(s, k);
    }
  }

  lemma LeaveTracks(s: Session, k: nat, r: CallReply, at: nat)
    requires FlagOk(s) && Enabled(s, OnReply(k, r)) && s.calls[k].op.SendLeave? && s.calls[k].epoch.membership.Some?
    ensures Tracks(s, Act(s, OnReply(k, r), at))
  {
    var t, gone := Act(s, OnReply(k, r), at), WithoutCall(s, k);
    LeaveIsTaken(s, k, r, at);
    if !Duties.Current(s, s.calls[k].epoch) {
      ForgettingTracks(s, k);
    } else if r.LeftOk? {
      EndDrops(s, gone, t, Left, at);
      DropsTrack(s, t);
    } else {
      HintedAlike(gone.(snap := s.snap.(error := true, busy := false)), t, at);
      assert Frees(s, k);
    }
  }

  lemma SyncedTracks(s: Session, k: nat, at: nat)
    requires FlagOk(s) && Enabled(s, OnSynced(k))
    ensures Tracks(s, Act(s, OnSynced(k), at))
  {
    SynchronizedIsFree(s, k, at);
    var settled := Settled(s, k, false, s.calls[k].stage.uncertain);
    if Duties.Current(s, s.calls[k].epoch) { ReleasingTracks(s, settled, Act(s, OnSynced(k), at), k); }
    else { AlikeTracks(s, settled); }
  }

  lemma ReturnForgets(s: Session, k: nat)
    requires k in s.calls && s.calls[k].stage.Returning?
    ensures var t := SubmissionDone(s, k);
      && t.calls == s.calls - {k} && t.active == s.active && t.version == s.version && t.readers == s.readers
      && t.snap.busy == s.snap.busy && t.snap.known == s.snap.known
  {
  }

  lemma ReturnedTracks(s: Session, k: nat, at: nat)
    requires FlagOk(s) && Enabled(s, OnReturned(k))
    ensures Tracks(s, Act(s, OnReturned(k), at))
  {
    ReturnForgets(s, k);
    AlikeTracks(s, Act(s, OnReturned(k), at));
  }

  lemma StartStopTrack(s: Session, a: Action, at: nat)
    requires FlagOk(s) && (a.DoStart? || a.DoStop?)
    ensures Tracks(s, Act(s, a, at))
  {
    StartBeginsAnEpoch(s, at);
    StopEndsTheEpoch(s, at);
  }

  lemma ActTracks(s: Session, a: Action, at: nat)
    requires FlagOk(s) && Named(s) && Enabled(s, a)
    ensures Tracks(s, Act(s, a, at))
  {
    match a
    case DoStart => StartStopTrack(s, a, at);
    case DoStop => StartStopTrack(s, a, at);
    case OnCurrent(w, r) => CurrentTracks(s, w, r, at);
    case OnIdentity(w, r) => IdentityTracks(s, w, r, at);
    case OnRead(w, r) => ReadTracks(s, w, r, at);
    case OnFinally(w) => AlikeTracks(s, Act(s, a, at));
    case OnEvent(c, e) => EventTracks(s, c, e, at);
    case OnClosed(_, _) => ReadersTrack(s, a, at);
    case OnRefreshed(_) => ReadersTrack(s, a, at);
    case OnTimer(_) => ReadersTrack(s, a, at);
    case OnSynced(k) => SyncedTracks(s, k, at);
    case OnReturned(k) => ReturnedTracks(s, k, at);
    case OnReply(k, r) => RepliesTrack(s, k, r, at);
    case _ => UsersTrack(s, a, at);
  }

  lemma RepliesTrack(s: Session, k: nat, r: CallReply, at: nat)
    requires FlagOk(s) && Named(s) && Enabled(s, OnReply(k, r))
    ensures Tracks(s, Act(s, OnReply(k, r), at))
  {
    if s.calls[k].op.SendLeave? { LeaveTracks(s, k, r, at); }
    else if r.Replied? { ReplyTracks(s, k, r.view, at); }
    else { RefusalTracks(s, k, r.uncertain, at); }
  }

  // ---------------------------------------------------------------- streams and calls are for memberships

  lemma EndNames(s: Session, t: Session, reason: EndReason, at: nat)
    requires Named(s) && EndsWith(s, t, reason, at)
    ensures Named(t)
  {
  }

  lemma RestsNames(s: Session, t: Session, c: nat, at: nat)
    requires Named(s) && c in s.readers && Rests(s, t, c, at)
    ensures Named(t)
  {
  }

  lemma SendsNames(s: Session, t: Session, op: Operation)
    requires Named(s) && s.snap.known.In? && Sends(s, t, op)
    ensures Named(t)
  {
  }

  lemma ReleasedNames(s: Session, t: Session)
    requires Named(s) && Released(s, t)
    ensures Named(t)
  {
  }

  lemma PassesName(s: Session, a: Action, at: nat)
    requires Named(s) && Enabled(s, a) && (a.OnCurrent? || a.OnIdentity? || a.OnRead?)
    ensures Named(Act(s, a, at))
  {
    match a
    case OnCurrent(w, r) =>
      CurrentIsTaken(s, w, r, at);
      if r.Some? { MembershipIsTaken(s, r.value); }
    case OnIdentity(w, r) => IdentityIsTaken(s, w, r, at);
    case OnRead(w, r) => if r.Got? { ReadIsTaken(s, w, r.view, at); } else { ReadMayFail(s, w, r, at); }
    case _ =>
  }

  lemma ReadersName(s: Session, a: Action, at: nat)
    requires Named(s) && Enabled(s, a) && (a.OnEvent? || a.OnClosed? || a.OnRefreshed? || a.OnTimer?)
    ensures Named(Act(s, a, at))
  {
    match a
    case OnEvent(c, event) =>
      EventIsTaken(s, c, event, at);
      if Attached(s, c) && event.MembershipEnded? { EndNames(s, Act(s, a, at), event.reason, at); }
    case OnClosed(c, clean) =>
      CloseIsTaken(s, c, clean, at);
      if !(clean && s.readers[c].expired && Duties.Current(s, s.readers[c].epoch)) { RestsNames(s, Act(s, a, at), c, at); }
    case OnRefreshed(c) =>
      RefreshIsTaken(s, c, at);
      RestsNames(s, Act(s, a, at), c, at);
    case OnTimer(c) => TimerReconnects(s, c, at);
    case _ =>
  }

  lemma SettledNames(s: Session, k: nat, ok: bool, uncertain: bool)
    requires Named(s) && k in s.calls
    ensures Named(Settled(s, k, ok, uncertain))
  {
  }

  lemma RefusalNames(s: Session, k: nat, uncertain: bool, at: nat)
    requires Named(s) && Enabled(s, OnReply(k, Refused(uncertain))) && !s.calls[k].op.SendLeave?
    ensures Named(Act(s, OnReply(k, Refused(uncertain)), at))
  {
    RefusalIsTaken(s, k, uncertain, at);
  }

  lemma LeaveNames(s: Session, k: nat, r: CallReply, at: nat)
    requires Named(s) && Enabled(s, OnReply(k, r)) && s.calls[k].op.SendLeave?
    ensures Named(Act(s, OnReply(k, r), at))
  {
    LeaveIsTaken(s, k, r, at);
    if Duties.Current(s, s.calls[k].epoch) && r.LeftOk? { EndNames(WithoutCall(s, k), Act(s, OnReply(k, r), at), Left, at); }
  }

  lemma AnswersName(s: Session, k: nat, r: CallReply, at: nat)
    requires Named(s) && Enabled(s, OnReply(k, r))
    ensures Named(Act(s, OnReply(k, r), at))
  {
    var t, e := Act(s, OnReply(k, r), at), s.calls[k].epoch;
    if s.calls[k].op.SendLeave? {
      LeaveNames(s, k, r, at);
    } else if r.Replied? {
      ReplyIsTaken(s, k, r.view, at);
      if Duties.Current(s, e) {
        var shown := WithQueue(s, r.view, Shows(s, r.view, e));
        SettledNames(shown, k, true, false);
        ReleasedNames(Settled(shown, k, true, false), t);
      }
    } else {
      RefusalNames(s, k, r.uncertain, at);
    }
  }

  lemma CallsName(s: Session, a: Action, at: nat)
    requires Named(s) && Enabled(s, a) && (a.OnSynced? || a.OnReturned? || a.OnFinally?)
    ensures Named(Act(s, a, at))
  {
    if a.OnSynced? {
      SynchronizedIsFree(s, a.call, at);
      var settled := Settled(s, a.call, false, s.calls[a.call].stage.uncertain);
      SettledNames(s, a.call, false, s.calls[a.call].stage.uncertain);
      if Duties.Current(s, s.calls[a.call].epoch) { ReleasedNames(settled, Act(s, a, at)); }
    } else if a.OnReturned? {
      ReturnForgets(s, a.call);
    }
  }

  lemma UsersName(s: Session, a: Action, at: nat)
    requires Named(s) && UserAction(a) && Enabled(s, a)
    ensures Named(Act(s, a, at))
  {
    var t := Act(s, a, at);
    match a
    case DoRequest(c) =>
      RequestsSend(s, c, at);
      if Ready(s) && Allowed(s, c) { SendsNames(s, t, Send(c)); }
    case DoAdvance(entry, natural) =>
      AdvancesSend(s, entry, natural, at);
      if t.snap.busy && !s.snap.busy { SendsNames(s, t, Send(Advance(entry))); }
    case DoAdd(x) => AddsSend(s, x, at);
    case DoRetry => RetriesSend(s, at);
    case DoDiscard => DiscardsForget(s, at);
    case DoLeave => LeavingSends(s, at);
    case _ =>
  }

  lemma ActNames(s: Session, a: Action, at: nat)
    requires Named(s) && Enabled(s, a)
    ensures Named(Act(s, a, at))
  {
    if a.DoStart? { StartBeginsAnEpoch(s, at); }
    else if a.DoStop? { StopEndsTheEpoch(s, at); }
    else if a.OnCurrent? || a.OnIdentity? || a.OnRead? { PassesName(s, a, at); }
    else if a.OnEvent? || a.OnClosed? || a.OnRefreshed? || a.OnTimer? { ReadersName(s, a, at); }
    else if a.OnReply? { AnswersName(s, a.call, a.reply, at); }
    else if a.OnSynced? || a.OnReturned? || a.OnFinally? { CallsName(s, a, at); }
    else { UsersName(s, a, at); }
  }

  // ---------------------------------------------------------------- whole runs

  lemma {:induction false} RunTracks(ss: seq<Session>, acts: seq<Action>, times: seq<nat>, n: nat)
    requires SessionRun(ss, acts, times) && n <= |acts|
    ensures FlagOk(ss[n]) && Named(ss[n])
    ensures n < |acts| ==> Tracks(ss[n], ss[n + 1])
  {
    RunKeepsInv(ss, acts, times, n);
    if n > 0 {
      RunTracks(ss, acts, times, n - 1);
      assert Steps(ss[n - 1], acts[n - 1], times[n - 1], ss[n]);
      ActNames(ss[n - 1], acts[n - 1], times[n - 1]);
    }
    if n < |acts| {
      assert Steps(ss[n], acts[n], times[n], ss[n + 1]);
      ActTracks(ss[n], acts[n], times[n]);
    }
  }

  ghost predicate BusyFrom(ss: seq<Session>, i: int, n: int) {
    0 <= i <= n < |ss| && forall j :: i <= j <= n ==> ss[j].snap.busy
  }

  /** Busy ever since a moment at which the session was stopped. */
  ghost predicate StoppedWhileBusy(ss: seq<Session>, n: nat) {
    exists i :: BusyFrom(ss, i, n) && !ss[i].active
  }

  lemma BusyStill(ss: seq<Session>, i: int, m: int)
    requires BusyFrom(ss, i, m) && m + 1 < |ss| && ss[m + 1].snap.busy
    ensures BusyFrom(ss, i, m + 1)
  {
  }

  lemma {:induction false} LostStaysLost(ss: seq<Session>, acts: seq<Action>, times: seq<nat>, i: nat, n: nat)
    requires SessionRun(ss, acts, times) && i <= n <= |acts| && !ss[i].active && BusyFrom(ss, i, n)
    ensures !HasCall(ss[n])
    decreases n
  {
    if i < n {
      LostStaysLost(ss, acts, times, i, n - 1);
      RunTracks(ss, acts, times, n - 1);
    }
  }

  lemma BusyBefore(s: Session, t: Session)
    requires Tracks(s, t) && t.active && t.snap.busy && !HasCall(t)
    ensures s.snap.busy && (s.active ==> !HasCall(s))
  {
  }

  lemma {:induction false} LostWhenStopped(ss: seq<Session>, acts: seq<Action>, times: seq<nat>, n: nat)
    requires SessionRun(ss, acts, times) && n <= |acts| && ss[n].active && ss[n].snap.busy && !HasCall(ss[n])
    ensures StoppedWhileBusy(ss, n)
  {
    assert n > 0;
    var m := n - 1;
    RunTracks(ss, acts, times, m);
    BusyBefore(ss[m], ss[n]);
    if ss[m].active {
      LostWhenStopped(ss, acts, times, m);
      var i :| BusyFrom(ss, i, m) && !ss[i].active;
      BusyStill(ss, i, m);
    } else {
      assert BusyFrom(ss, m, m);
      BusyStill(ss, m, m);
    }
  }

  /**
   A running session that is busy has a request out that will free it, if and only if it has not been busy ever since
   a moment at which it was stopped.
   */
  lemma BusyIsOwedExactlyWhen(ss: seq<Session>, acts: seq<Action>, times: seq<nat>, n: nat)
    requires SessionRun(ss, acts, times) && n <= |acts| && ss[n].active && ss[n].snap.busy
    ensures HasCall(ss[n]) <==> !StoppedWhileBusy(ss, n)
  {
    if StoppedWhileBusy(ss, n) {
      var i :| BusyFrom(ss, i, n) && !ss[i].active;
      LostStaysLost(ss, acts, times, i, n);
    } else if !HasCall(ss[n]) {
      LostWhenStopped(ss, acts, times, n);
    }
  }

  /** Such a session sends nothing at all, whatever its user asks for, until its membership is another. */
  lemma {:induction false} LostUntilAnotherMembership(ss: seq<Session>, acts: seq<Action>, times: seq<nat>, i: nat, n: nat)
    requires SessionRun(ss, acts, times) && i <= n <= |acts| && ss[i].snap.busy && !HasCall(ss[i])
    requires forall j :: i <= j <= n ==> Membership(ss[j]) == Membership(ss[i])
    ensures ss[n].snap.busy && !HasCall(ss[n])
    ensures n < |acts| && UserAction(acts[n]) ==> ss[n + 1].calls == ss[n].calls
    decreases n
  {
    if i < n {
      LostUntilAnotherMembership(ss, acts, times, i, n - 1);
      RunTracks(ss, acts, times, n - 1);
    }
    if n < |acts| && UserAction(acts[n]) {
      assert Steps(ss[n], acts[n], times[n], ss[n + 1]);
      BusySendsNothing(ss[n], acts[n], times[n]);
    }
  }

  lemma BusySendsNothing(s: Session, a: Action, at: nat)
    requires s.snap.busy && UserAction(a) && Enabled(s, a)
    ensures Act(s, a, at).calls == s.calls
  {
  }

  const VIEW := LobbyView(1, 2, 3, 4, 0, 86400, 1, {Member(4, 0)})

  /** Started, told of its membership, and leaving it. */
  lemma LeavingInTime()
    returns (s1: Session, s2: Session, s3: Session)
    ensures Steps(INITIAL, DoStart, 0, s1) && Steps(s1, OnCurrent(0, Some(Some(VIEW))), 0, s2) && Steps(s2, DoLeave, 0, s3)
    ensures s3.active && s3.snap.busy && s3.snap.known == In(VIEW)
  {
    s1 := Act(INITIAL, DoStart, 0);
    assert s1.passes[0] == Pass(1, 0, 0, AwaitCurrent(Epoch(1, None)));
    s2 := Act(s1, OnCurrent(0, Some(Some(VIEW))), 0);
    assert s2.snap.known == In(VIEW) && !s2.snap.busy && s2.active;
    LeavingSends(s2, 0);
    s3 := Act(s2, DoLeave, 0);
  }

  /** Such a run: the user leaves, the session is stopped before the answer, and started again. */
  lemma StoppedBeforeTheAnswer()
    returns (ss: seq<Session>, acts: seq<Action>, times: seq<nat>)
    ensures SessionRun(ss, acts, times) && |acts| == 5
    ensures ss[5].active && ss[5].snap.busy && !HasCall(ss[5])
  {
    var s1, s2, s3 := LeavingInTime();
    var s4 := Act(s3, DoStop, 0);
    var s5 := Act(s4, DoStart, 0);
    StopEndsTheEpoch(s3, 0);
    StartBeginsAnEpoch(s4, 0);
    acts := [DoStart, OnCurrent(0, Some(Some(VIEW))), DoLeave, DoStop, DoStart];
    times := [0, 0, 0, 0, 0];
    ss := [INITIAL, s1, s2, s3, s4, s5];
    assert Steps(s3, DoStop, 0, s4) && Steps(s4, DoStart, 0, s5);
    assert BusyFrom(ss, 4, 5) && !ss[4].active;
    BusyIsOwedExactlyWhen(ss, acts, times, 5);
  }
}
