/**
 Progression from the player to the store: the entry a host's browser shows as current is the one its advance takes,
 once, however long the request is on its way and whatever else is committed meanwhile.
 */
module Playback {
  import opened Prelude
  import opened Rooms
  import opened Transactions
  import opened StoreLaws
  import opened Runs
  import opened Progression
  import opened Events
  import opened Session
  import opened SessionLaws
  import opened SessionRuns
  import opened Convergence

  // ---------------------------------------------------------------- the history of the store

  lemma StepLengthens(y: System, me: Account, y': System)
    requires SystemStep(y, me, y')
    ensures Longer(y.ws, y'.ws)
  {
    if StoreStep(y, y') {
      assert forall i :: 0 <= i < |y.ws| ==> y'.ws[i] == y'.ws[..|y.ws|][i];
    }
  }

  lemma {:induction false} HistoryStands(ys: seq<System>, me: Account, i: nat, n: nat)
    requires SystemRun(ys, me) && i <= n < |ys|
    ensures Longer(ys[i].ws, ys[n].ws)
    decreases n
  {
    if i < n {
      HistoryStands(ys, me, i, n - 1);
      assert SystemStep(ys[n - 1], me, ys[n]);
      StepLengthens(ys[n - 1], me, ys[n]);
    }
  }

  // ---------------------------------------------------------------- what an advance takes

  /** A step of the session that sends the call `k`, an advance of `e` for the membership `m`. */
  ghost predicate Sent(y: System, me: Account, a: Action, y': System, k: nat, m: MembershipId, e: EntryId) {
    && ClientStep(y, me, a, y') && SendsAdvance(y.session, y'.session, k, e)
    && y'.session.calls[k].epoch.membership == Some(m)
  }

  /** The transaction of such a call, as the step of the store from `p` on. */
  ghost predicate Committed(ws: seq<World>, p: nat, caller: Account, m: MembershipId, e: EntryId, clock: Clock) {
    && p + 1 < |ws| && StoreInv(ws[p].store) && Mutate(ws[p].store, caller, m, Advance(e), clock, true).reply.Ok?
    && ws[p + 1] == World(Mutate(ws[p].store, caller, m, Advance(e), clock, true).store, clock[DEADLINE])
  }

  /** One store is the other but for `e`, taken from the head of `l`. */
  ghost predicate TakenFrom(s: Store, s': Store, l: LobbyId, e: EntryId) {
    && l in s.rooms && l in s'.rooms && Taken(s.rooms[l], s'.rooms[l], e)
    && s' == s.(rooms := s.rooms[l := s'.rooms[l]])
  }

  /** The sender hosts the membership `m`, and shows the queue `q` with `e` current. */
  ghost predicate ShowsCurrent(s: Session, m: MembershipId, e: EntryId, q: QueueView) {
    && IsHost(s) && s.snap.queue == Some(q) && q.membership == m && q.current.Some? && q.current.value.id == e
  }

  /** The deferred end of `e` was waiting before the step and is used up by it. */
  predicate DeferredEnd(s: Session, t: Session, e: EntryId) {
    s.pendingEnd.Some? && s.pendingEnd.value.0 == e && t.pendingEnd.None?
  }

  lemma SentForTheCurrentEntry(ys: seq<System>, me: Account, i: nat, a: Action, k: nat, m: MembershipId, e: EntryId)
    returns (q: QueueView, j: nat)
    requires SystemRun(ys, me) && i + 1 < |ys| && Sent(ys[i], me, a, ys[i + 1], k, m, e)
    ensures ShowsCurrent(ys[i + 1].session, m, e, q)
    ensures j < |ys[i].ws| && Shows(ys[i].ws[j], me.id, q)
  {
    AdvanceIsForTheCurrentEntry(ys[i].session, a, Now(ys[i].ws), k, e);
    q := ys[i + 1].session.snap.queue.value;
    j := ShownWasTrue(ys, me, i + 1);
    ShownIsOfTheKnownLobby(ys, me, i + 1);
  }

  /**
   An advance sent at any moment and committed at any later one removes exactly the entry that was current in the view
   the host's session then showed, from the head of the lobby it showed, and changes nothing else in any lobby; and it
   was sent at the player's request or as the one use of a deferred end.
   */
  lemma AdvanceTakesWhatWasShown(ys: seq<System>, me: Account, i: nat, a: Action, k: nat, m: MembershipId, e: EntryId,
                                 n: nat, p: nat, caller: Account, clock: Clock)
    returns (q: QueueView)
    requires SystemRun(ys, me) && i < n < |ys| && Sent(ys[i], me, a, ys[i + 1], k, m, e)
    requires Now(ys[i].ws) <= p && Committed(ys[n].ws, p, caller, m, e, clock)
    ensures ShowsCurrent(ys[i + 1].session, m, e, q)
    ensures TakenFrom(ys[n].ws[p].store, ys[n].ws[p + 1].store, q.lobby, e)
    ensures ys[n].ws[p].store.rooms[q.lobby].revision >= q.revision
    ensures ys[n].ws[p].store.rooms[q.lobby].revision == q.revision && Live(ys[n].ws[p].store.rooms[q.lobby], ys[n].ws[p].now) ==>
              ys[n].ws[p].store.rooms[q.lobby].queue == q.Order()
    ensures (a.DoAdvance? && a.entry == e) || DeferredEnd(ys[i].session, ys[i + 1].session, e)
  {
    var j;
    q, j := SentForTheCurrentEntry(ys, me, i, a, k, m, e);
    AdvanceIsForTheCurrentEntry(ys[i].session, a, Now(ys[i].ws), k, e);
    var ws := ys[n].ws;
    HistoryStands(ys, me, i, n);
    SystemRunInv(ys, me, n);
    var l := AdvanceTakesItsOccurrence(ws[p].store, caller, m, e, clock);
    assert ws[j] == ys[i].ws[j];
    HomeSince(ws, j, p, m, q.lobby, l);
    ViewIsOrder(ws[j].store.rooms[l], l, me.id, m);
  }

  /** Of all later advances of that entry for that membership, by whichever request, none commits anything. */
  lemma AdvanceCommitsOnce(ys: seq<System>, me: Account, n: nat, p: nat, caller: Account, m: MembershipId, e: EntryId,
                           at: Clock,
                           r: nat, again: Account, clock: Clock, storage: bool)
    requires SystemRun(ys, me) && n < |ys| && Committed(ys[n].ws, p, caller, m, e, at)
    requires p < r < |ys[n].ws| && StoreInv(ys[n].ws[r].store)
    ensures Mutate(ys[n].ws[r].store, again, m, Advance(e), clock, storage).reply.Err?
    ensures Mutate(ys[n].ws[r].store, again, m, Advance(e), clock, storage).store == ys[n].ws[r].store
  {
    var ws := ys[n].ws;
    SystemRunInv(ys, me, n);
    var l := AdvanceTakesItsOccurrence(ws[p].store, caller, m, e, at);
    var granted := Authorize(ws[r].store, again, m, Host, clock);
    if granted.Ok? {
      assert Seated(ws[p].store, m, l) && Seated(ws[r].store, m, granted.value);
      RunInv(ws, p, p);
      assert ws[p].store.rooms[l].queue[0] == e;
      ConsumedOnce(ws, p + 1, r, l, e, again, m, clock, storage);
    }
  }

  // ---------------------------------------------------------------- deferred ends

  /** The player reports the end of the current entry while another mutation is outstanding. */
  predicate Defers(s: Session, a: Action, t: Session) {
    && a.DoAdvance? && a.natural && s.snap.busy && CurrentEntry(s) == Some(a.entry)
    && t.pendingEnd == Some((a.entry, Capture(s)))
  }

  /** No end is newly deferred. */
  predicate OnlyClears(s: Session, t: Session) {
    t.pendingEnd == s.pendingEnd || t.pendingEnd.None?
  }

  lemma SyncClears(s: Session, at: nat)
    ensures Sync(s, at).pendingEnd == s.pendingEnd
  {
  }

  lemma PassClears(s: Session, w: nat, bound: Epoch, at: nat)
    requires w in s.passes
    ensures LoopHead(s, w, at).pendingEnd == FailPass(s, w).pendingEnd == EndIteration(s, w, bound, at).pendingEnd == s.pendingEnd
  {
  }

  lemma MembershipClears(s: Session, next: Option<LobbyView>)
    ensures OnlyClears(s, SetMembership(s, next))
  {
    if !SameMembership(s, next) { ConnectClears(NewEpoch(s, next)); }
  }

  lemma ConnectClears(s: Session)
    ensures Connect(s).pendingEnd == s.pendingEnd
  {
  }

  lemma EndClears(s: Session, reason: EndReason, e: Epoch, at: nat)
    ensures OnlyClears(s, End(s, reason, e, at))
  {
    MembershipClears(s, None);
    var s1 := SetMembership(s, None);
    SyncClears(s1.(snap := s1.snap.(ended := Some(reason), loading := false)), at);
  }

  lemma PassesClear(s: Session, a: Action, at: nat)
    requires Enabled(s, a) && PassAction(a)
    ensures OnlyClears(s, Act(s, a, at))
  {
    var w := a.pass;
    var bound := if a.OnIdentity? || a.OnRead? then s.passes[w].stage.bound else Capture(s);
    PassClears(s, w, bound, at);
    match a
    case OnCurrent(_, r) => if r.Some? { MembershipClears(s, r.value); }
    case OnIdentity(_, r) => if r.Some? { PassClears(s.(snap := s.snap.(user := r.value)), w, bound, at); }
    case OnRead(_, r) =>
      if r.Got? { PassClears(ApplyQueue(s, r.view, bound), w, bound, at); }
      else { PassClears(s.(dirty := true, passes := s.passes[w := s.passes[w].(recoveries := s.passes[w].recoveries + 1)]), w, bound, at); }
    case OnFinally(_) =>
  }

  lemma EventClears(s: Session, c: nat, event: Event, at: nat)
    requires Enabled(s, OnEvent(c, event))
    ensures OnlyClears(s, StreamEvent(s, c, event, at))
  {
    SyncClears(s.(snap := s.snap.(live := true)), at);
    if event.MembershipEnded? { EndClears(s, event.reason, s.readers[c].epoch, at); }
  }

  lemma StreamClears(s: Session, c: nat, at: nat)
    requires c in s.readers
    ensures OnlyClears(s, AfterStream(s, c, at))
  {
    SyncClears(s.(snap := s.snap.(live := false)), at);
  }

  lemma ReadersClear(s: Session, a: Action, at: nat)
    requires Enabled(s, a) && ReaderAction(a)
    ensures OnlyClears(s, Act(s, a, at))
  {
    if a.OnEvent? { EventClears(s, a.reader, a.event, at); } else { StreamClears(s, a.reader, at); }
  }

  lemma ReleaseClears(s: Session, e: Epoch)
    ensures OnlyClears(s, ReleaseBusy(s, e))
  {
  }

  lemma CallsClear(s: Session, a: Action, at: nat)
    requires Enabled(s, a) && (a.OnReply? || a.OnSynced? || a.OnReturned?)
    ensures OnlyClears(s, Act(s, a, at))
  {
    var k := a.call;
    var e := s.calls[k].epoch;
    var s1 := s.(calls := s.calls - {k});
    if a.OnSynced? {
      ReleaseClears(Settle(s, k, false, s.calls[k].stage.uncertain), e);
    } else if a.OnReply? {
      SyncClears(s1.(snap := s1.snap.(error := true, busy := false)), at);
      SyncClears(s.(snap := s.snap.(error := true)), at);
      EndClears(s1, Left, e, at);
      if a.reply.Replied? { ReleaseClears(Settle(ApplyQueue(s, a.reply.view, e), k, true, false), e); }
    }
  }

  lemma OthersClear(s: Session, a: Action, at: nat)
    requires Enabled(s, a) && !PassAction(a) && !ReaderAction(a) && !a.OnReply? && !a.OnSynced? && !a.OnReturned?
    ensures OnlyClears(s, Act(s, a, at)) || Defers(s, a, Act(s, a, at))
  {
    if a.DoStart? && !s.active {
      ConnectClears(Awaken(s));
      SyncClears(Connect(Awaken(s)), at);
    }
  }

  /** An end is only deferred when the player reports it for the entry then current. */
  lemma EndsComeFromThePlayer(s: Session, a: Action, at: nat)
    requires Enabled(s, a)
    ensures OnlyClears(s, Act(s, a, at)) || Defers(s, a, Act(s, a, at))
  {
    if PassAction(a) { PassesClear(s, a, at); }
    else if ReaderAction(a) { ReadersClear(s, a, at); }
    else if a.OnReply? || a.OnSynced? || a.OnReturned? { CallsClear(s, a, at); }
    else { OthersClear(s, a, at); }
  }

  ghost predicate Deferral(y: System, me: Account, a: Action, y': System) {
    ClientStep(y, me, a, y') && Defers(y.session, a, y'.session)
  }

  ghost predicate DeferralAt(ys: seq<System>, me: Account, d: nat, a: Action) {
    d + 1 < |ys| && Deferral(ys[d], me, a, ys[d + 1])
  }

  lemma StepDefers(y: System, me: Account, y': System)
    returns (a: Action)
    requires SystemStep(y, me, y') && y'.session.pendingEnd.Some? && y.session.pendingEnd != y'.session.pendingEnd
    ensures Deferral(y, me, a, y') && a.entry == y'.session.pendingEnd.value.0
  {
    assert y.session != y'.session;
    var b :| ClientStep(y, me, b, y');
    EndsComeFromThePlayer(y.session, b, Now(y.ws));
    a := b;
  }

  lemma {:induction false} LastChange(ys: seq<System>, i: nat, n: nat)
    returns (d: nat)
    requires i < n < |ys| && ys[i].session.pendingEnd != ys[n].session.pendingEnd
    ensures i <= d < n && ys[d].session.pendingEnd != ys[d + 1].session.pendingEnd
    ensures ys[d + 1].session.pendingEnd == ys[n].session.pendingEnd
    decreases n
  {
    if ys[n - 1].session.pendingEnd == ys[n].session.pendingEnd { d := LastChange(ys, i, n - 1); } else { d := n - 1; }
  }

  lemma WaitingEndWasDeferred(ys: seq<System>, me: Account, i: nat, n: nat)
    returns (d: nat, a: Action)
    requires SystemRun(ys, me) && i < n < |ys|
    requires ys[i].session.pendingEnd.None? && ys[n].session.pendingEnd.Some?
    ensures i <= d < n && DeferralAt(ys, me, d, a) && a.entry == ys[n].session.pendingEnd.value.0
  {
    d := LastChange(ys, i, n);
    var e := d + 1;
    assert SystemStep(ys[d], me, ys[e]);
    a := StepDefers(ys[d], me, ys[e]);
  }

  /**
   At most one advance is sent for a deferred end: between two that were sent without the player asking, the player
   reported, while another mutation was outstanding, the end the second one is for.
   */
  lemma OneAdvancePerDeferredEnd(ys: seq<System>, me: Account, i: nat, a: Action, k: nat, m: MembershipId, e: EntryId,
                                 j: nat, b: Action, h: nat, o: MembershipId, f: EntryId)
    returns (d: nat, c: Action)
    requires SystemRun(ys, me) && i < j && j + 1 < |ys|
    requires Sent(ys[i], me, a, ys[i + 1], k, m, e) && !a.DoAdvance?
    requires Sent(ys[j], me, b, ys[j + 1], h, o, f) && !b.DoAdvance?
    ensures i < d < j && DeferralAt(ys, me, d, c) && c.entry == f
  {
    AdvanceIsForTheCurrentEntry(ys[i].session, a, Now(ys[i].ws), k, e);
    AdvanceIsForTheCurrentEntry(ys[j].session, b, Now(ys[j].ws), h, f);
    d, c := WaitingEndWasDeferred(ys, me, i + 1, j);
  }
}
