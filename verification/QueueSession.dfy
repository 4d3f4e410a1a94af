/**
 The mounted lobby view as the object it is: its methods assign fields one after
 another, and each leaves the object in the state its step function names.
 */
module QueueSessions {
  import opened Prelude
  import opened Rooms
  import opened Transactions
  import opened Events
  import S = Session

  class QueueSession {
    var state: S.Snap
    var active: bool
    var version: nat
    var lifetime: nat
    var connection: Option<nat>
    var dirty: bool
    var flight: Option<nat>
    var pendingEnd: Option<(EntryId, S.Epoch)>
    var passes: map<nat, S.Pass>
    var calls: map<nat, S.Call>
    var readers: map<nat, S.Reader>
    var serial: nat
    var hintAt: nat
    var covered: Option<S.Coverage>

    ghost function State(): S.Session
      reads this
    {
      S.Session(state, active, version, lifetime, connection, dirty, flight, pendingEnd,
                passes, calls, readers, serial, hintAt, covered)
    }

    constructor ()
      ensures State() == S.INITIAL
    {
      state := S.Snap(S.Unknown, None, None, false, true, false, false, false, None, None);
      active, version, lifetime, connection := false, 0, 0, None;
      dirty, flight, pendingEnd := false, None, None;
      passes, calls, readers, serial := map[], map[], map[], 0;
      hintAt, covered := 0, None;
    }

    method Capture() returns (e: S.Epoch)
      ensures e == S.Capture(State())
    {
      e := S.Epoch(version, if state.known.In? then Some(state.known.view.membership) else None);
    }

    method IsValid(e: S.Epoch) returns (ok: bool)
      ensures ok == S.Valid(State(), e)
    {
      var now := Capture();
      ok := active && e.version == version && e.membership == now.membership;
    }

    method IsHost() returns (host: bool)
      ensures host == S.IsHost(State())
    {
      host := state.user.Some? && state.known.In? && state.known.view.owner == state.user.value;
    }

    // -------------------------------------------------------------- lifetime

    method Start(at: nat)
      modifies this
      ensures State() == S.Start(old(State()), at)
    {
      if active { return; }
      active := true;
      version := version + 1;
      lifetime := lifetime + 1;
      if state.known.In? { Connect(); }
      Sync(at);
    }

    method Stop()
      modifies this
      ensures State() == S.Stop(old(State()))
    {
      active := false;
      version := version + 1;
      dirty := false;
      flight := None;
      pendingEnd := None;
      connection := None;
    }

    /** Opens a stream of the membership at hand; its reader is one more task. */
    method Connect()
      modifies this
      ensures State() == S.Connect(old(State()))
    {
      if !state.known.In? { return; }
      var e := Capture();
      connection := Some(serial);
      readers := readers[serial := S.Reader(e, false, S.Streaming)];
      serial := serial + 1;
    }

    method SetMembership(next: Option<LobbyView>)
      modifies this
      ensures State() == S.SetMembership(old(State()), next)
    {
      var known := S.KnownOf(next);
      var same := !state.known.Unknown? && S.IdOf(state.known) == S.IdOf(known);
      if same && next.Some? && next.value.revision < state.known.view.revision { return; }
      if !same {
        version := version + 1;
        connection := None;
        pendingEnd := None;
        state := state.(known := known, queue := None, live := false, attempt := None, busy := false, error := false);
        if next.Some? { Connect(); }
      } else {
        state := state.(known := known);
      }
    }

    method ApplyQueue(view: QueueView, e: S.Epoch)
      modifies this
      ensures State() == S.ApplyQueue(old(State()), view, e)
    {
      var ok := IsValid(e);
      if !ok || e.membership != Some(view.membership) { return; }
      if !state.known.In? || view.lobby != state.known.view.lobby { return; }
      if state.queue.Some? && view.revision < state.queue.value.revision { return; }
      state := state.(queue := Some(view));
    }

    // -------------------------------------------------------------- synchronization

    method Sync(at: nat)
      modifies this
      ensures State() == S.Sync(old(State()), at)
    {
      if !active { return; }
      dirty := true;
      hintAt := at;
      if flight.Some? { return; }
      var work := serial;
      serial := serial + 1;
      passes := passes[work := S.Pass(lifetime, 0, at, S.Finished)];
      flight := Some(work);
      LoopHead(work, at);
    }

    method LoopHead(w: nat, at: nat)
      requires w in passes
      modifies this
      ensures State() == S.LoopHead(old(State()), w, at)
    {
      var p := passes[w];
      if active && p.signal == lifetime && dirty {
        dirty := false;
        var e := Capture();
        passes := passes[w := p.(stage := S.AwaitCurrent(e), born := at)];
      } else {
        passes := passes[w := p.(stage := S.Finished)];
      }
    }

    method FailPass(w: nat)
      requires w in passes
      modifies this
      ensures State() == S.FailPass(old(State()), w)
    {
      if active && passes[w].signal == lifetime {
        state := state.(loading := false, syncError := true, live := false);
      }
      passes := passes[w := passes[w].(stage := S.Finished)];
    }

    method EndIteration(w: nat, bound: S.Epoch, at: nat)
      requires w in passes
      modifies this
      ensures State() == S.EndIteration(old(State()), w, bound, at)
    {
      var ok := IsValid(bound);
      if ok {
        state := state.(syncError := false, loading := false);
        covered := Some(S.Coverage(passes[w].born, version));
      }
      LoopHead(w, at);
    }

    method OnCurrent(w: nat, r: Option<Option<LobbyView>>, at: nat)
      requires w in passes && passes[w].stage.AwaitCurrent?
      modifies this
      ensures State() == S.CurrentDone(old(State()), w, r, at)
    {
      if r.None? { FailPass(w); return; }
      var ok := IsValid(passes[w].stage.epoch);
      if !ok || passes[w].signal != lifetime { LoopHead(w, at); return; }
      SetMembership(r.value);
      var bound := Capture();
      passes := passes[w := passes[w].(stage := S.AwaitIdentity(bound, r.value))];
    }

    method OnIdentity(w: nat, r: Option<Option<UserId>>, at: nat)
      requires w in passes && passes[w].stage.AwaitIdentity?
      modifies this
      ensures State() == S.IdentityDone(old(State()), w, r, at)
    {
      if r.None? { FailPass(w); return; }
      var bound, next := passes[w].stage.bound, passes[w].stage.next;
      var ok := IsValid(bound);
      if !ok || passes[w].signal != lifetime { LoopHead(w, at); return; }
      state := state.(user := r.value);
      if next.Some? {
        passes := passes[w := passes[w].(stage := S.AwaitRead(bound, next.value))];
      } else {
        EndIteration(w, bound, at);
      }
    }

    method OnRead(w: nat, r: S.ReadReply, at: nat)
      requires w in passes && passes[w].stage.AwaitRead?
      modifies this
      ensures State() == S.ReadDone(old(State()), w, r, at)
    {
      var p := passes[w];
      var bound := p.stage.bound;
      var aborted := !active || p.signal != lifetime;
      if r.Got? {
        if !aborted { ApplyQueue(r.view, bound); }
        EndIteration(w, bound, at);
        return;
      }
      var ok := IsValid(bound);
      if !ok || aborted {
        LoopHead(w, at);
      } else if r.Forbidden? && p.recoveries < 2 {
        passes := passes[w := p.(recoveries := p.recoveries + 1)];
        dirty := true;
        LoopHead(w, at);
      } else {
        FailPass(w);
      }
    }

    method OnFinally(w: nat)
      requires w in passes && passes[w].stage.Finished?
      modifies this
      ensures State() == S.Finally(old(State()), w)
    {
      if flight == Some(w) { flight := None; }
      passes := passes - {w};
    }

    // -------------------------------------------------------------- the stream reader

    method End(reason: EndReason, e: S.Epoch, at: nat)
      modifies this
      ensures State() == S.End(old(State()), reason, e, at)
    {
      var ok := IsValid(e);
      if !ok { return; }
      SetMembership(None);
      state := state.(ended := Some(reason), loading := false);
      Sync(at);
    }

    method OnEvent(c: nat, event: Event, at: nat)
      requires c in readers && readers[c].stage.Streaming?
      modifies this
      ensures State() == S.StreamEvent(old(State()), c, event, at)
    {
      var e := readers[c].epoch;
      var ok := IsValid(e);
      if !ok || connection != Some(c) { return; }
      if event.MembershipEnded? { End(event.reason, e, at); return; }
      if event.AuthExpired? {
        readers := readers[c := readers[c].(expired := true)];
        return;
      }
      state := state.(live := true);
      Sync(at);
    }

    method AfterStream(c: nat, at: nat)
      requires c in readers
      modifies this
      ensures State() == S.AfterStream(old(State()), c, at)
    {
      var ok := IsValid(readers[c].epoch);
      if !ok || connection != Some(c) {
        readers := readers[c := readers[c].(stage := S.Over)];
        return;
      }
      state := state.(live := false);
      Sync(at);
      readers := readers[c := readers[c].(stage := S.Waiting)];
    }

    method OnClosed(c: nat, clean: bool, at: nat)
      requires c in readers && readers[c].stage.Streaming?
      modifies this
      ensures State() == S.StreamClosed(old(State()), c, clean, at)
    {
      var ok := IsValid(readers[c].epoch);
      if clean && readers[c].expired && ok {
        readers := readers[c := readers[c].(stage := S.Refreshing)];
      } else {
        AfterStream(c, at);
      }
    }

    method OnTimer(c: nat)
      requires c in readers && readers[c].stage.Waiting?
      modifies this
      ensures State() == S.TimerFired(old(State()), c)
    {
      var ok := IsValid(readers[c].epoch);
      if ok && connection == Some(c) {
        readers := readers[c := S.Reader(readers[c].epoch, false, S.Streaming)];
      } else {
        readers := readers[c := readers[c].(stage := S.Over)];
      }
    }

    // -------------------------------------------------------------- mutations

    method Mutate(op: S.Operation, e: S.Epoch)
      modifies this
      ensures State() == S.StartCall(old(State()), op, e)
    {
      var ok := IsValid(e);
      if !ok || e.membership.None? || state.busy { return; }
      state := state.(busy := true, error := false);
      calls := calls[serial := S.Call(e, op, S.InFlight)];
      serial := serial + 1;
    }

    method AdvanceEntry(entry: EntryId, natural: bool, e: S.Epoch)
      modifies this
      ensures State() == S.AdvanceEntry(old(State()), entry, natural, e)
    {
      var ok := IsValid(e);
      var host := IsHost();
      if !ok || !host || state.queue.None? { return; }
      if state.queue.value.current.None? || state.queue.value.current.value.id != entry { return; }
      if state.busy && natural {
        pendingEnd := Some((entry, e));
        return;
      }
      Mutate(S.Send(Advance(entry)), e);
    }

    /** The finally block of a mutation. */
    method ReleaseBusy(e: S.Epoch)
      modifies this
      ensures State() == S.ReleaseBusy(old(State()), e)
    {
      var ok := IsValid(e);
      if !ok { return; }
      state := state.(busy := false);
      var pending := pendingEnd;
      pendingEnd := None;
      if pending.Some? && !state.syncError { AdvanceEntry(pending.value.0, true, pending.value.1); }
    }

    method Settle(k: nat, ok: bool, uncertain: bool)
      requires k in calls
      modifies this
      ensures State() == S.Settle(old(State()), k, ok, uncertain)
    {
      if calls[k].op.SendSubmission? {
        calls := calls[k := calls[k].(stage := S.Returning(ok, uncertain))];
      } else {
        calls := calls - {k};
      }
    }

    method OnLeft(k: nat, r: S.CallReply, at: nat)
      requires k in calls && calls[k].stage.InFlight? && calls[k].op.SendLeave?
      modifies this
      ensures State() == S.CallDone(old(State()), k, r, at)
    {
      var e := calls[k].epoch;
      calls := calls - {k};
      var ok := IsValid(e);
      if !ok { return; }
      if r.Refused? {
        state := state.(error := true, busy := false);
        Sync(at);
      } else {
        End(Left, e, at);
      }
    }

    method OnReply(k: nat, r: S.CallReply, at: nat)
      requires k in calls && calls[k].stage.InFlight? && !calls[k].op.SendLeave? && !r.LeftOk?
      modifies this
      ensures State() == S.CallDone(old(State()), k, r, at)
    {
      var e := calls[k].epoch;
      var ok := IsValid(e);
      if !ok { calls := calls - {k}; return; }
      if r.Refused? {
        state := state.(error := true);
        Sync(at);
        calls := calls[k := calls[k].(stage := S.Syncing(flight.value, r.uncertain))];
      } else {
        ApplyQueue(r.view, e);
        Settle(k, true, false);
        ReleaseBusy(e);
      }
    }

    method OnSynced(k: nat)
      requires k in calls && calls[k].stage.Syncing?
      modifies this
      ensures State() == S.CallSynced(old(State()), k)
    {
      var e := calls[k].epoch;
      Settle(k, false, calls[k].stage.uncertain);
      ReleaseBusy(e);
    }

    method OnReturned(k: nat)
      requires k in calls && calls[k].stage.Returning?
      modifies this
      ensures State() == S.SubmissionDone(old(State()), k)
    {
      var c := calls[k];
      calls := calls - {k};
      var valid := IsValid(c.epoch);
      if !valid { return; }
      if c.stage.ok {
        state := state.(attempt := None);
      } else if c.stage.uncertain && c.op.SendSubmission? {
        state := state.(attempt := Some(c.op.attempt), error := true);
      } else {
        state := state.(attempt := None, error := true);
      }
    }

    method RetrySubmission()
      modifies this
      ensures State() == S.RetrySubmission(old(State()))
    {
      if state.attempt.None? || state.busy { return; }
      var e := Capture();
      Mutate(S.SendSubmission(state.attempt.value), e);
    }

    method Add(attempt: S.Attempt)
      modifies this
      ensures State() == S.Add(old(State()), attempt)
    {
      if state.attempt.Some? || state.busy { return; }
      state := state.(attempt := Some(attempt));
      RetrySubmission();
    }

    method DiscardSubmission()
      modifies this
      ensures State() == S.Discard(old(State()))
    {
      if !state.busy { state := state.(attempt := None, error := false); }
    }

    /** remove, move, vote and policy: only the host moderates, only a known guest votes. */
    method Request(c: Command)
      modifies this
      ensures State() == S.Request(old(State()), c)
    {
      if c.Advance? { return; }
      var host := IsHost();
      if c.Vote? {
        if state.user.None? || host { return; }
      } else if !host {
        return;
      }
      if c.SetPolicy? && !ValidPolicy(c.policy) { return; }
      var e := Capture();
      Mutate(S.Send(c), e);
    }

    method Leave()
      modifies this
      ensures State() == S.LeaveSession(old(State()))
    {
      var e := Capture();
      if e.membership.None? || state.busy { return; }
      state := state.(busy := true, error := false);
      calls := calls[serial := S.Call(e, S.SendLeave, S.InFlight)];
      serial := serial + 1;
    }
  }
}
