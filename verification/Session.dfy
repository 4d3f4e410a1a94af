/**
 The browser's lobby session as a state machine: each function is one piece of
 its code between two awaits.  `at` is the moment of the step; `hintAt`, `born`
 and `covered` record, for the proofs only, when the last hint came, when a pass
 took up its hints, and when the last full pass had begun.
 */
module Session {
  import opened Prelude
  import opened Rooms
  import opened Transactions
  import opened Events

  /** What the session knows of its membership; Unknown until the first answer. */
  datatype Known = Unknown | NoLobby | In(view: LobbyView)

  function IdOf(k: Known): Option<MembershipId> {
    if k.In? then Some(k.view.membership) else None
  }

  function KnownOf(next: Option<LobbyView>): Known {
    if next.None? then NoLobby else In(next.value)
  }

  datatype Epoch = Epoch(version: nat, membership: Option<MembershipId>)
  datatype Attempt = Attempt(video: string, request: RequestId)

  datatype Snap = Snap(
    known: Known, queue: Option<QueueView>, user: Option<UserId>, live: bool, loading: bool,
    busy: bool, error: bool, syncError: bool, ended: Option<EndReason>, attempt: Option<Attempt>)

  datatype PassStage =
    | AwaitCurrent(epoch: Epoch)
    | AwaitIdentity(bound: Epoch, next: Option<LobbyView>)
    | AwaitRead(bound: Epoch, lobby: LobbyView)
    | Finished

  /** One run of `synchronize`, bound to the lifetime it started in. */
  datatype Pass = Pass(signal: nat, recoveries: nat, born: nat, stage: PassStage)

  datatype Operation = Send(command: Command) | SendSubmission(attempt: Attempt) | SendLeave
  datatype CallStage = InFlight | Syncing(work: nat, uncertain: bool) | Returning(ok: bool, uncertain: bool)
  datatype Call = Call(epoch: Epoch, op: Operation, stage: CallStage)

  datatype ReaderStage = Streaming | Refreshing | Waiting | Over
  datatype Reader = Reader(epoch: Epoch, expired: bool, stage: ReaderStage)

  /** A full pass: when it had begun, and the epoch it ended in. */
  datatype Coverage = Coverage(born: nat, version: nat)

  datatype Session = Session(
    snap: Snap, active: bool, version: nat, lifetime: nat, connection: Option<nat>,
    dirty: bool, flight: Option<nat>, pendingEnd: Option<(EntryId, Epoch)>,
    passes: map<nat, Pass>, calls: map<nat, Call>, readers: map<nat, Reader>, serial: nat,
    hintAt: nat, covered: Option<Coverage>)

  const INITIAL := Session(
    Snap(Unknown, None, None, false, true, false, false, false, None, None),
    false, 0, 0, None, false, None, None, map[], map[], map[], 0, 0, None)

  // ---------------------------------------------------------------- epochs

  function Capture(s: Session): Epoch {
    Epoch(s.version, IdOf(s.snap.known))
  }

  predicate Valid(s: Session, e: Epoch) {
    s.active && e.version == s.version && e.membership == IdOf(s.snap.known)
  }

  /** The lifetime's AbortSignal: stop() aborts it, start() makes another. */
  predicate Aborted(s: Session, signal: nat) {
    !s.active || signal != s.lifetime
  }

  /** A connection's AbortSignal: aborted as soon as it is no longer the current one. */
  predicate Cut(s: Session, c: nat) {
    s.connection != Some(c)
  }

  predicate IsHost(s: Session) {
    s.snap.user.Some? && s.snap.known.In? && s.snap.known.view.owner == s.snap.user.value
  }

  // ---------------------------------------------------------------- state changes

  function Connect(s: Session): Session {
    if IdOf(s.snap.known).None? then s
    else s.(connection := Some(s.serial), readers := s.readers[s.serial := Reader(Capture(s), false, Streaming)],
            serial := s.serial + 1)
  }

  predicate SameMembership(s: Session, next: Option<LobbyView>) {
    !s.snap.known.Unknown? && IdOf(s.snap.known) == IdOf(KnownOf(next))
  }

  /** Everything that belonged to the previous membership is dropped, and the epoch moves on. */
  function NewEpoch(s: Session, next: Option<LobbyView>): Session {
    s.(version := s.version + 1, connection := None, pendingEnd := None,
       snap := s.snap.(known := KnownOf(next), queue := None, live := false, attempt := None, busy := false, error := false))
  }

  function SetMembership(s: Session, next: Option<LobbyView>): Session {
    if SameMembership(s, next) then
      if next.Some? && next.value.revision < s.snap.known.view.revision then s
      else s.(snap := s.snap.(known := KnownOf(next)))
    else Connect(NewEpoch(s, next))
  }

  predicate Applies(s: Session, view: QueueView, e: Epoch) {
    && Valid(s, e) && Some(view.membership) == e.membership
    && s.snap.known.In? && view.lobby == s.snap.known.view.lobby
    && (s.snap.queue.None? || view.revision >= s.snap.queue.value.revision)
  }

  function ApplyQueue(s: Session, view: QueueView, e: Epoch): Session {
    if Applies(s, view, e) then s.(snap := s.snap.(queue := Some(view))) else s
  }

  /** The head of synchronize's loop. */
  function LoopHead(s: Session, w: nat, at: nat): Session
    requires w in s.passes
  {
    var p := s.passes[w];
    if !Aborted(s, p.signal) && s.dirty
    then s.(dirty := false, passes := s.passes[w := p.(stage := AwaitCurrent(Capture(s)), born := at)])
    else s.(passes := s.passes[w := p.(stage := Finished)])
  }

  function Sync(s: Session, at: nat): Session {
    if !s.active then s
    else
      var s1 := s.(dirty := true, hintAt := at);
      if s.flight.Some? then s1
      else LoopHead(s1.(flight := Some(s.serial), passes := s.passes[s.serial := Pass(s.lifetime, 0, at, Finished)],
                        serial := s.serial + 1), s.serial, at)
  }

  function Awaken(s: Session): Session {
    s.(active := true, version := s.version + 1, lifetime := s.lifetime + 1)
  }

  function Start(s: Session, at: nat): Session {
    if s.active then s else Sync(Connect(Awaken(s)), at)
  }

  function Stop(s: Session): Session {
    s.(active := false, version := s.version + 1, dirty := false, flight := None, pendingEnd := None, connection := None)
  }

  function End(s: Session, reason: EndReason, e: Epoch, at: nat): Session {
    if !Valid(s, e) then s
    else
      var s1 := SetMembership(s, None);
      Sync(s1.(snap := s1.snap.(ended := Some(reason), loading := false)), at)
  }

  // ---------------------------------------------------------------- synchronize, between awaits

  function SetStage(s: Session, w: nat, stage: PassStage): Session
    requires w in s.passes
  {
    s.(passes := s.passes[w := s.passes[w].(stage := stage)])
  }

  /** The catch around the loop. */
  function FailPass(s: Session, w: nat): Session
    requires w in s.passes
  {
    var s1 := if Aborted(s, s.passes[w].signal) then s
              else s.(snap := s.snap.(loading := false, syncError := true, live := false));
    SetStage(s1, w, Finished)
  }

  /** The end of a full iteration, then the loop's head again. */
  function EndIteration(s: Session, w: nat, bound: Epoch, at: nat): Session
    requires w in s.passes
  {
    var s1 := if Valid(s, bound)
              then s.(snap := s.snap.(syncError := false, loading := false),
                      covered := Some(Coverage(s.passes[w].born, s.version)))
              else s;
    LoopHead(s1, w, at)
  }

  function CurrentDone(s: Session, w: nat, r: Option<Option<LobbyView>>, at: nat): Session
    requires w in s.passes && s.passes[w].stage.AwaitCurrent?
  {
    if r.None? then FailPass(s, w)
    else if !Valid(s, s.passes[w].stage.epoch) || Aborted(s, s.passes[w].signal) then LoopHead(s, w, at)
    else
      var s1 := SetMembership(s, r.value);
      SetStage(s1, w, AwaitIdentity(Capture(s1), r.value))
  }

  function IdentityDone(s: Session, w: nat, r: Option<Option<UserId>>, at: nat): Session
    requires w in s.passes && s.passes[w].stage.AwaitIdentity?
  {
    var bound, next := s.passes[w].stage.bound, s.passes[w].stage.next;
    if r.None? then FailPass(s, w)
    else if !Valid(s, bound) || Aborted(s, s.passes[w].signal) then LoopHead(s, w, at)
    else
      var s1 := s.(snap := s.snap.(user := r.value));
      if next.Some? then SetStage(s1, w, AwaitRead(bound, next.value)) else EndIteration(s1, w, bound, at)
  }

  datatype ReadReply = Got(view: QueueView) | Forbidden | ReadFailed

  function ReadDone(s: Session, w: nat, r: ReadReply, at: nat): Session
    requires w in s.passes && s.passes[w].stage.AwaitRead?
  {
    var p := s.passes[w];
    var bound := p.stage.bound;
    if r.Got? then EndIteration(if Aborted(s, p.signal) then s else ApplyQueue(s, r.view, bound), w, bound, at)
    else if !Valid(s, bound) || Aborted(s, p.signal) then LoopHead(s, w, at)
    else if r.Forbidden? && p.recoveries < 2 then
      LoopHead(s.(dirty := true, passes := s.passes[w := p.(recoveries := p.recoveries + 1)]), w, at)
    else FailPass(s, w)
  }

  /** The `.finally` of sync(). */
  function Finally(s: Session, w: nat): Session
    requires w in s.passes && s.passes[w].stage.Finished?
  {
    s.(flight := if s.flight == Some(w) then None else s.flight, passes := s.passes - {w})
  }

  // ---------------------------------------------------------------- the event stream reader

  function StreamEvent(s: Session, c: nat, event: Event, at: nat): Session
    requires c in s.readers && s.readers[c].stage.Streaming?
  {
    if !Valid(s, s.readers[c].epoch) || Cut(s, c) then s
    else if event.MembershipEnded? then End(s, event.reason, s.readers[c].epoch, at)
    else if event.AuthExpired? then s.(readers := s.readers[c := s.readers[c].(expired := true)])
    else Sync(s.(snap := s.snap.(live := true)), at)
  }

  function SetReader(s: Session, c: nat, stage: ReaderStage): Session
    requires c in s.readers
  {
    s.(readers := s.readers[c := s.readers[c].(stage := stage)])
  }

  /** After the stream ended and any refresh: resynchronize and wait before reconnecting. */
  function AfterStream(s: Session, c: nat, at: nat): Session
    requires c in s.readers
  {
    if !Valid(s, s.readers[c].epoch) || Cut(s, c) then SetReader(s, c, Over)
    else SetReader(Sync(s.(snap := s.snap.(live := false)), at), c, Waiting)
  }

  function StreamClosed(s: Session, c: nat, clean: bool, at: nat): Session
    requires c in s.readers && s.readers[c].stage.Streaming?
  {
    if clean && s.readers[c].expired && Valid(s, s.readers[c].epoch) then SetReader(s, c, Refreshing)
    else AfterStream(s, c, at)
  }

  function RefreshDone(s: Session, c: nat, at: nat): Session
    requires c in s.readers && s.readers[c].stage.Refreshing?
  {
    AfterStream(s, c, at)
  }

  function TimerFired(s: Session, c: nat): Session
    requires c in s.readers && s.readers[c].stage.Waiting?
  {
    if Valid(s, s.readers[c].epoch) && !Cut(s, c)
    then s.(readers := s.readers[c := Reader(s.readers[c].epoch, false, Streaming)])
    else SetReader(s, c, Over)
  }

  // ---------------------------------------------------------------- mutations

  function StartCall(s: Session, op: Operation, e: Epoch): Session {
    if !Valid(s, e) || e.membership.None? || s.snap.busy then s
    else s.(snap := s.snap.(busy := true, error := false),
            calls := s.calls[s.serial := Call(e, op, InFlight)], serial := s.serial + 1)
  }

  function CurrentEntry(s: Session): Option<EntryId> {
    if s.snap.queue.Some? && s.snap.queue.value.current.Some? then Some(s.snap.queue.value.current.value.id) else None
  }

  function AdvanceEntry(s: Session, entry: EntryId, natural: bool, e: Epoch): Session {
    if !Valid(s, e) || !IsHost(s) || CurrentEntry(s) != Some(entry) then s
    else if s.snap.busy && natural then s.(pendingEnd := Some((entry, e)))
    else StartCall(s, Send(Advance(entry)), e)
  }

  /** mutate's finally block. */
  function ReleaseBusy(s: Session, e: Epoch): Session {
    if !Valid(s, e) then s
    else
      var s1 := s.(snap := s.snap.(busy := false), pendingEnd := None);
      if s.pendingEnd.Some? && !s.snap.syncError
      then AdvanceEntry(s1, s.pendingEnd.value.0, true, s.pendingEnd.value.1)
      else s1
  }

  /** A call whose mutate() is over: a submission still has its own continuation. */
  function Settle(s: Session, k: nat, ok: bool, uncertain: bool): Session
    requires k in s.calls
  {
    if s.calls[k].op.SendSubmission?
    then s.(calls := s.calls[k := s.calls[k].(stage := Returning(ok, uncertain))])
    else s.(calls := s.calls - {k})
  }

  datatype CallReply = Replied(view: QueueView) | LeftOk | Refused(uncertain: bool)

  function CallDone(s: Session, k: nat, r: CallReply, at: nat): Session
    requires k in s.calls && s.calls[k].stage.InFlight?
  {
    var e := s.calls[k].epoch;
    if s.calls[k].op.SendLeave? then
      var s1 := s.(calls := s.calls - {k});
      if !Valid(s, e) then s1
      else if r.Refused? then Sync(s1.(snap := s1.snap.(error := true, busy := false)), at)
      else End(s1, Left, e, at)
    else match r
      case Refused(uncertain) =>
        if !Valid(s, e) then s.(calls := s.calls - {k})
        else
          var s1 := Sync(s.(snap := s.snap.(error := true)), at);
          s1.(calls := s1.calls[k := s1.calls[k].(stage := Syncing(s1.flight.value, uncertain))])
      case Replied(view) =>
        if !Valid(s, e) then s.(calls := s.calls - {k})
        else ReleaseBusy(Settle(ApplyQueue(s, view, e), k, true, false), e)
      case LeftOk => s
  }

  /** The failed mutation's `await this.sync()` is over: it throws. */
  function CallSynced(s: Session, k: nat): Session
    requires k in s.calls && s.calls[k].stage.Syncing?
  {
    ReleaseBusy(Settle(s, k, false, s.calls[k].stage.uncertain), s.calls[k].epoch)
  }

  /** retrySubmission after mutate() returned or threw. */
  function SubmissionDone(s: Session, k: nat): Session
    requires k in s.calls && s.calls[k].stage.Returning?
  {
    var c := s.calls[k];
    var s1 := s.(calls := s.calls - {k});
    if !Valid(s, c.epoch) then s1
    else if c.stage.ok then s1.(snap := s1.snap.(attempt := None))
    else if c.stage.uncertain && c.op.SendSubmission? then s1.(snap := s1.snap.(attempt := Some(c.op.attempt), error := true))
    else s1.(snap := s1.snap.(attempt := None, error := true))
  }

  function RetrySubmission(s: Session): Session {
    if s.snap.attempt.None? || s.snap.busy then s
    else StartCall(s, SendSubmission(s.snap.attempt.value), Capture(s))
  }

  function Add(s: Session, attempt: Attempt): Session {
    if s.snap.attempt.Some? || s.snap.busy then s
    else RetrySubmission(s.(snap := s.snap.(attempt := Some(attempt))))
  }

  function Discard(s: Session): Session {
    if s.snap.busy then s else s.(snap := s.snap.(attempt := None, error := false))
  }

  /** remove, move, policy need the host; vote needs a known guest. */
  function Request(s: Session, c: Command): Session {
    if c.Advance? then s
    else if c.Vote? then if s.snap.user.None? || IsHost(s) then s else StartCall(s, Send(c), Capture(s))
    else if !IsHost(s) then s
    else if c.SetPolicy? && !ValidPolicy(c.policy) then s
    else StartCall(s, Send(c), Capture(s))
  }

  function LeaveSession(s: Session): Session {
    if IdOf(s.snap.known).None? || s.snap.busy then s
    else s.(snap := s.snap.(busy := true, error := false),
            calls := s.calls[s.serial := Call(Capture(s), SendLeave, InFlight)], serial := s.serial + 1)
  }

  // ---------------------------------------------------------------- all steps

  datatype Action =
    | DoStart
    | DoStop
    | OnCurrent(pass: nat, current: Option<Option<LobbyView>>)
    | OnIdentity(pass: nat, identity: Option<Option<UserId>>)
    | OnRead(pass: nat, read: ReadReply)
    | OnFinally(pass: nat)
    | OnEvent(reader: nat, event: Event)
    | OnClosed(reader: nat, clean: bool)
    | OnRefreshed(reader: nat)
    | OnTimer(reader: nat)
    | OnReply(call: nat, reply: CallReply)
    | OnSynced(call: nat)
    | OnReturned(call: nat)
    | DoRequest(command: Command)
    | DoAdvance(entry: EntryId, natural: bool)
    | DoAdd(attempt: Attempt)
    | DoRetry
    | DoDiscard
    | DoLeave

  predicate Enabled(s: Session, a: Action) {
    match a
    case OnCurrent(w, _) => w in s.passes && s.passes[w].stage.AwaitCurrent?
    case OnIdentity(w, _) => w in s.passes && s.passes[w].stage.AwaitIdentity?
    case OnRead(w, _) => w in s.passes && s.passes[w].stage.AwaitRead?
    case OnFinally(w) => w in s.passes && s.passes[w].stage.Finished?
    case OnEvent(c, _) => c in s.readers && s.readers[c].stage.Streaming?
    case OnClosed(c, _) => c in s.readers && s.readers[c].stage.Streaming?
    case OnRefreshed(c) => c in s.readers && s.readers[c].stage.Refreshing?
    case OnTimer(c) => c in s.readers && s.readers[c].stage.Waiting?
    case OnReply(k, r) =>
      && k in s.calls && s.calls[k].stage.InFlight?
      && (r.Replied? ==> !s.calls[k].op.SendLeave?) && (r.LeftOk? ==> s.calls[k].op.SendLeave?)
    case OnSynced(k) => k in s.calls && s.calls[k].stage.Syncing? && s.calls[k].stage.work !in s.passes
    case OnReturned(k) => k in s.calls && s.calls[k].stage.Returning?
    case _ => true
  }

  function Act(s: Session, a: Action, at: nat): Session
    requires Enabled(s, a)
  {
    match a
    case DoStart => Start(s, at)
    case DoStop => Stop(s)
    case OnCurrent(w, r) => CurrentDone(s, w, r, at)
    case OnIdentity(w, r) => IdentityDone(s, w, r, at)
    case OnRead(w, r) => ReadDone(s, w, r, at)
    case OnFinally(w) => Finally(s, w)
    case OnEvent(c, e) => StreamEvent(s, c, e, at)
    case OnClosed(c, clean) => StreamClosed(s, c, clean, at)
    case OnRefreshed(c) => RefreshDone(s, c, at)
    case OnTimer(c) => TimerFired(s, c)
    case OnReply(k, r) => CallDone(s, k, r, at)
    case OnSynced(k) => CallSynced(s, k)
    case OnReturned(k) => SubmissionDone(s, k)
    case DoRequest(c) => Request(s, c)
    case DoAdvance(e, natural) => AdvanceEntry(s, e, natural, Capture(s))
    case DoAdd(x) => Add(s, x)
    case DoRetry => RetrySubmission(s)
    case DoDiscard => Discard(s)
    case DoLeave => LeaveSession(s)
  }
}
