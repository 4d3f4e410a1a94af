/**
 One server connection of the lobby stream.  A step is one piece of the stream's
 code between two awaits; the two clocks (wall time in seconds, the runtime's
 instants) and what was woken on are inputs of the step.
 */
module Stream {
  import opened Prelude
  import opened Rooms
  import opened Transactions
  import opened Events

  const READ_PERIOD := 1
  const KEEPALIVE_PERIOD := 15

  /** Idle: the consumer has an event in hand and has not asked for the next one. */
  datatype Stage = Idle | Asleep | Reading | Done

  datatype Connection = Connection(
    tokenExpires: int, lobby: LobbyId, boundExpires: int,
    last: Option<int>, nextRead: int, nextKeepalive: int, ended: bool, stage: Stage)

  datatype Cause = Boundary | ReadDue | KeepaliveDue | Hint(lobby: LobbyId) | Lagged | HintsClosed
  datatype Reading = Failed | Missing | Seen(sighting: Sighting)

  datatype Input =
    | Poll(utc: int, utc2: int)
    | Wake(cause: Cause, instant: int, utc: int, utc2: int)
    | Tick(utc: int, utc2: int)
    | Answer(reading: Reading, instant: int, instant2: int, utc: int, utc2: int)

  datatype Output = Emit(event: Event) | Comment | Silent | Finish

  datatype Turn = Turn(c: Connection, out: Output)

  function Open(tokenExpires: int, lobby: LobbyId, boundExpires: int, instant: int, instant2: int): Connection {
    Connection(tokenExpires, lobby, boundExpires, None, instant, instant2 + KEEPALIVE_PERIOD, false, Idle)
  }

  /** Token expiry is looked at before the lobby's deadline. */
  function Deadline(c: Connection, utc: int): Option<Event> {
    if utc >= c.tokenExpires then Some(AuthExpired)
    else if utc >= c.boundExpires then Some(MembershipEnded(Expired))
    else None
  }

  function Say(c: Connection, e: Event): Turn {
    Turn(c.(ended := c.ended || Terminal(e), stage := Idle), Emit(e))
  }

  /** The head of the loop once there has been a first read: sleep unless a deadline has passed. */
  function Sleep(c: Connection, utc: int): Turn {
    if Deadline(c, utc).Some? then Say(c, Deadline(c, utc).value) else Turn(c.(stage := Asleep), Silent)
  }

  function Read(c: Connection, utc: int): Turn {
    if Deadline(c, utc).Some? then Say(c, Deadline(c, utc).value) else Turn(c.(stage := Reading), Silent)
  }

  predicate WantsRead(c: Connection, cause: Cause, instant: int) {
    match cause
    case Boundary => instant >= c.nextRead
    case ReadDue => true
    case KeepaliveDue => true
    case Hint(l) => l == c.lobby
    case Lagged => true
    case HintsClosed => false
  }

  function Woken(c: Connection, cause: Cause, instant: int, utc: int, utc2: int): Turn {
    if cause.HintsClosed? then Turn(c.(stage := Done), Finish)
    else if Deadline(c, utc).Some? then Say(c, Deadline(c, utc).value)
    else if WantsRead(c, cause, instant) then Turn(c.(stage := Reading), Silent)
    else Sleep(c, utc2)
  }

  function Answered(c: Connection, r: Reading, instant: int, instant2: int, utc: int, utc2: int): Turn {
    if Deadline(c, utc).Some? then Say(c, Deadline(c, utc).value)
    else if !r.Seen? then Turn(c.(stage := Done), Finish)
    else if r.sighting.closed then Say(c, MembershipEnded(Closed))
    else if !r.sighting.memberExists then Say(c, MembershipEnded(Left))
    else
      var c1 := c.(nextRead := instant + READ_PERIOD);
      if c.last.None? then Say(c1.(last := Some(r.sighting.revision)), SyncRequired(r.sighting.revision))
      else if r.sighting.revision > c.last.value then
        Say(c1.(last := Some(r.sighting.revision)), LobbyChanged(r.sighting.revision))
      else if instant2 >= c.nextKeepalive then
        Turn(c1.(nextKeepalive := instant2 + KEEPALIVE_PERIOD, stage := Idle), Comment)
      else Sleep(c1, utc2)
  }

  /** What can happen next; the timers fire no earlier than they were set for. */
  predicate Enabled(c: Connection, x: Input) {
    match x
    case Poll(utc, utc2) => c.stage.Idle? && utc <= utc2
    case Wake(cause, instant, utc, utc2) =>
      && c.stage.Asleep? && utc <= utc2
      && (cause.ReadDue? ==> instant >= c.nextRead) && (cause.KeepaliveDue? ==> instant >= c.nextKeepalive)
    case Tick(utc, utc2) => c.stage.Reading? && utc <= utc2
    case Answer(_, instant, instant2, utc, utc2) => c.stage.Reading? && utc <= utc2 && instant <= instant2
  }

  function Advance(c: Connection, x: Input): Turn
    requires Enabled(c, x)
  {
    match x
    case Poll(utc, utc2) =>
      if c.ended then Turn(c.(stage := Done), Finish)
      else if Deadline(c, utc).Some? then Say(c, Deadline(c, utc).value)
      else if c.last.None? then Read(c, utc2)
      else Turn(c.(stage := Asleep), Silent)
    case Wake(cause, instant, utc, utc2) => Woken(c, cause, instant, utc, utc2)
    case Tick(utc, utc2) => if Deadline(c, utc).None? then Turn(c, Silent) else Say(c, Deadline(c, utc2).value)
    case Answer(r, instant, instant2, utc, utc2) => Answered(c, r, instant, instant2, utc, utc2)
  }

  // ---------------------------------------------------------------- whole connections

  predicate Steps(c: Connection, x: Input, out: Output, c': Connection) {
    Enabled(c, x) && Advance(c, x) == Turn(c', out)
  }

  /** Any sequence of steps of a newly opened connection, with what each one wrote. */
  ghost predicate Streamed(cs: seq<Connection>, xs: seq<Input>, outs: seq<Output>) {
    && |cs| == |xs| + 1 && |outs| == |xs|
    && cs[0].last.None? && !cs[0].ended && cs[0].stage.Idle?
    && (forall i :: 0 <= i < |xs| ==> Steps(cs[i], xs[i], outs[i], cs[i + 1]))
  }

  predicate Carries(out: Output) {
    out.Emit? && !Terminal(out.event)
  }

  /** The read of a step that got past the deadlines and found the member still there. */
  predicate Accepts(c: Connection, x: Input) {
    && x.Answer? && x.reading.Seen? && Deadline(c, x.utc).None?
    && !x.reading.sighting.closed && x.reading.sighting.memberExists
  }

  predicate Over(c: Connection) {
    c.ended && (c.stage.Idle? || c.stage.Done?)
  }

  /** `last` is what was last emitted, a step emits a revision only if it is newer, and the end is the end. */
  predicate StepOk(c: Connection, x: Input, out: Output, c': Connection) {
    && (Carries(out) ==>
          && Accepts(c, x) && out.event.revision == x.reading.sighting.revision && c'.last == Some(out.event.revision)
          && (out.event.SyncRequired? <==> c.last.None?)
          && (c.last.Some? ==> out.event.revision > c.last.value))
    && (!Carries(out) ==> c'.last == c.last)
    && (Accepts(c, x) ==> c'.last.Some? && c'.last.value >= x.reading.sighting.revision
                          && (c'.last.value == x.reading.sighting.revision || c'.last == c.last))
    && (out.Emit? && Terminal(out.event) ==> Over(c'))
    && (Over(c) ==> out == Finish && Over(c'))
    && (out == Finish ==> c'.stage.Done?)
  }

  lemma StepIsOk(c: Connection, x: Input, out: Output, c': Connection)
    requires Steps(c, x, out, c')
    ensures StepOk(c, x, out, c')
  {
  }

  lemma StepAt(cs: seq<Connection>, xs: seq<Input>, outs: seq<Output>, i: nat)
    requires Streamed(cs, xs, outs) && i < |outs|
    ensures StepOk(cs[i], xs[i], outs[i], cs[i + 1])
  {
    assert Steps(cs[i], xs[i], outs[i], cs[i + 1]);
    StepIsOk(cs[i], xs[i], outs[i], cs[i + 1]);
  }

  lemma LastStep(cs: seq<Connection>, xs: seq<Input>, outs: seq<Output>, i: nat)
    requires Streamed(cs, xs, outs) && i < |outs|
    ensures cs[i].last.Some? ==> cs[i + 1].last.Some? && cs[i + 1].last.value >= cs[i].last.value
    ensures Carries(outs[i]) ==> cs[i + 1].last == Some(outs[i].event.revision)
  {
    StepAt(cs, xs, outs, i);
  }

  lemma {:induction false} LastNeverFalls(cs: seq<Connection>, xs: seq<Input>, outs: seq<Output>, i: nat, j: nat)
    requires Streamed(cs, xs, outs) && i < j <= |outs| && Carries(outs[i])
    ensures cs[j].last.Some? && cs[j].last.value >= outs[i].event.revision
    decreases j
  {
    LastStep(cs, xs, outs, j - 1);
    if i < j - 1 { LastNeverFalls(cs, xs, outs, i, j - 1); }
  }

  /** The first revision event of a connection is `sync_required`; every later one carries a larger revision. */
  lemma RevisionsRise(cs: seq<Connection>, xs: seq<Input>, outs: seq<Output>, i: nat, j: nat)
    requires Streamed(cs, xs, outs) && i < j < |outs| && Carries(outs[i]) && Carries(outs[j])
    ensures outs[j].event.LobbyChanged? && outs[j].event.revision > outs[i].event.revision
  {
    LastNeverFalls(cs, xs, outs, i, j);
    StepAt(cs, xs, outs, j);
  }

  lemma {:induction false} SilentUntilFirst(cs: seq<Connection>, xs: seq<Input>, outs: seq<Output>, j: nat)
    requires Streamed(cs, xs, outs) && j <= |outs| && forall i :: 0 <= i < j ==> !Carries(outs[i])
    ensures cs[j].last.None?
    ensures j < |outs| && Carries(outs[j]) ==> outs[j].event.SyncRequired?
  {
    if j > 0 {
      SilentUntilFirst(cs, xs, outs, j - 1);
      StepAt(cs, xs, outs, j - 1);
    }
    if j < |outs| {
      StepAt(cs, xs, outs, j);
    }
  }

  /** Whatever the hints said, an emitted revision is one the store answered in that very step. */
  lemma EmitsWhatItRead(cs: seq<Connection>, xs: seq<Input>, outs: seq<Output>, i: nat)
    requires Streamed(cs, xs, outs) && i < |outs| && Carries(outs[i])
    ensures xs[i].Answer? && xs[i].reading.Seen? && outs[i].event.revision == xs[i].reading.sighting.revision
    ensures !xs[i].reading.sighting.closed && xs[i].reading.sighting.memberExists
  {
    StepAt(cs, xs, outs, i);
  }

  lemma {:induction false} OverStays(cs: seq<Connection>, xs: seq<Input>, outs: seq<Output>, k: nat, j: nat)
    requires Streamed(cs, xs, outs) && k <= j <= |outs| && Over(cs[k])
    ensures Over(cs[j])
    decreases j
  {
    if k < j {
      OverStays(cs, xs, outs, k, j - 1);
      StepAt(cs, xs, outs, j - 1);
    }
  }

  /** Nothing is written after a terminal event but the end of the stream. */
  lemma NothingAfterTheEnd(cs: seq<Connection>, xs: seq<Input>, outs: seq<Output>, i: nat, j: nat)
    requires Streamed(cs, xs, outs) && i < j <= |outs| && outs[i].Emit? && Terminal(outs[i].event)
    ensures Over(cs[j]) && (j < |outs| ==> outs[j] == Finish)
  {
    StepAt(cs, xs, outs, i);
    OverStays(cs, xs, outs, i + 1, j);
    if j < |outs| { StepAt(cs, xs, outs, j); }
  }

  // ---------------------------------------------------------------- why a connection ends, and when it reads

  /** The read answered and neither the token nor the lobby had run out by then. */
  predicate ReadInTime(c: Connection, x: Input) {
    x.Answer? && x.reading.Seen? && x.utc < c.tokenExpires && x.utc < c.boundExpires
  }

  /** A terminal event is only written for its own reason, as the step found it. */
  lemma EndsOnlyForItsReason(c: Connection, x: Input)
    requires Enabled(c, x)
    ensures
      var out := Advance(c, x).out;
      && (out == Emit(AuthExpired) ==> c.tokenExpires <= x.utc || c.tokenExpires <= x.utc2)
      && (out == Emit(MembershipEnded(Expired)) ==>
            (c.boundExpires <= x.utc < c.tokenExpires) || (c.boundExpires <= x.utc2 < c.tokenExpires))
      && (out == Emit(MembershipEnded(Closed)) ==> ReadInTime(c, x) && x.reading.sighting.closed)
      && (out == Emit(MembershipEnded(Left)) ==>
            ReadInTime(c, x) && !x.reading.sighting.closed && !x.reading.sighting.memberExists)
  {
  }

  /** And it is always written for that reason: by a read of a closed lobby, or of an open one without the member. */
  lemma ReadsEndForTheirReason(c: Connection, x: Input)
    requires Enabled(c, x) && ReadInTime(c, x)
    ensures x.reading.sighting.closed ==> Advance(c, x).out == Emit(MembershipEnded(Closed))
    ensures !x.reading.sighting.closed && !x.reading.sighting.memberExists ==> Advance(c, x).out == Emit(MembershipEnded(Left))
    ensures !x.reading.sighting.closed && x.reading.sighting.memberExists ==>
              Carries(Advance(c, x).out) || Advance(c, x).out == Comment || Advance(c, x).out == Silent
              || (x.utc2 >= c.tokenExpires && Advance(c, x).out == Emit(AuthExpired))
              || (x.utc2 >= c.boundExpires && Advance(c, x).out == Emit(MembershipEnded(Expired)))
  {
  }

  /** A passed deadline ends every connection that is not over, whatever woke it, the token's before the lobby's. */
  lemma DeadlinesEnd(c: Connection, x: Input)
    requires Enabled(c, x) && !(x.Poll? && c.ended) && !(x.Wake? && x.cause.HintsClosed?)
    ensures c.tokenExpires <= x.utc ==> Advance(c, x).out == Emit(AuthExpired)
    ensures x.utc2 < c.tokenExpires && c.boundExpires <= x.utc ==> Advance(c, x).out == Emit(MembershipEnded(Expired))
  {
  }

  /** A failed read, a lobby that is gone and a closed hint channel end the connection without an event. */
  lemma FailuresJustEnd(c: Connection, x: Input)
    requires Enabled(c, x)
    ensures x.Wake? && x.cause.HintsClosed? ==> Advance(c, x) == Turn(c.(stage := Done), Finish)
    ensures x.Answer? && !x.reading.Seen? && x.utc < c.tokenExpires && x.utc < c.boundExpires ==>
              Advance(c, x) == Turn(c.(stage := Done), Finish)
    ensures Advance(c, x).out == Finish ==>
              (x.Wake? && x.cause.HintsClosed?) || (x.Answer? && !x.reading.Seen?) || (x.Poll? && c.ended)
  {
  }

  /** What sends a connection to read: its own lobby's hint, a lag, either timer, or its boundary once a read is due. */
  predicate ReadIsCalledFor(c: Connection, cause: Cause, instant: int) {
    cause == Hint(c.lobby) || cause.Lagged? || cause.ReadDue? || cause.KeepaliveDue? || (cause.Boundary? && c.nextRead <= instant)
  }

  /** With both deadlines ahead a wake-up reads exactly when it is called for, and the first poll reads at once. */
  lemma ReadsExactlyWhenCalledFor(c: Connection, x: Input)
    requires Enabled(c, x) && (x.Poll? || x.Wake?) && x.utc2 < c.tokenExpires && x.utc2 < c.boundExpires
    ensures x.Wake? ==> (Advance(c, x).c.stage.Reading? <==> ReadIsCalledFor(c, x.cause, x.instant))
    ensures x.Wake? && !x.cause.HintsClosed? && !ReadIsCalledFor(c, x.cause, x.instant) ==> Advance(c, x) == Turn(c, Silent)
    ensures x.Poll? && !c.ended ==> (Advance(c, x).c.stage.Reading? <==> c.last.None?)
  {
  }

  /** An accepted read sets the next one a second later; a comment is written only when nothing is new and it is due. */
  lemma ReadsSetTheTimers(c: Connection, x: Input)
    requires Enabled(c, x) && Accepts(c, x)
    ensures
      var turn := Advance(c, x);
      && turn.c.nextRead == x.instant + 1
      && (turn.out == Comment <==>
            c.last.Some? && x.reading.sighting.revision <= c.last.value && c.nextKeepalive <= x.instant2)
      && turn.c.nextKeepalive == (if turn.out == Comment then x.instant2 + 15 else c.nextKeepalive)
  {
  }

  lemma TimersStand(c: Connection, x: Input)
    requires Enabled(c, x) && !Accepts(c, x)
    ensures Advance(c, x).out != Comment
    ensures Advance(c, x).c.nextRead == c.nextRead && Advance(c, x).c.nextKeepalive == c.nextKeepalive
  {
  }

  lemma {:induction false} KeepaliveMovesOn(cs: seq<Connection>, xs: seq<Input>, outs: seq<Output>, i: nat, j: nat)
    requires Streamed(cs, xs, outs) && i <= j <= |xs|
    ensures cs[i].nextKeepalive <= cs[j].nextKeepalive
    decreases j
  {
    if i < j {
      KeepaliveMovesOn(cs, xs, outs, i, j - 1);
      assert Steps(cs[j - 1], xs[j - 1], outs[j - 1], cs[j]);
      if Accepts(cs[j - 1], xs[j - 1]) { ReadsSetTheTimers(cs[j - 1], xs[j - 1]); } else { TimersStand(cs[j - 1], xs[j - 1]); }
    }
  }

  /** Two comments of a connection are at least fifteen seconds apart. */
  lemma CommentsAreSpaced(cs: seq<Connection>, xs: seq<Input>, outs: seq<Output>, i: nat, j: nat)
    requires Streamed(cs, xs, outs) && i < j < |xs| && outs[i] == Comment && outs[j] == Comment
    ensures xs[i].Answer? && xs[j].Answer? && xs[i].instant2 + 15 <= xs[j].instant2
  {
    assert Steps(cs[i], xs[i], outs[i], cs[i + 1]) && Steps(cs[j], xs[j], outs[j], cs[j + 1]);
    if !Accepts(cs[i], xs[i]) { TimersStand(cs[i], xs[i]); }
    if !Accepts(cs[j], xs[j]) { TimersStand(cs[j], xs[j]); }
    ReadsSetTheTimers(cs[i], xs[i]);
    ReadsSetTheTimers(cs[j], xs[j]);
    KeepaliveMovesOn(cs, xs, outs, i + 1, j);
  }

  /** A connection may read as soon as it is opened, and its first comment comes no sooner than fifteen seconds later. */
  lemma FirstCommentWaits(cs: seq<Connection>, xs: seq<Input>, outs: seq<Output>, instant: int, instant2: int, i: nat)
    requires Streamed(cs, xs, outs) && cs[0] == Open(cs[0].tokenExpires, cs[0].lobby, cs[0].boundExpires, instant, instant2)
    requires i < |xs|
    ensures cs[0].nextRead == instant
    ensures outs[i] == Comment ==> xs[i].Answer? && instant2 + 15 <= xs[i].instant2
  {
    if outs[i] == Comment {
      assert Steps(cs[i], xs[i], outs[i], cs[i + 1]);
      if !Accepts(cs[i], xs[i]) { TimersStand(cs[i], xs[i]); }
      ReadsSetTheTimers(cs[i], xs[i]);
      KeepaliveMovesOn(cs, xs, outs, 0, i);
    }
  }
}

/** The connection as the object whose fields the stream's loop updates. */
module StreamConnections {
  import opened Prelude
  import opened Rooms
  import opened Transactions
  import opened Events
  import Stream

  class StreamConnection {
    const tokenExpires: int
    const lobby: LobbyId
    const boundExpires: int
    var lastRevision: Option<int>
    var nextRead: int
    var nextKeepalive: int
    var ended: bool
    var stage: Stream.Stage

    ghost function State(): Stream.Connection
      reads this
    {
      Stream.Connection(tokenExpires, lobby, boundExpires, lastRevision, nextRead, nextKeepalive, ended, stage)
    }

    constructor (tokenExpires: int, lobby: LobbyId, boundExpires: int, instant: int, instant2: int)
      ensures State() == Stream.Open(tokenExpires, lobby, boundExpires, instant, instant2)
    {
      this.tokenExpires, this.lobby, this.boundExpires := tokenExpires, lobby, boundExpires;
      lastRevision, nextRead, nextKeepalive := None, instant, instant2 + Stream.KEEPALIVE_PERIOD;
      ended, stage := false, Stream.Idle;
    }

    /** Ends the stream with the deadline that has passed, if one has. */
    method Terminate(utc: int) returns (e: Option<Event>)
      modifies this
      ensures e == Stream.Deadline(old(State()), utc)
      ensures State() == if e.Some? then Stream.Say(old(State()), e.value).c else old(State())
    {
      if utc >= tokenExpires {
        e := Some(AuthExpired);
      } else if utc >= boundExpires {
        e := Some(MembershipEnded(Expired));
      } else {
        e := None;
      }
      if e.Some? {
        ended := true;
        stage := Stream.Idle;
      }
    }

    method Poll(utc: int, utc2: int) returns (out: Stream.Output)
      requires Stream.Enabled(State(), Stream.Poll(utc, utc2))
      modifies this
      ensures Stream.Advance(old(State()), Stream.Poll(utc, utc2)) == Stream.Turn(State(), out)
    {
      if ended {
        stage := Stream.Done;
        return Stream.Finish;
      }
      var e := Terminate(utc);
      if e.Some? { return Stream.Emit(e.value); }
      if lastRevision.Some? {
        stage := Stream.Asleep;
        return Stream.Silent;
      }
      e := Terminate(utc2);
      if e.Some? { return Stream.Emit(e.value); }
      stage := Stream.Reading;
      return Stream.Silent;
    }

    method Wake(cause: Stream.Cause, instant: int, utc: int, utc2: int) returns (out: Stream.Output)
      requires Stream.Enabled(State(), Stream.Wake(cause, instant, utc, utc2))
      modifies this
      ensures Stream.Advance(old(State()), Stream.Wake(cause, instant, utc, utc2)) == Stream.Turn(State(), out)
    {
      var read := true;
      match cause {
        case Boundary => read := instant >= nextRead;
        case Hint(l) => read := l == lobby;
        case HintsClosed =>
          stage := Stream.Done;
          return Stream.Finish;
        case ReadDue =>
        case KeepaliveDue =>
        case Lagged =>
      }
      var e := Terminate(utc);
      if e.Some? { return Stream.Emit(e.value); }
      if read {
        stage := Stream.Reading;
        return Stream.Silent;
      }
      e := Terminate(utc2);
      if e.Some? { return Stream.Emit(e.value); }
      return Stream.Silent;
    }

    /** A second passes while a read is under way: a deadline cuts the read off. */
    method Tick(utc: int, utc2: int) returns (out: Stream.Output)
      requires Stream.Enabled(State(), Stream.Tick(utc, utc2))
      modifies this
      ensures Stream.Advance(old(State()), Stream.Tick(utc, utc2)) == Stream.Turn(State(), out)
    {
      if utc < tokenExpires && utc < boundExpires { return Stream.Silent; }
      var e := Terminate(utc2);
      out := Stream.Emit(e.value);
    }

    method Answer(r: Stream.Reading, instant: int, instant2: int, utc: int, utc2: int) returns (out: Stream.Output)
      requires Stream.Enabled(State(), Stream.Answer(r, instant, instant2, utc, utc2))
      modifies this
      ensures Stream.Advance(old(State()), Stream.Answer(r, instant, instant2, utc, utc2)) == Stream.Turn(State(), out)
    {
      var e := Terminate(utc);
      if e.Some? { return Stream.Emit(e.value); }
      if !r.Seen? {
        stage := Stream.Done;
        return Stream.Finish;
      }
      var seen := r.sighting;
      if seen.closed || !seen.memberExists {
        ended := true;
        stage := Stream.Idle;
        return Stream.Emit(MembershipEnded(if seen.closed then Closed else Left));
      }
      nextRead := instant + Stream.READ_PERIOD;
      var initial := lastRevision.None?;
      if initial || seen.revision > lastRevision.value {
        lastRevision := Some(seen.revision);
        stage := Stream.Idle;
        return Stream.Emit(if initial then SyncRequired(seen.revision) else LobbyChanged(seen.revision));
      }
      if instant2 >= nextKeepalive {
        nextKeepalive := instant2 + Stream.KEEPALIVE_PERIOD;
        stage := Stream.Idle;
        return Stream.Comment;
      }
      e := Terminate(utc2);
      if e.Some? { return Stream.Emit(e.value); }
      stage := Stream.Asleep;
      return Stream.Silent;
    }
  }
}
