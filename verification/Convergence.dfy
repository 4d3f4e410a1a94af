/**
 The store, a browser session and its streams together: any interleaving of
 committed transactions, client steps and server stream steps, with arbitrary
 delays, lost hints, failures and stale answers.
 */
module Convergence {
  import opened Prelude
  import opened Ordering
  import opened Rooms
  import opened Transactions
  import opened StoreLaws
  import opened Runs
  import opened Events
  import Stream
  import opened Session
  import opened SessionLaws
  import opened SessionRuns
  import opened SessionEffects

  /**
   A reader's connection: the server's end and the events on the way, and for the proofs when the read under way began,
   the moment the last accepted read saw, and the moment the read behind `last` saw.
   */
  datatype Link = Link(conn: Stream.Connection, membership: MembershipId, begun: nat, seenAt: nat, readAt: nat,
                       channel: seq<Event>)

  /** `ws` is every state the store has had; the last one is the present. */
  datatype System = System(ws: seq<World>, session: Session, links: map<nat, Link>)

  function Now(ws: seq<World>): nat
    requires ws != []
  {
    |ws| - 1
  }

  // ---------------------------------------------------------------- what the server answers

  /** A view of the caller's lobby in a store that existed. */
  ghost predicate Shows(w: World, me: UserId, v: QueueView) {
    && StoreInv(w.store) && Seated(w.store, v.membership, v.lobby) && w.store.rooms[v.lobby].closedAt.None?
    && v == Snapshot(w.store.rooms[v.lobby], v.lobby, me, v.membership)
  }

  ghost predicate AnswersCurrent(w: World, me: Account, r: Option<LobbyView>) {
    StoreInv(w.store) && exists asked, answered :: Current(w.store, me.id, asked, answered, true) == Ok(r)
  }

  ghost predicate AnswersRead(w: World, me: Account, m: MembershipId, v: QueueView) {
    StoreInv(w.store) && exists clock: Clock :: ReadQueue(w.store, me, m, clock, true) == Ok(v)
  }

  ghost predicate AnswersSend(w: World, w': World, me: Account, m: MembershipId, c: Command, v: QueueView) {
    && StoreInv(w.store) && WellTyped(c)
    && exists clock: Clock ::
         Mutate(w.store, me, m, c, clock, true).reply.Ok? && Mutate(w.store, me, m, c, clock, true).reply.value.view == v
         && w' == World(Mutate(w.store, me, m, c, clock, true).store, clock[DEADLINE])
  }

  ghost predicate AnswersInsertion(w: World, w': World, me: Account, m: MembershipId, request: RequestId, v: QueueView) {
    && StoreInv(w.store)
    && exists video: Video, supply: Supply, clock: Clock ::
         var tx := Submit(w.store, me, m, request, video, supply, clock, true);
         tx.reply.Ok? && tx.reply.value.view == v && w' == World(tx.store, clock[DEADLINE])
  }

  ghost predicate AnswersReceipt(w: World, me: Account, m: MembershipId, a: Attempt, v: QueueView) {
    && StoreInv(w.store)
    && exists clock: Clock ::
         var r := ReadReceipt(w.store, me, m, a.request, a.video, clock, true);
         r.Ok? && r.value.Some? && r.value.value.view == v
  }

  /** The reply of a call: what its own transaction, ending in `w'`, answered. */
  ghost predicate AnswersCall(w: World, w': World, me: Account, c: Call, v: QueueView) {
    && c.epoch.membership.Some?
    && (c.op.Send? ==> AnswersSend(w, w', me, c.epoch.membership.value, c.op.command, v))
    && (c.op.SendSubmission? ==>
          || AnswersInsertion(w, w', me, c.epoch.membership.value, c.op.attempt.request, v)
          || AnswersReceipt(w', me, c.epoch.membership.value, c.op.attempt, v))
    && !c.op.SendLeave?
  }

  lemma CurrentSeats(w: World, me: Account, r: Option<LobbyView>)
    requires AnswersCurrent(w, me, r) && r.Some?
    ensures Seated(w.store, r.value.membership, r.value.lobby)
  {
    var asked, answered :| Current(w.store, me.id, asked, answered, true) == Ok(r);
  }

  lemma ReadShows(w: World, me: Account, m: MembershipId, v: QueueView)
    requires AnswersRead(w, me, m, v)
    ensures Shows(w, me.id, v) && v.membership == m
  {
    var clock: Clock :| ReadQueue(w.store, me, m, clock, true) == Ok(v);
  }

  lemma MutationShows(s: Store, now: int, me: Account, m: MembershipId, c: Command, clock: Clock)
    requires StoreInv(s) && WellTyped(c) && Mutate(s, me, m, c, clock, true).reply.Ok?
    requires StoreInv(Mutate(s, me, m, c, clock, true).store)
    ensures
      var tx := Mutate(s, me, m, c, clock, true);
      Shows(World(tx.store, now), me.id, tx.reply.value.view) && tx.reply.value.view.membership == m
  {
    var l := Authorize(s, me, m, Needs(c), clock).value;
    EditMaySound(s.rooms[l], me.id, c, clock[WRITE]);
  }

  lemma SendShows(w: World, w': World, me: Account, m: MembershipId, c: Command, v: QueueView)
    requires AnswersSend(w, w', me, m, c, v) && StoreInv(w'.store)
    ensures Shows(w', me.id, v) && v.membership == m
  {
    var clock: Clock :|
      Mutate(w.store, me, m, c, clock, true).reply.Ok? && Mutate(w.store, me, m, c, clock, true).reply.value.view == v
      && w' == World(Mutate(w.store, me, m, c, clock, true).store, clock[DEADLINE]);
    MutationShows(w.store, clock[DEADLINE], me, m, c, clock);
  }

  lemma InsertionShows(w: World, w': World, me: Account, m: MembershipId, request: RequestId, v: QueueView)
    requires AnswersInsertion(w, w', me, m, request, v) && StoreInv(w'.store)
    ensures Shows(w', me.id, v) && v.membership == m
  {
    var video: Video, supply: Supply, clock: Clock :|
      var tx := Submit(w.store, me, m, request, video, supply, clock, true);
      tx.reply.Ok? && tx.reply.value.view == v && w' == World(tx.store, clock[DEADLINE]);
  }

  lemma ReceiptShows(w: World, me: Account, m: MembershipId, a: Attempt, v: QueueView)
    requires AnswersReceipt(w, me, m, a, v)
    ensures Shows(w, me.id, v) && v.membership == m
  {
    var clock: Clock :|
      var r := ReadReceipt(w.store, me, m, a.request, a.video, clock, true);
      r.Ok? && r.value.Some? && r.value.value.view == v;
  }

  lemma CallShows(w: World, w': World, me: Account, c: Call, v: QueueView)
    requires AnswersCall(w, w', me, c, v) && StoreInv(w'.store)
    ensures Shows(w', me.id, v) && Some(v.membership) == c.epoch.membership
  {
    var m := c.epoch.membership.value;
    if c.op.Send? {
      SendShows(w, w', me, m, c.op.command, v);
    } else if AnswersInsertion(w, w', me, m, c.op.attempt.request, v) {
      InsertionShows(w, w', me, m, c.op.attempt.request, v);
    } else {
      ReceiptShows(w', me, m, c.op.attempt, v);
    }
  }

  // ---------------------------------------------------------------- steps of the system

  /** What a client completion brings is what the server answered at some moment since the request was sent. */
  ghost predicate Served(ws: seq<World>, me: Account, s: Session, a: Action)
    requires ws != [] && Enabled(s, a)
  {
    && (a.OnCurrent? && a.current.Some? ==>
          exists i :: s.passes[a.pass].born <= i < |ws| && AnswersCurrent(ws[i], me, a.current.value))
    && (a.OnRead? && a.read.Got? ==>
          exists i :: s.passes[a.pass].born <= i < |ws|
                      && AnswersRead(ws[i], me, s.passes[a.pass].stage.lobby.membership, a.read.view))
    && (a.OnReply? && a.reply.Replied? ==>
          exists i, j :: 0 <= i && j == i + 1 && j < |ws| && AnswersCall(ws[i], ws[j], me, s.calls[a.call], a.reply.view))
  }

  /** An event is delivered in order; closing a stream drops what is still on the way. */
  predicate Delivered(links: map<nat, Link>, a: Action, links': map<nat, Link>) {
    if a.OnEvent? then
      && a.reader in links && links[a.reader].channel != [] && links[a.reader].channel[0] == a.event
      && links' == links[a.reader := links[a.reader].(channel := links[a.reader].channel[1..])]
    else if a.OnClosed? then links' == links - {a.reader}
    else links' == links
  }

  ghost predicate ClientStep(y: System, me: Account, a: Action, y': System) {
    && y.ws != [] && y'.ws == y.ws && Enabled(y.session, a) && Served(y.ws, me, y.session, a)
    && y'.session == Act(y.session, a, Now(y.ws)) && Delivered(y.links, a, y'.links)
  }

  ghost predicate StoreStep(y: System, y': System) {
    && y.ws != [] && |y'.ws| == |y.ws| + 1 && y'.ws[..|y.ws|] == y.ws && Next(y.ws[Now(y.ws)], y'.ws[|y.ws|])
    && y'.session == y.session && y'.links == y.links
  }

  /** The server opens a stream for a reader that is waiting for one. */
  ghost predicate OpenStep(y: System, c: nat, link: Link, y': System) {
    && c in y.session.readers && y.session.readers[c].stage.Streaming? && c !in y.links
    && y.session.readers[c].epoch.membership == Some(link.membership)
    && link.conn.last.None? && !link.conn.ended && link.conn.stage.Idle?
    && link.begun == link.seenAt == 0 && link.channel == []
    && y' == y.(links := y.links[c := link])
  }

  /** A stream reads the lobby it is bound to, in some state the store has had since the read began. */
  ghost predicate Sighted(ws: seq<World>, me: Account, link: Link, x: Stream.Input, i: nat) {
    x.Answer? && x.reading.Seen? ==>
      link.begun <= i < |ws| && Observe(ws[i].store, me.id, link.membership, link.conn.lobby) == Some(x.reading.sighting)
  }

  function Pushed(link: Link, x: Stream.Input, i: nat, now: nat): Link
    requires Stream.Enabled(link.conn, x)
  {
    var turn := Stream.Advance(link.conn, x);
    Link(turn.c, link.membership,
         if turn.c.stage.Reading? && !link.conn.stage.Reading? then now else link.begun,
         if Stream.Accepts(link.conn, x) then i else link.seenAt,
         if Stream.Carries(turn.out) then i else link.readAt,
         if turn.out.Emit? then link.channel + [turn.out.event] else link.channel)
  }

  ghost predicate StreamStep(y: System, me: Account, c: nat, x: Stream.Input, i: nat, y': System) {
    && y.ws != [] && c in y.links && Stream.Enabled(y.links[c].conn, x) && Sighted(y.ws, me, y.links[c], x, i)
    && y' == y.(links := y.links[c := Pushed(y.links[c], x, i, Now(y.ws))])
  }

  ghost predicate SystemStep(y: System, me: Account, y': System) {
    || StoreStep(y, y')
    || (exists a :: ClientStep(y, me, a, y'))
    || (exists c, link :: OpenStep(y, c, link, y'))
    || (exists c, x, i :: StreamStep(y, me, c, x, i, y'))
  }

  // ---------------------------------------------------------------- the invariant

  /** Membership ids are random: over the run, none names a seat in two lobbies. */
  ghost predicate OneHome(ws: seq<World>) {
    forall i, j, m, k, l :: 0 <= i < |ws| && 0 <= j < |ws| && Seated(ws[i].store, m, k) && Seated(ws[j].store, m, l) ==>
      k == l && ws[i].store.rooms[k].expiresAt == ws[j].store.rooms[l].expiresAt
  }

  ghost predicate Housed(ws: seq<World>, m: MembershipId, l: LobbyId) {
    exists i :: 0 <= i < |ws| && Seated(ws[i].store, m, l)
  }

  ghost predicate KnownOk(ws: seq<World>, k: Known) {
    k.In? ==> Housed(ws, k.view.membership, k.view.lobby)
  }

  /** What the session shows is a view of a store that existed. */
  ghost predicate Honest(ws: seq<World>, me: UserId, q: Option<QueueView>) {
    q.Some? ==> exists i :: 0 <= i < |ws| && Shows(ws[i], me, q.value)
  }

  /** The lobby of `m` had, at some moment from `born` on, no newer revision than this. */
  ghost predicate SeenSince(ws: seq<World>, born: nat, m: MembershipId, revision: int) {
    exists i, l :: born <= i < |ws| && Seated(ws[i].store, m, l) && ws[i].store.rooms[l].revision <= revision
  }

  ghost predicate CoverOk(ws: seq<World>, s: Session) {
    s.covered.Some? && s.covered.value.version == s.version && s.snap.known.In? ==>
      s.snap.queue.Some? && SeenSince(ws, s.covered.value.born, s.snap.known.view.membership, s.snap.queue.value.revision)
  }

  predicate Drained(channel: seq<Event>) {
    forall e :: e in channel ==> Terminal(e)
  }

  /** `last` was read at `readAt`; once its event is out of the channel it has been taken as a hint. */
  ghost predicate LinkOk(ws: seq<World>, s: Session, c: nat, link: Link) {
    && c < s.serial && c in s.readers && s.readers[c].epoch.membership == Some(link.membership)
    && (link.conn.last.Some? ==>
          && link.readAt < |ws| && Seated(ws[link.readAt].store, link.membership, link.conn.lobby)
          && ws[link.readAt].store.rooms[link.conn.lobby].revision == link.conn.last.value
          && (s.connection == Some(c) && Drained(link.channel) ==> link.readAt <= s.hintAt))
  }

  /** What a read saw of the membership's lobby. */
  ghost predicate Saw(w: World, me: UserId, link: Link, revision: int) {
    var seen := Observe(w.store, me, link.membership, link.conn.lobby);
    seen.Some? && seen.value.memberExists && seen.value.revision == revision
  }

  /** Reads are made one after another, and what was last read is what was last written. */
  ghost predicate Timely(ws: seq<World>, me: UserId, link: Link) {
    && link.begun < |ws| && link.seenAt < |ws|
    && (link.conn.stage.Reading? ==> link.seenAt <= link.begun)
    && (link.conn.last.Some? ==> Saw(ws[link.seenAt], me, link, link.conn.last.value))
  }

  ghost predicate LinksOk(y: System, me: UserId) {
    forall c :: c in y.links ==> LinkOk(y.ws, y.session, c, y.links[c]) && Timely(y.ws, me, y.links[c])
  }

  ghost predicate ClientOk(ws: seq<World>, me: UserId, s: Session)
    requires ws != []
  {
    && SessionInv(s) && s.hintAt <= Now(ws) && BornBy(s, Now(ws))
    && KnownOk(ws, s.snap.known) && Honest(ws, me, s.snap.queue) && CoverOk(ws, s)
  }

  ghost predicate SystemInv(y: System, me: UserId) {
    y.ws != [] && Run(y.ws) && OneHome(y.ws) && ClientOk(y.ws, me, y.session) && LinksOk(y, me)
  }

  // ---------------------------------------------------------------- store steps

  ghost predicate Longer(ws: seq<World>, ws': seq<World>) {
    |ws| <= |ws'| && forall i :: 0 <= i < |ws| ==> ws'[i] == ws[i]
  }

  lemma HousedLonger(ws: seq<World>, ws': seq<World>, m: MembershipId, l: LobbyId)
    requires Longer(ws, ws') && Housed(ws, m, l)
    ensures Housed(ws', m, l)
  {
    var i :| 0 <= i < |ws| && Seated(ws[i].store, m, l);
    assert ws'[i] == ws[i];
  }

  lemma HonestLonger(ws: seq<World>, ws': seq<World>, me: UserId, q: Option<QueueView>)
    requires Longer(ws, ws') && Honest(ws, me, q)
    ensures Honest(ws', me, q)
  {
    if q.Some? {
      var i :| 0 <= i < |ws| && Shows(ws[i], me, q.value);
      assert ws'[i] == ws[i];
    }
  }

  lemma SeenLonger(ws: seq<World>, ws': seq<World>, born: nat, m: MembershipId, revision: int)
    requires Longer(ws, ws') && SeenSince(ws, born, m, revision)
    ensures SeenSince(ws', born, m, revision)
  {
    var i, l :| born <= i < |ws| && Seated(ws[i].store, m, l) && ws[i].store.rooms[l].revision <= revision;
    assert ws'[i] == ws[i];
  }

  lemma RunLonger(ws: seq<World>, w: World)
    requires Run(ws) && Next(ws[|ws| - 1], w)
    ensures Run(ws + [w])
  {
    var ws' := ws + [w];
    forall i, j | 0 <= i && j == i + 1 && j < |ws'| ensures Next(ws'[i], ws'[j]) {
      if j < |ws| { assert Next(ws[i], ws[j]); }
    }
  }

  lemma LinkLonger(ws: seq<World>, ws': seq<World>, me: UserId, s: Session, c: nat, link: Link)
    requires Longer(ws, ws') && LinkOk(ws, s, c, link) && Timely(ws, me, link)
    ensures LinkOk(ws', s, c, link) && Timely(ws', me, link)
  {
  }

  lemma StoreStepInv(y: System, me: UserId, y': System)
    requires SystemInv(y, me) && StoreStep(y, y') && OneHome(y'.ws)
    ensures SystemInv(y', me)
  {
    var ws, ws', s := y.ws, y'.ws, y.session;
    assert ws' == ws + [ws'[|ws|]];
    RunLonger(ws, ws'[|ws|]);
    assert forall i :: 0 <= i < |ws| ==> ws'[i] == ws'[..|ws|][i];
    if s.snap.known.In? { HousedLonger(ws, ws', s.snap.known.view.membership, s.snap.known.view.lobby); }
    HonestLonger(ws, ws', me, s.snap.queue);
    if s.covered.Some? && s.covered.value.version == s.version && s.snap.known.In? {
      SeenLonger(ws, ws', s.covered.value.born, s.snap.known.view.membership, s.snap.queue.value.revision);
    }
    forall c | c in y'.links ensures LinkOk(ws', s, c, y'.links[c]) && Timely(ws', me, y'.links[c]) {
      LinkLonger(ws, ws', me, s, c, y.links[c]);
    }
  }

  // ---------------------------------------------------------------- stream steps

  /** At two moments of a run a membership's lobby is one lobby, with its revision as a stamp. */
  lemma HomeSince(ws: seq<World>, i: nat, j: nat, m: MembershipId, k: LobbyId, l: LobbyId)
    requires Run(ws) && OneHome(ws) && i <= j < |ws| && Seated(ws[i].store, m, k) && Seated(ws[j].store, m, l)
    ensures k == l && ws[i].store.rooms[l].revision <= ws[j].store.rooms[l].revision
    ensures Live(ws[j].store.rooms[l], ws[j].now) && ws[i].store.rooms[l].revision == ws[j].store.rooms[l].revision ==>
              ws[i].store.rooms[l] == ws[j].store.rooms[l]
  {
    RevisionIsAStamp(ws, i, j, l);
  }

  /** Of two reads of one membership's lobby the later never sees a smaller revision. */
  lemma ReadsNeverGoBack(ws: seq<World>, user: UserId, m: MembershipId, l: LobbyId, i: nat, j: nat,
                         a: Sighting, b: Sighting)
    requires Run(ws) && OneHome(ws) && i <= j < |ws|
    requires Observe(ws[i].store, user, m, l) == Some(a) && a.memberExists
    requires Observe(ws[j].store, user, m, l) == Some(b) && b.memberExists
    ensures a.revision <= b.revision
  {
    assert Seated(ws[i].store, m, l) && Seated(ws[j].store, m, l);
    HomeSince(ws, i, j, m, l, l);
  }

  lemma StreamStepLink(ws: seq<World>, me: Account, s: Session, c: nat, link: Link, x: Stream.Input, i: nat)
    requires ws != [] && LinkOk(ws, s, c, link) && Stream.Enabled(link.conn, x) && Sighted(ws, me, link, x, i)
    ensures LinkOk(ws, s, c, Pushed(link, x, i, Now(ws)))
  {
    var turn := Stream.Advance(link.conn, x);
    var link' := Pushed(link, x, i, Now(ws));
    Stream.StepIsOk(link.conn, x, turn.out, turn.c);
    if Stream.Carries(turn.out) {
      assert turn.out.event in link'.channel;
    } else if turn.out.Emit? {
      assert Drained(link'.channel) ==> Drained(link.channel);
    }
  }

  /** An accepted read never sees a revision below the one last written, which it therefore becomes or is. */
  lemma ReadIsWritten(ws: seq<World>, me: Account, link: Link, x: Stream.Input, i: nat)
    requires Run(ws) && OneHome(ws) && Timely(ws, me.id, link)
    requires Stream.Enabled(link.conn, x) && Sighted(ws, me, link, x, i) && Stream.Accepts(link.conn, x)
    ensures Stream.Advance(link.conn, x).c.last == Some(x.reading.sighting.revision)
    ensures Saw(ws[i], me.id, link, x.reading.sighting.revision)
  {
    var turn := Stream.Advance(link.conn, x);
    Stream.StepIsOk(link.conn, x, turn.out, turn.c);
    if link.conn.last.Some? {
      var was := Observe(ws[link.seenAt].store, me.id, link.membership, link.conn.lobby).value;
      ReadsNeverGoBack(ws, me.id, link.membership, link.conn.lobby, link.seenAt, i, was, x.reading.sighting);
    }
  }

  lemma StreamStepTimely(ws: seq<World>, me: Account, link: Link, x: Stream.Input, i: nat)
    requires Run(ws) && OneHome(ws) && Timely(ws, me.id, link)
    requires Stream.Enabled(link.conn, x) && Sighted(ws, me, link, x, i)
    ensures Timely(ws, me.id, Pushed(link, x, i, Now(ws)))
  {
    var turn := Stream.Advance(link.conn, x);
    Stream.StepIsOk(link.conn, x, turn.out, turn.c);
    if Stream.Accepts(link.conn, x) { ReadIsWritten(ws, me, link, x, i); }
  }

  lemma StreamStepInv(y: System, me: Account, c: nat, x: Stream.Input, i: nat, y': System)
    requires SystemInv(y, me.id) && StreamStep(y, me, c, x, i, y')
    ensures SystemInv(y', me.id)
  {
    StreamStepLink(y.ws, me, y.session, c, y.links[c], x, i);
    StreamStepTimely(y.ws, me, y.links[c], x, i);
    forall k | k in y'.links ensures LinkOk(y.ws, y.session, k, y'.links[k]) && Timely(y.ws, me.id, y'.links[k]) {
      if k != c { assert LinkOk(y.ws, y.session, k, y.links[k]); }
    }
  }

  lemma OpenStepInv(y: System, me: UserId, c: nat, link: Link, y': System)
    requires SystemInv(y, me) && OpenStep(y, c, link, y')
    ensures SystemInv(y', me)
  {
    forall k | k in y'.links ensures LinkOk(y.ws, y.session, k, y'.links[k]) && Timely(y.ws, me, y'.links[k]) {
      if k != c { assert LinkOk(y.ws, y.session, k, y.links[k]); }
    }
  }

  // ---------------------------------------------------------------- client steps

  lemma StepKnown(ws: seq<World>, me: Account, s: Session, a: Action)
    requires ws != [] && ClientOk(ws, me.id, s) && Enabled(s, a) && Served(ws, me, s, a)
    requires KnownFrom(s, Act(s, a, Now(ws)), a)
    ensures KnownOk(ws, Act(s, a, Now(ws)).snap.known)
  {
    var t := Act(s, a, Now(ws));
    if t.snap.known != s.snap.known && t.snap.known.In? {
      var i :| s.passes[a.pass].born <= i < |ws| && AnswersCurrent(ws[i], me, a.current.value);
      CurrentSeats(ws[i], me, a.current.value);
    }
  }

  lemma ViewServed(ws: seq<World>, me: Account, s: Session, a: Action)
    requires Run(ws) && Enabled(s, a) && Served(ws, me, s, a) && ViewOf(a).Some?
    ensures Honest(ws, me.id, ViewOf(a))
  {
    if a.OnRead? {
      var i :| s.passes[a.pass].born <= i < |ws| && AnswersRead(ws[i], me, s.passes[a.pass].stage.lobby.membership, a.read.view);
      ReadShows(ws[i], me, s.passes[a.pass].stage.lobby.membership, a.read.view);
    } else {
      var i, j :| 0 <= i && j == i + 1 && j < |ws| && AnswersCall(ws[i], ws[j], me, s.calls[a.call], a.reply.view);
      RunInv(ws, j, j);
      CallShows(ws[i], ws[j], me, s.calls[a.call], a.reply.view);
    }
  }

  lemma SameHome(ws: seq<World>, m: MembershipId, k: LobbyId, l: LobbyId)
    requires OneHome(ws) && Housed(ws, m, k) && Housed(ws, m, l)
    ensures k == l
  {
    var i :| 0 <= i < |ws| && Seated(ws[i].store, m, k);
    var j :| 0 <= j < |ws| && Seated(ws[j].store, m, l);
  }

  /** A full read leaves a queue no older than the moment its pass began. */
  lemma ReadCovers(ws: seq<World>, me: Account, s: Session, a: Action)
    requires ws != [] && Run(ws) && OneHome(ws) && ClientOk(ws, me.id, s) && Enabled(s, a) && Served(ws, me, s, a)
    requires a.OnRead? && a.read.Got? && s.snap.known.In? && Valid(s, s.passes[a.pass].stage.bound)
    ensures var q := ApplyQueue(s, a.read.view, s.passes[a.pass].stage.bound).snap.queue;
      q.Some? && SeenSince(ws, s.passes[a.pass].born, s.snap.known.view.membership, q.value.revision)
  {
    var p, v := s.passes[a.pass], a.read.view;
    var m := p.stage.lobby.membership;
    assert PassFits(p, s.version, s.lifetime);
    assert m == s.snap.known.view.membership;
    ReadSees(ws, me, p.born, m, v);
    SameHome(ws, m, v.lobby, s.snap.known.view.lobby);
    var q := ApplyQueue(s, v, p.stage.bound).snap.queue;
    assert q.Some? && v.revision <= q.value.revision;
    SeenNewer(ws, p.born, m, v.revision, q.value.revision);
  }

  lemma ReadSees(ws: seq<World>, me: Account, born: nat, m: MembershipId, v: QueueView)
    requires exists i :: born <= i < |ws| && AnswersRead(ws[i], me, m, v)
    ensures v.membership == m && Housed(ws, m, v.lobby) && SeenSince(ws, born, m, v.revision)
  {
    var i :| born <= i < |ws| && AnswersRead(ws[i], me, m, v);
    ReadShows(ws[i], me, m, v);
    assert ws[i].store.rooms[v.lobby].revision == v.revision;
  }

  lemma StepCover(ws: seq<World>, me: Account, s: Session, a: Action)
    requires ws != [] && Run(ws) && OneHome(ws) && ClientOk(ws, me.id, s) && Enabled(s, a) && Served(ws, me, s, a)
    requires CoverFrom(s, Act(s, a, Now(ws)), a) && EpochKeeps(s, Act(s, a, Now(ws)))
    ensures CoverOk(ws, Act(s, a, Now(ws)))
  {
    var t := Act(s, a, Now(ws));
    if t.covered.Some? && t.covered.value.version == t.version && t.snap.known.In? {
      if t.covered != s.covered {
        assert PassFits(s.passes[a.pass], s.version, s.lifetime);
        if a.OnRead? { ReadCovers(ws, me, s, a); }
      } else {
        assert t.version == s.version;
        SeenNewer(ws, s.covered.value.born, s.snap.known.view.membership,
                  s.snap.queue.value.revision, t.snap.queue.value.revision);
      }
    }
  }

  lemma SeenNewer(ws: seq<World>, born: nat, m: MembershipId, revision: int, newer: int)
    requires SeenSince(ws, born, m, revision) && revision <= newer
    ensures SeenSince(ws, born, m, newer)
  {
    var i, l :| born <= i < |ws| && Seated(ws[i].store, m, l) && ws[i].store.rooms[l].revision <= revision;
  }

  lemma StepClientOk(ws: seq<World>, me: Account, s: Session, a: Action)
    requires ws != [] && Run(ws) && OneHome(ws) && ClientOk(ws, me.id, s) && Enabled(s, a) && Served(ws, me, s, a)
    ensures ClientOk(ws, me.id, Act(s, a, Now(ws)))
  {
    var t := Act(s, a, Now(ws));
    ActInv(s, a, Now(ws));
    ActEffects(s, a, Now(ws));
    StepKeeps(s, a, Now(ws));
    StepKnown(ws, me, s, a);
    StepHonest(ws, me, s, a);
    StepCover(ws, me, s, a);
  }

  lemma StepHonest(ws: seq<World>, me: Account, s: Session, a: Action)
    requires ws != [] && Run(ws) && Enabled(s, a) && Served(ws, me, s, a) && Honest(ws, me.id, s.snap.queue)
    requires QueueFrom(s, Act(s, a, Now(ws)), a)
    ensures Honest(ws, me.id, Act(s, a, Now(ws)).snap.queue)
  {
    if ViewOf(a).Some? { ViewServed(ws, me, s, a); }
  }

  lemma DrainedRest(channel: seq<Event>)
    requires channel != [] && Terminal(channel[0]) && Drained(channel[1..])
    ensures Drained(channel)
  {
    assert channel == [channel[0]] + channel[1..];
  }

  lemma StepLink(ws: seq<World>, s: Session, a: Action, c: nat, link: Link)
    requires ws != [] && SessionInv(s) && Enabled(s, a) && s.hintAt <= Now(ws) && LinkOk(ws, s, c, link)
    requires Connects(s, Act(s, a, Now(ws))) && Grows(s, Act(s, a, Now(ws)), Now(ws))
    requires !(a.OnEvent? && a.reader == c)
    ensures LinkOk(ws, Act(s, a, Now(ws)), c, link)
  {
  }

  lemma StepEvent(ws: seq<World>, s: Session, c: nat, event: Event, link: Link)
    requires ws != [] && SessionInv(s) && Enabled(s, OnEvent(c, event)) && s.hintAt <= Now(ws) && LinkOk(ws, s, c, link)
    requires link.channel != [] && link.channel[0] == event
    requires var t := StreamEvent(s, c, event, Now(ws)); Connects(s, t) && Grows(s, t, Now(ws))
    ensures LinkOk(ws, StreamEvent(s, c, event, Now(ws)), c, link.(channel := link.channel[1..]))
  {
    var t := StreamEvent(s, c, event, Now(ws));
    if t.connection == Some(c) && link.conn.last.Some? && Drained(link.channel[1..]) {
      if Terminal(event) {
        DrainedRest(link.channel);
      } else {
        EventIsAHint(s, c, event, Now(ws));
      }
    }
  }

  lemma ClientStepInv(y: System, me: Account, a: Action, y': System)
    requires SystemInv(y, me.id) && ClientStep(y, me, a, y')
    ensures SystemInv(y', me.id)
  {
    var ws, s := y.ws, y.session;
    StepClientOk(ws, me, s, a);
    ActEffects(s, a, Now(ws));
    forall c | c in y'.links ensures LinkOk(ws, y'.session, c, y'.links[c]) && Timely(ws, me.id, y'.links[c]) {
      assert LinkOk(ws, s, c, y.links[c]) && Timely(ws, me.id, y.links[c]);
      if a.OnEvent? && a.reader == c {
        StepEvent(ws, s, c, a.event, y.links[c]);
      } else {
        StepLink(ws, s, a, c, y.links[c]);
      }
    }
  }

  // ---------------------------------------------------------------- theorems

  /** Every step of the system keeps the invariant. */
  lemma SystemStepInv(y: System, me: Account, y': System)
    requires SystemInv(y, me.id) && SystemStep(y, me, y') && OneHome(y'.ws)
    ensures SystemInv(y', me.id)
  {
    if StoreStep(y, y') {
      StoreStepInv(y, me.id, y');
    } else if a :| ClientStep(y, me, a, y') {
      ClientStepInv(y, me, a, y');
    } else if c, link :| OpenStep(y, c, link, y') {
      OpenStepInv(y, me.id, c, link, y');
    } else {
      var c, x, i :| StreamStep(y, me, c, x, i, y');
      StreamStepInv(y, me, c, x, i, y');
    }
  }

  /** A run of the system: a newly mounted session over a well-formed store. */
  ghost predicate SystemRun(ys: seq<System>, me: Account) {
    && |ys| > 0 && Run(ys[0].ws) && ys[0].session == INITIAL && ys[0].links == map[]
    && (forall i, j :: 0 <= i && j == i + 1 && j < |ys| ==> SystemStep(ys[i], me, ys[j]))
    && (forall i :: 0 <= i < |ys| ==> OneHome(ys[i].ws))
  }

  lemma {:induction false} SystemRunInv(ys: seq<System>, me: Account, n: nat)
    requires SystemRun(ys, me) && n < |ys|
    ensures SystemInv(ys[n], me.id)
  {
    if n == 0 {
      InitialSession();
    } else {
      SystemRunInv(ys, me, n - 1);
      assert SystemStep(ys[n - 1], me, ys[n]);
      SystemStepInv(ys[n - 1], me, ys[n]);
    }
  }

  /** Nothing is made up: what a session shows is, at every moment, the view of a store that existed. */
  lemma ShownWasTrue(ys: seq<System>, me: Account, n: nat)
    returns (i: nat)
    requires SystemRun(ys, me) && n < |ys| && ys[n].session.snap.queue.Some?
    ensures i < |ys[n].ws| && Shows(ys[n].ws[i], me.id, ys[n].session.snap.queue.value)
  {
    SystemRunInv(ys, me, n);
    var j :| 0 <= j < |ys[n].ws| && Shows(ys[n].ws[j], me.id, ys[n].session.snap.queue.value);
    i := j;
  }

  /** And it is of the membership and the lobby the session knows, in every epoch and between any two answers. */
  lemma ShownIsOfTheKnownLobby(ys: seq<System>, me: Account, n: nat)
    requires SystemRun(ys, me) && n < |ys| && ys[n].session.snap.queue.Some?
    ensures var s := ys[n].session.snap;
      && s.known.In? && s.queue.value.membership == s.known.view.membership && s.queue.value.lobby == s.known.view.lobby
  {
    var i := ShownWasTrue(ys, me, n);
    SystemRunInv(ys, me, n);
    var s := ys[n].session.snap;
    assert Housed(ys[n].ws, s.queue.value.membership, s.queue.value.lobby);
    SameHome(ys[n].ws, s.known.view.membership, s.queue.value.lobby, s.known.view.lobby);
  }

  /**
   After every accepted read of a connection, whenever it was made and whatever the hints were, what was last written
   is what was read; and the read wrote an event exactly when that revision had not been written yet.
   */
  lemma LastReadIsLastWritten(ys: seq<System>, me: Account, n: nat, c: nat, x: Stream.Input, i: nat, y': System)
    requires SystemRun(ys, me) && n < |ys| && StreamStep(ys[n], me, c, x, i, y')
    requires Stream.Accepts(ys[n].links[c].conn, x)
    ensures c in y'.links && y'.links[c].conn.last == Some(x.reading.sighting.revision)
    ensures Stream.Carries(Stream.Advance(ys[n].links[c].conn, x).out) <==>
            ys[n].links[c].conn.last != Some(x.reading.sighting.revision)
  {
    SystemRunInv(ys, me, n);
    var link := ys[n].links[c];
    ReadIsWritten(ys[n].ws, me, link, x, i);
    Stream.StepIsOk(link.conn, x, Stream.Advance(link.conn, x).out, Stream.Advance(link.conn, x).c);
  }

  /**
   A stream says its lobby was closed, or its member gone, only when the store had it so at a moment since the read began;
   and a read that finds it so, before the deadlines, says exactly that.
   */
  lemma EndsTellTheTruth(ys: seq<System>, me: Account, n: nat, c: nat, x: Stream.Input, i: nat, y': System)
    requires SystemRun(ys, me) && n < |ys| && StreamStep(ys[n], me, c, x, i, y')
    ensures
      var link, ws := ys[n].links[c], ys[n].ws;
      var l, m, out := link.conn.lobby, link.membership, Stream.Advance(link.conn, x).out;
      && (out == Stream.Emit(MembershipEnded(Closed)) ==>
            i < |ws| && link.begun <= i && l in ws[i].store.rooms && ws[i].store.rooms[l].closedAt.Some?)
      && (out == Stream.Emit(MembershipEnded(Left)) ==>
            i < |ws| && link.begun <= i && l in ws[i].store.rooms && ws[i].store.rooms[l].closedAt.None?
            && !Transactions.Holds(ws[i].store, me.id, Seat(l, m)))
      && (Stream.ReadInTime(link.conn, x) ==>
            && l in ws[i].store.rooms
            && (ws[i].store.rooms[l].closedAt.Some? ==> out == Stream.Emit(MembershipEnded(Closed)))
            && (ws[i].store.rooms[l].closedAt.None? && !Transactions.Holds(ws[i].store, me.id, Seat(l, m)) ==>
                  out == Stream.Emit(MembershipEnded(Left))))
  {
    SystemRunInv(ys, me, n);
    var link, ws := ys[n].links[c], ys[n].ws;
    Stream.EndsOnlyForItsReason(link.conn, x);
    if Stream.ReadInTime(link.conn, x) {
      Stream.ReadsEndForTheirReason(link.conn, x);
      RunInv(ws, i, i);
    }
  }

  /** An active session that is idle, clean and without error. */
  predicate AtRest(s: Session) {
    s.active && s.flight.None? && !s.dirty && !s.snap.syncError
  }

  /** The lobby is active and has not changed since its stream's last read, and all the stream said has been heard. */
  ghost predicate Heard(w: World, link: Link) {
    && link.conn.last.Some? && Drained(link.channel)
    && Seated(w.store, link.membership, link.conn.lobby)
    && Live(w.store.rooms[link.conn.lobby], w.now)
    && w.store.rooms[link.conn.lobby].revision == link.conn.last.value
  }

  /** What rest means: the queue shown is at least as new as what the stream last read. */
  lemma RestIsFresh(y: System, me: UserId, c: nat)
    requires SystemInv(y, me) && AtRest(y.session) && y.session.connection == Some(c) && c in y.links
    requires y.links[c].conn.last.Some? && Drained(y.links[c].channel)
    ensures y.session.snap.known.In? && y.session.snap.known.view.membership == y.links[c].membership
    ensures y.session.snap.queue.Some? && y.session.snap.queue.value.membership == y.links[c].membership
    ensures y.session.snap.queue.value.revision >= y.links[c].conn.last.value
  {
    var ws, s, link := y.ws, y.session, y.links[c];
    assert LinkOk(ws, s, c, link);
    assert Covered(s);
    var i, l :| s.covered.value.born <= i < |ws| && Seated(ws[i].store, link.membership, l)
                && ws[i].store.rooms[l].revision <= s.snap.queue.value.revision;
    HomeSince(ws, link.readAt, i, link.membership, link.conn.lobby, l);
  }

  /**
   Convergence: when the lobby has not changed since its stream's last read and everything the stream wrote has been
   handled, a session at rest shows exactly the lobby's present queue: its revision, entries, votes and policy.
   */
  lemma Converged(ys: seq<System>, me: Account, n: nat, c: nat)
    requires SystemRun(ys, me) && n < |ys| && AtRest(ys[n].session)
    requires ys[n].session.connection == Some(c) && c in ys[n].links && ys[n].ws != []
    requires Heard(ys[n].ws[Now(ys[n].ws)], ys[n].links[c])
    ensures
      var w, link := ys[n].ws[Now(ys[n].ws)], ys[n].links[c];
      var r := w.store.rooms[link.conn.lobby];
      && StoreInv(w.store) && r.closedAt.None?
      && ys[n].session.snap.queue == Some(Snapshot(r, link.conn.lobby, me.id, link.membership))
      && ys[n].session.snap.queue.value.Order() == r.queue
  {
    SystemRunInv(ys, me, n);
    var ws, s, link := ys[n].ws, ys[n].session, ys[n].links[c];
    RestIsFresh(ys[n], me.id, c);
    var now, l, q := Now(ws), link.conn.lobby, s.snap.queue.value;
    var j :| 0 <= j < |ws| && Shows(ws[j], me.id, q);
    HomeSince(ws, j, now, link.membership, q.lobby, l);
    RunInv(ws, now, now);
    ViewIsOrder(ws[now].store.rooms[l], l, me.id, link.membership);
  }
}
