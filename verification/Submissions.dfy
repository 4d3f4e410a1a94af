/**
 The staged submission protocol around the store: authorize, look for an
 earlier receipt, fetch metadata, commit.  Tasks interleave with each other,
 with their own retries and with every other request between stages.
 */
module Submissions {
  import opened Prelude
  import opened Rooms
  import opened Transactions
  import opened StoreLaws
  import opened Runs

  datatype SubmitError = Refused(why: QueueError) | InvalidUrl | Upstream | Metadata

  /** One client call; `video` is the id its URL parses to, None for an unsupported URL. */
  datatype Job = Job(user: Account, membership: MembershipId, request: RequestId, video: Option<string>)

  // `room` records the lobby as the answering transaction left it.
  datatype Stage =
    | Arriving
    | Checking
    | Fetching
    | Committing(found: Video)
    | Answered(reply: Submission, lobby: LobbyId, room: Room)
    | Failed(error: SubmitError)

  datatype Task = Task(job: Job, stage: Stage)

  // What the environment supplies to one stage.
  datatype Weather = Weather(clock: Clock, storage: bool, lookup: Result<Video, SubmitError>, supply: Supply)

  function Looked(id: string, lookup: Result<Video, SubmitError>): Stage {
    match lookup
    case Err(e) => Failed(e)
    case Ok(v) => Committing(v.(videoId := id))
  }

  ghost function Work(s: Store, t: Task, x: Weather): (Store, Stage)
    requires StoreInv(s)
  {
    var j := t.job;
    match t.stage
    case Arriving =>
      (match ReadQueue(s, j.user, j.membership, x.clock, x.storage)
       case Err(e) => (s, Failed(Refused(e)))
       case Ok(_) => (s, if j.video.None? then Failed(InvalidUrl) else Checking))
    case Checking =>
      if j.video.None? then (s, t.stage)
      else (match ReadReceipt(s, j.user, j.membership, j.request, j.video.value, x.clock, x.storage)
            case Err(e) => (s, Failed(Refused(e)))
            case Ok(None) => (s, Fetching)
            case Ok(Some(sub)) => (s, Settle(s, j, sub)))
    case Fetching => (s, if j.video.None? then t.stage else Looked(j.video.value, x.lookup))
    case Committing(v) =>
      var tx := Submit(s, j.user, j.membership, j.request, v, x.supply, x.clock, x.storage);
      (match tx.reply
       case Err(e) => (tx.store, Failed(Refused(e)))
       case Ok(sub) => (tx.store, Settle(tx.store, j, sub)))
    case Answered(_, _, _) => (s, t.stage)
    case Failed(_) => (s, t.stage)
  }

  ghost function Settle(s: Store, j: Job, sub: Submission): Stage {
    if sub.view.lobby in s.rooms then Answered(sub, sub.view.lobby, s.rooms[sub.view.lobby])
    else Failed(Refused(Storage))
  }

  datatype System = System(world: World, tasks: map<nat, Task>)

  datatype Move =
    | Other(request: Request)
    | Spawn(id: nat, job: Job)
    | Run(id: nat, weather: Weather)

  ghost predicate Enabled(y: System, a: Move) {
    match a
    case Other(q) => Admissible(y.world, q)
    case Spawn(id, _) => id !in y.tasks
    case Run(id, x) => id in y.tasks && y.world.now <= x.clock[0]
  }

  ghost function Step(y: System, a: Move): System
    requires StoreInv(y.world.store) && Enabled(y, a)
  {
    match a
    case Other(q) => y.(world := Apply(y.world, q))
    case Spawn(id, job) => y.(tasks := y.tasks[id := Task(job, Arriving)])
    case Run(id, x) =>
      var (s, stage) := Work(y.world.store, y.tasks[id], x);
      System(World(s, x.clock[DEADLINE]), y.tasks[id := y.tasks[id].(stage := stage)])
  }

  /** The stage a task goes on to, and the store: only the committing stage may change it. */
  ghost predicate GoesTo(s: Store, t: Task, x: Weather, stage: Stage)
    requires StoreInv(s)
  {
    Work(s, t, x) == (s, stage)
  }

  /**
   Each stage in turn: authority is asked for before the URL is judged, an earlier receipt is looked for before anything
   is fetched, and what is committed is what was looked up, under the id asked for.  A failure is told as it is.
   */
  lemma StagesFollow(s: Store, j: Job, x: Weather)
    requires StoreInv(s)
    ensures var read := ReadQueue(s, j.user, j.membership, x.clock, x.storage);
      GoesTo(s, Task(j, Arriving), x,
             if read.Err? then Failed(Refused(read.error)) else if j.video.None? then Failed(InvalidUrl) else Checking)
    ensures j.video.Some? ==>
      var found := ReadReceipt(s, j.user, j.membership, j.request, j.video.value, x.clock, x.storage);
      && (found.Err? ==> GoesTo(s, Task(j, Checking), x, Failed(Refused(found.error))))
      && (found == Ok(None) ==> GoesTo(s, Task(j, Checking), x, Fetching))
      && (x.lookup.Err? ==> GoesTo(s, Task(j, Fetching), x, Failed(x.lookup.error)))
      && (x.lookup.Ok? ==>
            var v := x.lookup.value;
            GoesTo(s, Task(j, Fetching), x,
                   Committing(Video(j.video.value, v.title, v.authorName, v.authorUrl, v.thumbnailUrl, v.embedUrl))))
  {
  }

  /** An earlier receipt is the answer, and a commit's reply is passed on with the store it left. */
  lemma AnswersPassOn(s: Store, j: Job, x: Weather, v: Video)
    requires StoreInv(s)
    ensures j.video.Some? ==>
      var found := ReadReceipt(s, j.user, j.membership, j.request, j.video.value, x.clock, x.storage);
      found.Ok? && found.value.Some? ==>
        var stage := Work(s, Task(j, Checking), x).1;
        stage.Answered? && stage.reply == found.value.value && !stage.reply.changed && Work(s, Task(j, Checking), x).0 == s
    ensures
      var tx := Submit(s, j.user, j.membership, j.request, v, x.supply, x.clock, x.storage);
      && Work(s, Task(j, Committing(v)), x).0 == tx.store
      && (tx.reply.Err? ==> Work(s, Task(j, Committing(v)), x).1 == Failed(Refused(tx.reply.error)))
      && (tx.reply.Ok? ==>
            Work(s, Task(j, Committing(v)), x).1.Answered? && Work(s, Task(j, Committing(v)), x).1.reply == tx.reply.value)
  {
  }

  // ---------------------------------------------------------------- what an answer establishes

  /** The answer names the lobby's recorded entry for this caller, retry identity and video. */
  ghost predicate Names(j: Job, sub: Submission, r: Room) {
    && r.closedAt.None? && j.video.Some?
    && Receipt(r, j.user.id, j.request, sub.entry)
    && r.entries[sub.entry].video.videoId == j.video.value
  }

  ghost predicate Typed(t: Task) {
    && ((t.stage.Checking? || t.stage.Fetching?) ==> t.job.video.Some?)
    && (t.stage.Committing? ==> t.job.video == Some(t.stage.found.videoId))
  }

  ghost predicate TaskInv(w: World, t: Task) {
    && Typed(t)
    && (t.stage.Answered? ==> Names(t.job, t.stage.reply, t.stage.room)
                              && Tracked(t.stage.room, w, t.stage.lobby, t.stage.room.expiresAt))
  }

  ghost predicate SameKey(a: Task, b: Task)
    requires a.stage.Answered? && b.stage.Answered?
  {
    && a.job.user.id == b.job.user.id && a.job.request == b.job.request
    && a.stage.lobby == b.stage.lobby && a.stage.room.expiresAt == b.stage.room.expiresAt
  }

  /** Answers under one retry identity name one entry and one video, and at most one of them created it. */
  ghost predicate Agree(a: Task, b: Task) {
    a.stage.Answered? && b.stage.Answered? && SameKey(a, b) ==>
      && a.stage.reply.entry == b.stage.reply.entry && a.job.video == b.job.video
      && !(a.stage.reply.changed && b.stage.reply.changed)
  }

  ghost predicate SystemInv(y: System) {
    && WorldInv(y.world)
    && (forall k :: k in y.tasks ==> TaskInv(y.world, y.tasks[k]))
    && (forall j, k :: j in y.tasks && k in y.tasks && j != k ==> Agree(y.tasks[j], y.tasks[k]))
  }

  lemma TaskKeeps(w: World, w': World, t: Task)
    requires TaskInv(w, t) && w.now <= w'.now && StoreEvolves(w.store, w'.store, w'.now)
    ensures TaskInv(w', t)
  {
    if t.stage.Answered? {
      TrackStep(t.stage.room, w, w', t.stage.lobby, t.stage.room.expiresAt);
    }
  }

  /** What a receipt read answers. */
  lemma ReceiptAnswer(s: Store, j: Job, x: Weather)
    requires StoreInv(s) && j.video.Some?
    requires ReadReceipt(s, j.user, j.membership, j.request, j.video.value, x.clock, x.storage).Ok?
    ensures
      var found := ReadReceipt(s, j.user, j.membership, j.request, j.video.value, x.clock, x.storage).value;
      found.Some? ==>
        && found.value.view.lobby in s.rooms && !found.value.changed
        && Names(j, found.value, s.rooms[found.value.view.lobby])
  {
  }

  /** What a commit answers; a creating one found no receipt before it. */
  lemma CommitAnswer(s: Store, j: Job, v: Video, x: Weather)
    requires StoreInv(s) && j.video == Some(v.videoId)
    requires Submit(s, j.user, j.membership, j.request, v, x.supply, x.clock, x.storage).reply.Ok?
    ensures
      var tx := Submit(s, j.user, j.membership, j.request, v, x.supply, x.clock, x.storage);
      var l := tx.reply.value.view.lobby;
      && l in s.rooms && l in tx.store.rooms && s.rooms[l].closedAt.None?
      && Names(j, tx.reply.value, tx.store.rooms[l])
      && tx.store.rooms[l].expiresAt == s.rooms[l].expiresAt
      && (tx.reply.value.changed ==> forall e :: !Receipt(s.rooms[l], j.user.id, j.request, e))
  {
    var tx := Submit(s, j.user, j.membership, j.request, v, x.supply, x.clock, x.storage);
    var l := Authorize(s, j.user, j.membership, AnyMember, x.clock).value;
    var r := s.rooms[l];
    if ReceiptOf(r, j.user.id, j.request).None? {
      var (e, at) := FreshEntry(s, x.supply, x.clock, 0).value;
      var entry := Entry(j.user.id, j.request, v, at);
      AppendKeeps(s, l, j.user.id, j.request, e, entry);
      assert tx.store.rooms[l] == Bump(Append(r, e, entry));
    }
  }

  /** An earlier answer still on record decides a later one. */
  lemma RecordedAgrees(w: World, t: Task, j: Job, sub: Submission, r: Room, l: LobbyId)
    requires TaskInv(w, t) && t.stage.Answered? && t.stage.lobby == l && l in w.store.rooms
    requires w.store.rooms[l].expiresAt == t.stage.room.expiresAt && w.store.rooms[l].closedAt.None?
    requires t.job.user.id == j.user.id && t.job.request == j.request
    requires KeepsHistory(w.store.rooms[l], r) && RoomInv(r) && Names(j, sub, r)
    ensures Receipt(w.store.rooms[l], j.user.id, j.request, t.stage.reply.entry)
    ensures t.stage.reply.entry == sub.entry && t.job.video == j.video
  {
    assert Since(t.stage.room, w.store.rooms[l], w.now);
    var e := t.stage.reply.entry;
    assert e in w.store.rooms[l].entries && w.store.rooms[l].entries[e] == t.stage.room.entries[e];
    assert SameRequest(r.entries[e], r.entries[sub.entry]);
  }

  /** Only the last stage of a submission writes. */
  lemma WorkStores(s: Store, t: Task, x: Weather)
    requires StoreInv(s)
    ensures Work(s, t, x).0 ==
            if t.stage.Committing?
            then Submit(s, t.job.user, t.job.membership, t.job.request, t.stage.found, x.supply, x.clock, x.storage).store
            else s
  {
  }

  lemma WorkLawful(w: World, t: Task, x: Weather)
    requires WorldInv(w) && w.now <= x.clock[0]
    ensures Lawful(w.store, Work(w.store, t, x).0, x.clock[DEADLINE])
  {
    SoundLater(w.store, w.now, x.clock[DEADLINE]);
    WorkStores(w.store, t, x);
    if t.stage.Committing? {
      SubmitLawful(w.store, t.job.user, t.job.membership, t.job.request, t.stage.found, x.supply, x.clock, x.storage);
    } else {
      UnchangedEvolves(w.store, x.clock[DEADLINE]);
    }
  }

  /** A task that answers in this stage names its entry, and agrees with every earlier answer. */
  lemma NewAnswer(w: World, t: Task, x: Weather, earlier: Task)
    requires WorldInv(w) && w.now <= x.clock[0] && TaskInv(w, t) && !t.stage.Answered? && TaskInv(w, earlier)
    requires Work(w.store, t, x).1.Answered?
    ensures
      var t' := t.(stage := Work(w.store, t, x).1);
      Names(t'.job, t'.stage.reply, t'.stage.room) && Agree(earlier, t') && Agree(t', earlier)
  {
    WorkLawful(w, t, x);
    var s' := Work(w.store, t, x).0;
    var t' := t.(stage := Work(w.store, t, x).1);
    if t.stage.Checking? {
      ReceiptAnswer(w.store, t.job, x);
    } else {
      CommitAnswer(w.store, t.job, t.stage.found, x);
    }
    var l := t'.stage.lobby;
    if earlier.stage.Answered? && SameKey(earlier, t') {
      assert Evolves(w.store.rooms[l], s'.rooms[l], x.clock[DEADLINE]);
      RecordedAgrees(w, earlier, t.job, t'.stage.reply, s'.rooms[l], l);
    }
  }

  lemma WorkTyped(s: Store, t: Task, x: Weather)
    requires StoreInv(s) && Typed(t)
    ensures Typed(t.(stage := Work(s, t, x).1))
  {
  }

  lemma OldTasksKeep(y: System, id: nat, x: Weather)
    requires SystemInv(y) && Enabled(y, Run(id, x))
    ensures var w' := Step(y, Run(id, x)).world; WorldInv(w') && forall k :: k in y.tasks ==> TaskInv(w', y.tasks[k])
  {
    var w, w' := y.world, Step(y, Run(id, x)).world;
    WorkLawful(w, y.tasks[id], x);
    assert w.now <= w'.now;
    forall k | k in y.tasks ensures TaskInv(w', y.tasks[k]) {
      TaskKeeps(w, w', y.tasks[k]);
    }
  }

  lemma NewTaskKeeps(y: System, id: nat, x: Weather)
    requires SystemInv(y) && Enabled(y, Run(id, x))
    requires TaskInv(Step(y, Run(id, x)).world, y.tasks[id])
    ensures TaskInv(Step(y, Run(id, x)).world, Step(y, Run(id, x)).tasks[id])
  {
    var w, t, y' := y.world, y.tasks[id], Step(y, Run(id, x));
    var t' := y'.tasks[id];
    WorkTyped(w.store, t, x);
    if !t.stage.Answered? && t'.stage.Answered? {
      NewAnswer(w, t, x, t);
      SinceStart(y'.world, t'.stage.lobby);
    }
  }

  lemma NewTaskAgrees(y: System, id: nat, x: Weather, k: nat)
    requires SystemInv(y) && Enabled(y, Run(id, x)) && k in y.tasks && k != id
    ensures var t' := Step(y, Run(id, x)).tasks[id]; Agree(y.tasks[k], t') && Agree(t', y.tasks[k])
  {
    var t, t' := y.tasks[id], Step(y, Run(id, x)).tasks[id];
    if !t.stage.Answered? && t'.stage.Answered? {
      NewAnswer(y.world, t, x, y.tasks[k]);
    } else {
      assert Agree(y.tasks[k], t) && Agree(t, y.tasks[k]);
    }
  }

  lemma RunStepInv(y: System, id: nat, x: Weather)
    requires SystemInv(y) && Enabled(y, Run(id, x))
    ensures SystemInv(Step(y, Run(id, x)))
  {
    var y' := Step(y, Run(id, x));
    OldTasksKeep(y, id, x);
    NewTaskKeeps(y, id, x);
    forall k | k in y.tasks && k != id ensures Agree(y.tasks[k], y'.tasks[id]) && Agree(y'.tasks[id], y.tasks[k]) {
      NewTaskAgrees(y, id, x, k);
    }
  }

  lemma OtherStepInv(y: System, q: Request)
    requires SystemInv(y) && Enabled(y, Other(q))
    ensures SystemInv(Step(y, Other(q)))
  {
    ApplyLawful(y.world, q);
    var w' := Apply(y.world, q);
    forall k | k in y.tasks ensures TaskInv(w', y.tasks[k]) {
      TaskKeeps(y.world, w', y.tasks[k]);
    }
  }

  lemma StepInv(y: System, a: Move)
    requires SystemInv(y) && Enabled(y, a)
    ensures SystemInv(Step(y, a))
  {
    match a
    case Other(q) => OtherStepInv(y, q);
    case Spawn(_, _) =>
    case Run(id, x) => RunStepInv(y, id, x);
  }

  ghost predicate Execution(ys: seq<System>) {
    && |ys| > 0 && WorldInv(ys[0].world) && ys[0].tasks == map[]
    && forall i, j :: 0 <= i && j == i + 1 && j < |ys| ==> Follows(ys[i], ys[j])
  }

  ghost predicate Follows(y: System, y': System) {
    StoreInv(y.world.store) ==> exists a :: Enabled(y, a) && y' == Step(y, a)
  }

  lemma {:induction false} ExecutionInv(ys: seq<System>, i: nat)
    requires Execution(ys) && i < |ys|
    ensures SystemInv(ys[i])
  {
    if i > 0 {
      ExecutionInv(ys, i - 1);
      assert Follows(ys[i - 1], ys[i]);
      var a :| Enabled(ys[i - 1], a) && ys[i] == Step(ys[i - 1], a);
      StepInv(ys[i - 1], a);
    }
  }

  /**
   Exactly-once submission: under any interleaving, all successful answers to one
   lobby, account and retry identity name one entry for one video, at most one of
   them created it, and while the lobby is open it is that lobby's only such entry.
   */
  lemma ExactlyOnce(ys: seq<System>, i: nat, j: nat, k: nat)
    requires Execution(ys) && i < |ys| && j in ys[i].tasks && k in ys[i].tasks && j != k
    requires ys[i].tasks[j].stage.Answered? && ys[i].tasks[k].stage.Answered?
    requires SameKey(ys[i].tasks[j], ys[i].tasks[k])
    ensures ys[i].tasks[j].stage.reply.entry == ys[i].tasks[k].stage.reply.entry
    ensures ys[i].tasks[j].job.video == ys[i].tasks[k].job.video
    ensures !(ys[i].tasks[j].stage.reply.changed && ys[i].tasks[k].stage.reply.changed)
    ensures
      var t, s := ys[i].tasks[j], ys[i].world.store;
      Present(ys[i].world, t.stage.lobby, t.stage.room.expiresAt) && s.rooms[t.stage.lobby].closedAt.None? ==>
        forall e :: Receipt(s.rooms[t.stage.lobby], t.job.user.id, t.job.request, e) <==> e == t.stage.reply.entry
  {
    ExecutionInv(ys, i);
    assert Agree(ys[i].tasks[j], ys[i].tasks[k]);
    var t, w := ys[i].tasks[j], ys[i].world;
    var l := t.stage.lobby;
    if Present(w, l, t.stage.room.expiresAt) && w.store.rooms[l].closedAt.None? {
      var r := w.store.rooms[l];
      assert TaskInv(w, t);
      assert Since(t.stage.room, r, w.now);
      assert r.entries[t.stage.reply.entry] == t.stage.room.entries[t.stage.reply.entry];
      forall e | Receipt(r, t.job.user.id, t.job.request, e) ensures e == t.stage.reply.entry {
        assert SameRequest(r.entries[e], r.entries[t.stage.reply.entry]);
      }
    }
  }

  /** A different video under a used retry identity is always refused as a conflict, never committed. */
  lemma DifferentVideoConflicts(s: Store, user: Account, m: MembershipId, request: RequestId, video: Video,
                                supply: Supply, clock: Clock, storage: bool)
    requires StoreInv(s) && Authorize(s, user, m, AnyMember, clock).Ok?
    requires ReceiptOf(s.rooms[Authorize(s, user, m, AnyMember, clock).value], user.id, request).Some?
    ensures
      var r := s.rooms[Authorize(s, user, m, AnyMember, clock).value];
      var e := ReceiptOf(r, user.id, request).value;
      var tx := Submit(s, user, m, request, video, supply, clock, storage);
      var read := ReadReceipt(s, user, m, request, video.videoId, clock, storage);
      && tx.store == s
      && (tx.reply == Err(IdempotencyConflict) <==> storage && r.entries[e].video.videoId != video.videoId)
      && (read == Err(IdempotencyConflict) <==> storage && r.entries[e].video.videoId != video.videoId)
  {
  }
}
