/**
 Whole runs of the store: any interleaving of committed, refused and failed
 requests, with scheduled cleanup, under a clock that never goes back.
 */
module Runs {
  import opened Prelude
  import opened Ordering
  import opened Rooms
  import opened Transactions
  import opened StoreLaws

  datatype World = World(store: Store, now: int)

  datatype Request =
    | Editing(user: Account, membership: MembershipId, command: Command, clock: Clock, storage: bool)
    | Submitting(user: Account, membership: MembershipId, request: RequestId, video: Video,
                 supply: Supply, clock: Clock, storage: bool)
    | Leaving(id: UserId, membership: MembershipId, at: int, storage: bool)
    | Joining(id: UserId, code: JoinCode, at: int, supply: Supply, storage: bool)
    | Creating(id: UserId, at: int, candidates: Candidates, storage: bool)
    | Cleaning(asOf: int, at: int)
    | Registering(id: UserId, at: int)
  {
    /** The last moment the request's transaction looks at the clock. */
    function End(): int {
      if Editing? || Submitting? then clock[DEADLINE] else at
    }

    function Begin(): int {
      if Editing? || Submitting? then clock[0] else at
    }
  }

  predicate Admissible(w: World, q: Request) {
    && w.now <= q.Begin()
    && (q.Editing? ==> WellTyped(q.command))
    && (q.Cleaning? ==> q.asOf <= q.at)
  }

  ghost function Apply(w: World, q: Request): World
    requires StoreInv(w.store) && Admissible(w, q)
  {
    var s := w.store;
    match q
    case Editing(user, m, c, clock, ok) => World(Mutate(s, user, m, c, clock, ok).store, q.End())
    case Submitting(user, m, request, video, supply, clock, ok) =>
      World(Submit(s, user, m, request, video, supply, clock, ok).store, q.End())
    case Leaving(id, m, at, ok) => World(Leave(s, id, m, at, ok).store, at)
    case Joining(id, code, at, supply, ok) => World(Join(s, id, code, at, supply, ok).store, at)
    case Creating(id, at, candidates, ok) => World(Create(s, id, at, candidates, ok).store, at)
    case Cleaning(asOf, at) => World(Expire(s, asOf), at)
    case Registering(id, at) => World(s.(users := s.users + {id}), at)
  }

  ghost predicate WorldInv(w: World) {
    StoreInv(w.store) && SoundAt(w.store, w.now)
  }

  const EMPTY := Store({}, map[])

  lemma InitialInv(now: int)
    ensures WorldInv(World(EMPTY, now))
  {
  }

  lemma RegisterLawful(s: Store, id: UserId, now: int)
    requires StoreInv(s) && SoundAt(s, now)
    ensures Lawful(s, s.(users := s.users + {id}), now)
  {
    var s' := s.(users := s.users + {id});
    assert forall m, k :: Seated(s', m, k) ==> Seated(s, m, k);
    assert forall x, a :: Holds(s', x, a) ==> Holds(s, x, a);
  }

  /** Every request keeps the invariants and moves each lobby lawfully. */
  lemma ApplyLawful(w: World, q: Request)
    requires WorldInv(w) && Admissible(w, q)
    ensures w.now <= Apply(w, q).now == q.End()
    ensures Lawful(w.store, Apply(w, q).store, Apply(w, q).now)
  {
    var s := w.store;
    SoundLater(s, w.now, q.End());
    match q
    case Editing(user, m, c, clock, ok) => MutateLawful(s, user, m, c, clock, ok);
    case Submitting(user, m, request, video, supply, clock, ok) => SubmitLawful(s, user, m, request, video, supply, clock, ok);
    case Leaving(id, m, at, ok) => LeaveLawful(s, id, m, at, ok);
    case Joining(id, code, at, supply, ok) => JoinLawful(s, id, code, at, supply, ok);
    case Creating(id, at, candidates, ok) => CreateLawful(s, id, at, candidates, ok);
    case Cleaning(asOf, at) => ExpireLawful(s, asOf, at);
    case Registering(id, at) => RegisterLawful(s, id, at);
  }

  ghost predicate Next(w: World, w': World) {
    StoreInv(w.store) ==> exists q :: Admissible(w, q) && w' == Apply(w, q)
  }

  /** A run from any well-formed world, in particular from the empty store. */
  ghost predicate Run(ws: seq<World>) {
    && |ws| > 0 && WorldInv(ws[0])
    && forall i, j :: 0 <= i && j == i + 1 && j < |ws| ==> Next(ws[i], ws[j])
  }

  /** Whatever requests follow the creation of the tables make a run, so every law of runs holds from then on. */
  lemma RunsFromEmpty(ws: seq<World>, i: nat)
    requires i < |ws| && ws[0].store == EMPTY
    requires forall i, j :: 0 <= i && j == i + 1 && j < |ws| ==> Next(ws[i], ws[j])
    ensures Run(ws) && WorldInv(ws[i])
  {
    InitialInv(ws[0].now);
    RunInv(ws, i, i);
  }

  /** In every reachable state the invariants hold, and time has not gone back. */
  lemma {:induction false} RunInv(ws: seq<World>, i: nat, j: nat)
    requires Run(ws) && i <= j < |ws|
    ensures WorldInv(ws[i]) && WorldInv(ws[j]) && ws[i].now <= ws[j].now
    decreases j
  {
    if j > 0 {
      if i == j { RunInv(ws, j - 1, j - 1); } else { RunInv(ws, i, j - 1); }
      assert Next(ws[j - 1], ws[j]);
      var q :| Admissible(ws[j - 1], q) && ws[j] == Apply(ws[j - 1], q);
      ApplyLawful(ws[j - 1], q);
    }
  }

  lemma RunStep(ws: seq<World>, i: nat)
    requires Run(ws) && i + 1 < |ws|
    ensures WorldInv(ws[i]) && ws[i].now <= ws[i + 1].now
    ensures Lawful(ws[i].store, ws[i + 1].store, ws[i + 1].now)
  {
    RunInv(ws, i, i);
    assert Next(ws[i], ws[i + 1]);
    var q :| Admissible(ws[i], q) && ws[i + 1] == Apply(ws[i], q);
    ApplyLawful(ws[i], q);
  }

  // ---------------------------------------------------------------- one lobby over a run

  /**
   A lobby id and its deadline name one lobby: an id can be allocated again only
   after the earlier lobby's deadline, and the later lobby ends later.
   */
  ghost predicate Present(w: World, l: LobbyId, expiresAt: int) {
    l in w.store.rooms && w.store.rooms[l].expiresAt == expiresAt
  }

  ghost predicate Gone(w: World, l: LobbyId, expiresAt: int) {
    expiresAt <= w.now && (l in w.store.rooms ==> w.store.rooms[l].expiresAt > expiresAt)
  }

  /** All the steps from `r` to `r'`, the latter seen at `now`. */
  ghost predicate Since(r: Room, r': Room, now: int) {
    && SameIdentity(r, r') && r.revision <= r'.revision
    && (r.closedAt.Some? ==> r' == r)
    && (r'.revision == r.revision && (Live(r', now) || r'.closedAt.Some?) ==> r' == r)
    && (r'.closedAt.None? ==> KeepsHistory(r, r'))
  }

  lemma SinceStep(r: Room, r': Room, r'': Room, now: int, later: int)
    requires Since(r, r', now) && Evolves(r', r'', later) && now <= later
    ensures Since(r, r'', later)
  {
  }

  /** What has become of the lobby that was `r` and ends at `x`. */
  ghost predicate Tracked(r: Room, w: World, l: LobbyId, x: int) {
    (Present(w, l, x) && Since(r, w.store.rooms[l], w.now)) || Gone(w, l, x)
  }

  lemma TrackStep(r: Room, w: World, w': World, l: LobbyId, x: int)
    requires Tracked(r, w, l, x) && w.now <= w'.now && StoreEvolves(w.store, w'.store, w'.now)
    ensures Tracked(r, w', l, x)
  {
    if Present(w, l, x) && l in w'.store.rooms {
      SinceStep(r, w.store.rooms[l], w'.store.rooms[l], w.now, w'.now);
    }
  }

  lemma RunEvolves(ws: seq<World>, i: nat)
    requires Run(ws) && i + 1 < |ws|
    ensures ws[i].now <= ws[i + 1].now && StoreEvolves(ws[i].store, ws[i + 1].store, ws[i + 1].now)
  {
    RunStep(ws, i);
  }

  lemma SinceStart(w: World, l: LobbyId)
    requires l in w.store.rooms
    ensures Tracked(w.store.rooms[l], w, l, w.store.rooms[l].expiresAt)
  {
  }

  lemma {:induction false} LobbySince(ws: seq<World>, i: nat, j: nat, l: LobbyId)
    requires Run(ws) && i <= j < |ws| && l in ws[i].store.rooms
    ensures Tracked(ws[i].store.rooms[l], ws[j], l, ws[i].store.rooms[l].expiresAt)
    decreases j
  {
    if i == j {
      SinceStart(ws[i], l);
    } else {
      LobbySince(ws, i, j - 1, l);
      RunEvolves(ws, j - 1);
      TrackStep(ws[i].store.rooms[l], ws[j - 1], ws[j], l, ws[i].store.rooms[l].expiresAt);
    }
  }

  /** The lobby of two moments is one lobby exactly when its deadline is the same at both. */
  lemma SameLobbySince(ws: seq<World>, i: nat, j: nat, l: LobbyId)
    requires Run(ws) && i <= j < |ws| && l in ws[i].store.rooms && l in ws[j].store.rooms
    requires ws[i].store.rooms[l].expiresAt == ws[j].store.rooms[l].expiresAt
    ensures Since(ws[i].store.rooms[l], ws[j].store.rooms[l], ws[j].now)
  {
    LobbySince(ws, i, j, l);
  }

  /**
   The revision is a version stamp: the same lobby with the same revision at two
   moments, and active at the later one, has identical members, policy, order,
   entries and votes.
   */
  lemma RevisionIsAStamp(ws: seq<World>, i: nat, j: nat, l: LobbyId)
    requires Run(ws) && i <= j < |ws| && l in ws[i].store.rooms && l in ws[j].store.rooms
    requires ws[i].store.rooms[l].expiresAt == ws[j].store.rooms[l].expiresAt
    ensures ws[i].store.rooms[l].revision <= ws[j].store.rooms[l].revision
    ensures Live(ws[j].store.rooms[l], ws[j].now) ==>
              ws[i].store.rooms[l].revision == ws[j].store.rooms[l].revision ==> ws[i].store.rooms[l] == ws[j].store.rooms[l]
  {
    SameLobbySince(ws, i, j, l);
  }

  /** A closed lobby keeps its tombstone and regains nothing. */
  lemma ClosedStaysVacated(ws: seq<World>, i: nat, j: nat, l: LobbyId)
    requires Run(ws) && i <= j < |ws| && l in ws[i].store.rooms && l in ws[j].store.rooms
    requires ws[i].store.rooms[l].expiresAt == ws[j].store.rooms[l].expiresAt
    requires ws[i].store.rooms[l].closedAt.Some?
    ensures ws[j].store.rooms[l] == ws[i].store.rooms[l] && Vacated(ws[j].store.rooms[l])
  {
    SameLobbySince(ws, i, j, l);
    RunInv(ws, i, j);
  }

  /** What the store promises about lobbies in every reachable state. */
  lemma LobbyStructure(ws: seq<World>, i: nat)
    requires Run(ws) && i < |ws|
    ensures
      var s, now := ws[i].store, ws[i].now;
      && (forall user, a, b :: Holds(s, user, a) && Holds(s, user, b) ==> a == b)
      && (forall l :: l in s.rooms && Live(s.rooms[l], now) ==> exists m :: Holds(s, s.rooms[l].owner, Seat(l, m)))
      && (forall k, l :: k in s.rooms && l in s.rooms && Live(s.rooms[k], now) && Live(s.rooms[l], now) ==>
            s.rooms[k].owner == s.rooms[l].owner ==> k == l)
      && (forall l :: l in s.rooms && s.rooms[l].closedAt.Some? ==> Vacated(s.rooms[l]))
  {
    RunInv(ws, i, i);
    var s, now := ws[i].store, ws[i].now;
    forall l | l in s.rooms && Live(s.rooms[l], now)
      ensures exists m :: Holds(s, s.rooms[l].owner, Seat(l, m))
    {
      assert Sound(s.rooms[l], now);
      var m :| m in s.rooms[l].members && s.rooms[l].members[m].user == s.rooms[l].owner;
      assert Holds(s, s.rooms[l].owner, Seat(l, m));
    }
  }

  /** After every transaction no queued entry of an active lobby with guests has enough active votes. */
  lemma ModerationIsStable(ws: seq<World>, i: nat, l: LobbyId, e: EntryId)
    requires Run(ws) && i < |ws| && l in ws[i].store.rooms && Live(ws[i].store.rooms[l], ws[i].now)
    requires e in ws[i].store.rooms[l].queue && Guests(ws[i].store.rooms[l]) != {}
    ensures ws[i].store.rooms[l].policy.Some?
    ensures ActiveVotes(ws[i].store.rooms[l], e) < Threshold(ws[i].store.rooms[l])
  {
    RunInv(ws, i, i);
    assert Sound(ws[i].store.rooms[l], ws[i].now);
    assert !Qualifies(ws[i].store.rooms[l], e);
  }

  // ---------------------------------------------------------------- what a client saw

  lemma OrderReads(v: QueueView, views: seq<EntryView>)
    requires v.current == if views == [] then None else Some(views[0])
    requires v.upcoming == if views == [] then [] else views[1..]
    ensures |v.Order()| == |views| && forall i :: 0 <= i < |views| ==> v.Order()[i] == views[i].id
  {
  }

  lemma ViewIsOrder(r: Room, l: LobbyId, user: UserId, m: MembershipId)
    requires RoomInv(r) && r.closedAt.None?
    ensures Snapshot(r, l, user, m).Order() == r.queue
    ensures Snapshot(r, l, user, m).revision == r.revision
  {
    var v, views := Snapshot(r, l, user, m), ViewEntries(r, user);
    OrderReads(v, views);
    forall i | 0 <= i < |r.queue| ensures v.Order()[i] == r.queue[i] {
      assert views[i].id == r.queue[i];
    }
  }

  /** The threshold a view reports is the one moderation applies, also while there are no guests. */
  lemma ShownThresholdIsApplied(r: Room, e: EntryId)
    requires RoomInv(r) && r.closedAt.None?
    ensures Qualifies(r, e) <==> EffectiveThreshold(r).Some? && ActiveVotes(r, e) >= EffectiveThreshold(r).value
  {
    VotersWithin(r, e);
    if Guests(r) == {} { assert Voters(r, e) == {}; }
  }

  /** So no view of an active lobby shows an entry with as many votes as the threshold it shows. */
  lemma ViewShowsNothingRipe(ws: seq<World>, i: nat, l: LobbyId, user: UserId, m: MembershipId, e: EntryView)
    requires Run(ws) && i < |ws| && l in ws[i].store.rooms && Live(ws[i].store.rooms[l], ws[i].now)
    requires RoomInv(ws[i].store.rooms[l])
    requires var v := Snapshot(ws[i].store.rooms[l], l, user, m); v.current == Some(e) || e in v.upcoming
    ensures var v := Snapshot(ws[i].store.rooms[l], l, user, m);
      v.voting.effectiveThreshold.Some? ==> e.activeVoteCount < v.voting.effectiveThreshold.value
  {
    RunInv(ws, i, i);
    var r := ws[i].store.rooms[l];
    assert Sound(r, ws[i].now);
    var views := ViewEntries(r, user);
    assert e in views;
    assert e.id in r.queue && e == ViewEntry(r, e.id, user);
    ShownThresholdIsApplied(r, e.id);
  }

  /** A successful reply shows the order and revision its transaction left. */
  lemma ReplyShowsCommit(s: Store, user: Account, m: MembershipId, c: Command, clock: Clock, storage: bool)
    returns (l: LobbyId)
    requires StoreInv(s) && WellTyped(c) && Mutate(s, user, m, c, clock, storage).reply.Ok?
    ensures Authorize(s, user, m, Needs(c), clock) == Ok(l) && Live(s.rooms[l], clock[DEADLINE])
    ensures EditOf(s.rooms[l], user.id, c, clock[WRITE]).Ok?
    ensures
      var tx := Mutate(s, user, m, c, clock, storage);
      var view := tx.reply.value.view;
      && view.lobby == l && l in tx.store.rooms
      && view.revision == tx.store.rooms[l].revision && view.Order() == tx.store.rooms[l].queue
      && tx.store.rooms[l].queue == EditedQueue(s.rooms[l], EditOf(s.rooms[l], user.id, c, clock[WRITE]))
  {
    l := Authorize(s, user, m, Needs(c), clock).value;
    var r := s.rooms[l];
    var edit := EditOf(r, user.id, c, clock[WRITE]);
    if edit.value.None? {
      ViewIsOrder(r, l, user.id, m);
    } else {
      EditKeeps(r, user.id, c, clock[WRITE]);
      BumpKeeps(edit.value.value);
      ViewIsOrder(Bump(edit.value.value), l, user.id, m);
    }
  }

  function EditedQueue(r: Room, edit: Result<Option<Room>, QueueError>): seq<EntryId> {
    if Changes(edit) then edit.value.value.queue else r.queue
  }

  /** A move is accepted only at the stored revision, and relocates the one occurrence. */
  lemma AcceptedMove(r: Room, c: Command) returns (p: nat)
    requires c.Move? && MoveEdit(r, c).Ok?
    ensures r.revision == c.expectedRevision
    ensures 0 < p < |r.queue| && r.queue[p] == c.entry && c.toIndex + 1 < |r.queue|
    ensures EditedQueue(r, MoveEdit(r, c)) == Relocate(r.queue, p, c.toIndex + 1)
  {
    p := IndexOf(r.queue, c.entry).value;
    if p == c.toIndex + 1 {
      assert Relocate(r.queue, p, p) == r.queue;
    }
  }

  /**
   A move accepted at `expected_revision` acts on exactly the order of the view
   that carried that revision, whatever ran in between.
   */
  lemma MoveActsOnTheOrderSeen(ws: seq<World>, i: nat, j: nat, reader: Account, seen: MembershipId, at: Clock,
                               user: Account, m: MembershipId, c: Command, clock: Clock, storage: bool)
    returns (p: nat)
    requires Run(ws) && i <= j < |ws| && StoreInv(ws[i].store) && StoreInv(ws[j].store)
    requires ReadQueue(ws[i].store, reader, seen, at, true).Ok?
    requires c.Move? && ws[j].now <= clock[0] && Mutate(ws[j].store, user, m, c, clock, storage).reply.Ok?
    requires
      var view := ReadQueue(ws[i].store, reader, seen, at, true).value;
      var done := Mutate(ws[j].store, user, m, c, clock, storage).reply.value.view;
      && done.lobby == view.lobby && c.expectedRevision == view.revision
      && view.lobby in ws[i].store.rooms && view.lobby in ws[j].store.rooms
      && ws[j].store.rooms[view.lobby].expiresAt == ws[i].store.rooms[view.lobby].expiresAt
    ensures
      var order := ReadQueue(ws[i].store, reader, seen, at, true).value.Order();
      var done := Mutate(ws[j].store, user, m, c, clock, storage).reply.value.view;
      && 0 < p < |order| && c.toIndex + 1 < |order| && order[p] == c.entry
      && done.Order() == Relocate(order, p, c.toIndex + 1)
  {
    var l := Authorize(ws[i].store, reader, seen, AnyMember, at).value;
    ViewIsOrder(ws[i].store.rooms[l], l, reader.id, seen);
    var k := ReplyShowsCommit(ws[j].store, user, m, c, clock, storage);
    p := AcceptedMove(ws[j].store.rooms[k], c);
    SameLobbySince(ws, i, j, l);
  }

  /** An entry that has left the order never returns to it while its lobby lives. */
  lemma RetiredNeverReturns(ws: seq<World>, i: nat, j: nat, l: LobbyId, e: EntryId)
    requires Run(ws) && i <= j < |ws| && l in ws[i].store.rooms && l in ws[j].store.rooms
    requires ws[i].store.rooms[l].expiresAt == ws[j].store.rooms[l].expiresAt
    requires e in ws[i].store.rooms[l].entries && e !in ws[i].store.rooms[l].queue
    ensures e !in ws[j].store.rooms[l].queue
  {
    SameLobbySince(ws, i, j, l);
    RunInv(ws, i, j);
  }
}
