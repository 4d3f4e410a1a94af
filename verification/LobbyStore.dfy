/**
 The store: relational tables, and transactions that work on uncommitted rows
 and either commit all of them or leave every table as it was.  Without
 `storage` some statement fails, and the rows worked on are dropped.  Each
 operation is proved to do to the represented lobbies, and to reply, exactly
 what its transaction in Transactions says.
 */
module LobbyStores {
  import opened Prelude
  import opened Ordering
  import opened Rooms
  import opened Transactions
  import opened StoreLaws
  import opened Accounting
  import opened Tables
  import opened Statements

  class LobbyStore {
    var users: set<UserId>
    var lobbies: map<LobbyId, LobbyRow>
    var members: map<MembershipId, MemberRow>
    var policies: map<LobbyId, Policy>
    var entries: map<EntryId, EntryRow>
    var order: OrderTable
    var votes: map<(EntryId, UserId), int>

    /** The committed rows, as a transaction finds them. */
    function Rows(): Db
      reads this
    {
      Db(users, lobbies, members, policies, entries, order, votes)
    }

    ghost function Contents(): Store
      reads this
    {
      Abs(Rows())
    }

    ghost predicate Valid()
      reads this
    {
      Integrity(Rows()) && StoreInv(Contents())
    }

    constructor ()
      ensures Valid() && Contents() == Store({}, map[])
    {
      users, lobbies, members, policies, entries, order, votes := {}, map[], map[], map[], map[], map[], map[];
      new;
      forall l ensures Dense(order, l, |Positions(order, l)|) { assert Dense(order, l, 0); DenseCount(order, l, 0); }
    }

    method Commit(t: Db)
      modifies this
      ensures Rows() == t
    {
      users, lobbies, members, policies := t.users, t.lobbies, t.members, t.policies;
      entries, order, votes := t.entries, t.order, t.votes;
    }

    /** The end of a queue mutation: snapshot of the new rows, deadlines, commit. */
    method Conclude(t: Db, lobby: LobbyId, user: Account, membership: MembershipId, changed: bool, clock: Clock)
      returns (r: Result<Mutation, QueueError>)
      requires Integrity(t) && lobby in t.lobbies && RoomInv(RoomOf(t, lobby)) && t.lobbies[lobby].closedAt.None?
      modifies this
      ensures
        match Deadlines(t.lobbies[lobby].expiresAt, user, clock[DEADLINE])
        case Some(e) => Rows() == old(Rows()) && r == Err(e)
        case None => Rows() == t && r == Ok(Mutation(changed, Snapshot(RoomOf(t, lobby), lobby, user.id, membership)))
    {
      var view := SelectView(t, lobby, user.id, membership);
      var late := Deadlines(t.lobbies[lobby].expiresAt, user, clock[DEADLINE]);
      if late.Some? { return Err(late.value); }
      Commit(t);
      r := Ok(Mutation(changed, view.value));
    }

    /** Takes one revision for rows that edit one lobby, then concludes. */
    method Settle(t: Db, t1: Db, lobby: LobbyId, ghost next: Room, user: Account, membership: MembershipId,
                  clock: Clock)
      returns (r: Result<Mutation, QueueError>)
      requires Valid() && t == Rows() && lobby in t.lobbies && t.lobbies[lobby].closedAt.None? && t1.lobbies == t.lobbies
      requires Integrity(t1) && Abs(t1) == Put(Abs(t), lobby, next) && EditSound(Abs(t).rooms[lobby], next)
      modifies this
      ensures Valid()
      ensures
        var tx := Finish(Abs(t), lobby, Some(next), user, membership, clock);
        Contents() == tx.store && r == tx.reply
    {
      var taken := TakeRevision(t, t1, lobby, next);
      if taken.None? { return Err(Unavailable); }
      EditCommits(Abs(t), lobby, next);
      assert RoomInv(Abs(taken.value).rooms[lobby]);
      r := Conclude(taken.value, lobby, user, membership, true, clock);
    }

    /** Writes a planned order and one revision, then concludes; with no plan it only concludes. */
    method Execute(t: Db, lobby: LobbyId, plan: Option<seq<EntryId>>, user: Account, membership: MembershipId,
                   clock: Clock)
      returns (r: Result<Mutation, QueueError>)
      requires Valid() && t == Rows() && lobby in t.lobbies && t.lobbies[lobby].closedAt.None?
      requires plan.Some? ==> EditSound(Abs(t).rooms[lobby], Abs(t).rooms[lobby].(queue := plan.value))
      modifies this
      ensures Valid()
      ensures
        var room := Abs(t).rooms[lobby];
        var tx := Finish(Abs(t), lobby, Replanned(room, plan), user, membership, clock);
        Contents() == tx.store && r == tx.reply
    {
      assert RoomInv(Abs(t).rooms[lobby]);
      if plan.None? {
        r := Conclude(t, lobby, user, membership, false, clock);
      } else {
        var order := ReplaceOrder(t.order, lobby, plan.value);
        QueueRows(t, lobby);
        ReplaceOrderRefines(t, lobby, plan.value);
        r := Settle(t, t.(order := order), lobby, RoomOf(t, lobby).(queue := plan.value), user, membership, clock);
      }
    }

    // -------------------------------------------------------------- queue transactions

    method MoveQueue(user: Account, membership: MembershipId, entry: EntryId, expectedRevision: int, toIndex: nat,
                     clock: Clock, storage: bool)
      returns (r: Result<Mutation, QueueError>)
      requires Valid()
      modifies this
      ensures Valid()
      ensures
        var tx := Mutate(old(Contents()), user, membership, Command.Move(entry, expectedRevision, toIndex), clock, storage);
        Contents() == tx.store && r == tx.reply
    {
      if !storage { return Err(Storage); }
      var t := Rows();
      var bound := CheckAuthority(t, user, membership, Host, clock);
      if bound.Err? { return Err(bound.error); }
      assert RoomInv(Abs(t).rooms[bound.value.lobby]);
      var plan := PlanMove(t, bound.value, entry, expectedRevision, toIndex);
      PlanDecides(Abs(t), user, membership, Command.Move(entry, expectedRevision, toIndex),
                  clock, bound.value.lobby, plan);
      if plan.Err? { return Err(plan.error); }
      r := Execute(t, bound.value.lobby, plan.value, user, membership, clock);
    }

    method AdvanceQueue(user: Account, membership: MembershipId, expected: EntryId, clock: Clock, storage: bool)
      returns (r: Result<Mutation, QueueError>)
      requires Valid()
      modifies this
      ensures Valid()
      ensures
        var tx := Mutate(old(Contents()), user, membership, Advance(expected), clock, storage);
        Contents() == tx.store && r == tx.reply
    {
      if !storage { return Err(Storage); }
      var t := Rows();
      var bound := CheckAuthority(t, user, membership, Host, clock);
      if bound.Err? { return Err(bound.error); }
      assert RoomInv(Abs(t).rooms[bound.value.lobby]);
      var plan := PlanAdvance(t, bound.value.lobby, expected);
      PlanDecides(Abs(t), user, membership, Advance(expected), clock, bound.value.lobby, plan);
      if plan.Err? { return Err(plan.error); }
      r := Execute(t, bound.value.lobby, plan.value, user, membership, clock);
    }

    method VetoQueue(user: Account, membership: MembershipId, entry: EntryId, clock: Clock, storage: bool)
      returns (r: Result<Mutation, QueueError>)
      requires Valid()
      modifies this
      ensures Valid()
      ensures
        var tx := Mutate(old(Contents()), user, membership, Veto(entry), clock, storage);
        Contents() == tx.store && r == tx.reply
    {
      if !storage { return Err(Storage); }
      var t := Rows();
      var bound := CheckAuthority(t, user, membership, Host, clock);
      if bound.Err? { return Err(bound.error); }
      assert RoomInv(Abs(t).rooms[bound.value.lobby]);
      var plan := PlanVeto(t, bound.value.lobby, entry);
      assert Abs(t).rooms[bound.value.lobby] == RoomOf(t, bound.value.lobby);
      VetoPlanDecides(Abs(t), user, membership, entry, clock, bound.value.lobby, plan);
      r := Execute(t, bound.value.lobby, plan, user, membership, clock);
    }

    method ModerateQueue(user: Account, membership: MembershipId, operation: Moderation, clock: Clock, storage: bool)
      returns (r: Result<Mutation, QueueError>)
      requires Valid() && WellTyped(CommandOf(operation))
      modifies this
      ensures Valid()
      ensures
        var tx := Mutate(old(Contents()), user, membership, CommandOf(operation), clock, storage);
        Contents() == tx.store && r == tx.reply
    {
      if !storage { return Err(Storage); }
      var t := Rows();
      var permission := if operation.VoteOn? then Guest else Host;
      var bound := CheckAuthority(t, user, membership, permission, clock);
      if bound.Err? { return Err(bound.error); }
      var lobby := bound.value.lobby;
      assert RoomInv(Abs(t).rooms[lobby]);
      var edited := ModerateRows(t, lobby, user.id, operation, clock[WRITE]);
      ghost var next := EditOf(Abs(t).rooms[lobby], user.id, CommandOf(operation), clock[WRITE]);
      EditDecides(Abs(t), user, membership, CommandOf(operation), clock, lobby);
      if edited.Err? { return Err(edited.error); }
      if edited.value.None? {
        r := Conclude(t, lobby, user, membership, false, clock);
      } else {
        r := Settle(t, edited.value.value, lobby, next.value.value, user, membership, clock);
      }
    }

    method QueueView(user: Account, membership: MembershipId, clock: Clock, storage: bool)
      returns (r: Result<Rooms.QueueView, QueueError>)
      requires Valid()
      ensures r == ReadQueue(Contents(), user, membership, clock, storage)
    {
      if !storage { return Err(Storage); }
      var t := Rows();
      var bound := CheckAuthority(t, user, membership, AnyMember, clock);
      if bound.Err? { return Err(bound.error); }
      assert RoomInv(Abs(t).rooms[bound.value.lobby]);
      var view := SelectView(t, bound.value.lobby, user.id, membership);
      var late := Deadlines(bound.value.expiresAt, user, clock[DEADLINE]);
      if late.Some? { return Err(late.value); }
      r := view;
    }

    method QueueReceipt(user: Account, membership: MembershipId, request: RequestId, video: string, clock: Clock,
                        storage: bool)
      returns (r: Result<Option<Submission>, QueueError>)
      requires Valid()
      ensures r == ReadReceipt(Contents(), user, membership, request, video, clock, storage)
    {
      if !storage { return Err(Storage); }
      var t := Rows();
      var bound := CheckAuthority(t, user, membership, AnyMember, clock);
      if bound.Err? { return Err(bound.error); }
      var lobby := bound.value.lobby;
      assert RoomInv(Abs(t).rooms[lobby]);
      var found := SelectReceipt(t, lobby, user.id, request);
      var response := None;
      if found.Some? {
        if t.entries[found.value].video.videoId != video { return Err(IdempotencyConflict); }
        var view := SelectView(t, lobby, user.id, membership);
        var ids := SelectOrder(t.order, lobby);
        response := Some(Submission(false, found.value, found.value in ids, view.value));
      }
      var late := Deadlines(bound.value.expiresAt, user, clock[DEADLINE]);
      if late.Some? { return Err(late.value); }
      r := Ok(response);
    }

    method SubmitQueue(user: Account, membership: MembershipId, request: RequestId, video: Video,
                       supply: Supply, clock: Clock, storage: bool)
      returns (r: Result<Submission, QueueError>)
      requires Valid()
      modifies this
      ensures Valid()
      ensures
        var tx := Submit(old(Contents()), user, membership, request, video, supply, clock, storage);
        Contents() == tx.store && r == tx.reply
    {
      if !storage { return Err(Storage); }
      var t := Rows();
      var bound := CheckAuthority(t, user, membership, AnyMember, clock);
      if bound.Err? { return Err(bound.error); }
      var lobby := bound.value.lobby;
      assert RoomInv(Abs(t).rooms[lobby]);
      var found := SelectReceipt(t, lobby, user.id, request);
      if found.Some? {
        if t.entries[found.value].video.videoId != video.videoId { return Err(IdempotencyConflict); }
        var view := SelectView(t, lobby, user.id, membership);
        var ids := SelectOrder(t.order, lobby);
        var late := Deadlines(bound.value.expiresAt, user, clock[DEADLINE]);
        if late.Some? { return Err(late.value); }
        return Ok(Submission(false, found.value, found.value in ids, view.value));
      }
      r := InsertSubmission(t, lobby, user, membership, request, video, supply, clock);
    }

    /** The writing half of submit_queue, once no receipt was found. */
    method InsertSubmission(t: Db, lobby: LobbyId, user: Account, membership: MembershipId, request: RequestId,
                            video: Video,
                            supply: Supply, clock: Clock)
      returns (r: Result<Submission, QueueError>)
      requires Valid() && t == Rows() && lobby in t.lobbies && t.lobbies[lobby].closedAt.None?
      requires ReceiptOf(Abs(t).rooms[lobby], user.id, request).None?
      modifies this
      ensures Valid()
      ensures
        var tx := Insert(Abs(t), lobby, user, membership, request, video, supply, clock);
        Contents() == tx.store && r == tx.reply
    {
      var inserted := InsertRows(t, lobby, user.id, request, video, supply, clock);
      if inserted.None? { return Err(Unavailable); }
      var (t1, e) := inserted.value;
      InsertStores(Abs(t), lobby, user, membership, request, video, supply, clock, RoomOf(t1, lobby));
      var view := SelectView(t1, lobby, user.id, membership);
      var late := Deadlines(t.lobbies[lobby].expiresAt, user, clock[DEADLINE]);
      if late.Some? { return Err(late.value); }
      Commit(t1);
      r := Ok(Submission(true, e, true, view.value));
    }

    // -------------------------------------------------------------- lobby transactions

    method LeaveLobby(user: UserId, membership: MembershipId, now: int, storage: bool)
      returns (r: Result<Option<(LobbyId, int)>, LobbyError>)
      requires Valid()
      modifies this
      ensures Valid()
      ensures
        var tx := Leave(old(Contents()), user, membership, now, storage);
        Contents() == tx.store && r == tx.reply
    {
      if !storage { return Err(LobbyStorage); }
      var t := Rows();
      LocateRefines(t, membership);
      LeaveKeeps(Abs(t), user, membership, now, storage);
      LeaveTakes(Abs(t), user, membership, now, storage);
      if !Representable(now) { return Err(TemporarilyUnavailable); }
      if user !in t.users { return Err(LobbyUnauthorized); }
      if membership !in t.members { return Ok(None); }
      if t.members[membership].user != user { return Err(NotYours); }
      SeatedRow(t, membership);
      LeaveDecides(t, user, membership, now);
      var left := LeaveRows(t, user, membership, now);
      if left.Err? { return Err(left.error); }
      Commit(left.value.0);
      r := Ok(left.value.1);
    }

    method JoinLobby(user: UserId, code: JoinCode, now: int, supply: Supply, storage: bool)
      returns (r: Result<Joined, LobbyError>)
      requires Valid()
      modifies this
      ensures Valid()
      ensures
        var tx := Join(old(Contents()), user, code, now, supply, storage);
        Contents() == tx.store && r == tx.reply
    {
      if !storage { return Err(LobbyStorage); }
      var t := Rows();
      JoinKeeps(Abs(t), user, code, now, supply, storage);
      JoinTakes(Abs(t), user, code, now, supply, storage);
      var joined := JoinRows(t, user, code, now, supply);
      if joined.Err? { return Err(joined.error); }
      Commit(joined.value.0);
      r := Ok(joined.value.1);
    }

    method CreateOwnedLobby(user: UserId, now: int, supply: Candidates, storage: bool)
      returns (r: Result<LobbyView, LobbyError>)
      requires Valid()
      modifies this
      ensures Valid()
      ensures
        var tx := Create(old(Contents()), user, now, supply, storage);
        Contents() == tx.store && r == tx.reply
    {
      if !storage { return Err(LobbyStorage); }
      var t := Rows();
      CreateKeeps(Abs(t), user, now, supply, storage);
      CreateTakes(Abs(t), user, now, supply, storage);
      var created := CreateRows(t, user, now, supply);
      if created.Err? { return Err(created.error); }
      Commit(created.value.0);
      r := Ok(created.value.1);
    }

    /** delete_expired_lobbies, with its cascades; it answers how many lobbies went. */
    method DeleteExpired(asOf: int, storage: bool) returns (r: Result<nat, LobbyError>)
      requires Valid()
      modifies this
      ensures Valid() && Contents() == if storage then Expire(old(Contents()), asOf) else old(Contents())
      ensures r == if storage then Ok(|old(Contents()).rooms.Keys - Contents().rooms.Keys|) else Err(LobbyStorage)
    {
      if !storage { return Err(LobbyStorage); }
      var t := Rows();
      var ended := Ended(t, asOf);
      ExpireRefines(t, asOf);
      ExpireKeeps(Abs(t), asOf);
      Commit(WithoutLobbies(t, ended));
      assert ended == old(Contents()).rooms.Keys - Contents().rooms.Keys;
      return Ok(|ended|);
    }

    method RegisterUser(id: UserId)
      requires Valid()
      modifies this`users
      ensures Valid()
      ensures Contents() == old(Contents()).(users := old(Contents()).users + {id})
    {
      RegisterKeeps(Contents(), id);
      InsertUserRefines(Rows(), id);
      users := users + {id};
    }

    method BoundStreamState(user: UserId, membership: MembershipId, lobby: LobbyId) returns (r: Option<Sighting>)
      requires Valid()
      ensures r == Observe(Contents(), user, membership, lobby)
    {
      r := SelectSighting(Rows(), user, membership, lobby);
    }

    method CurrentLobby(user: UserId, asked: int, answered: int, storage: bool) returns (r: Result<Option<LobbyView>,
                        LobbyError>)
      requires Valid()
      ensures r == Current(Contents(), user, asked, answered, storage)
    {
      if !storage { return Err(LobbyStorage); }
      r := SelectCurrent(Rows(), user, asked, answered);
    }
  }
}
