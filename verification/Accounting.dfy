/**
 What one committed request adds to the revisions: one for every lobby it
 changes, nothing for a refusal, a failure or a no-op.
 */
module Accounting {
  import opened Prelude
  import opened Rooms
  import opened Transactions
  import opened StoreLaws

  /** Exactly the lobbies of `touched` take one revision; no other lobby takes any, and live ones stay equal. */
  ghost predicate Takes(s: Store, s': Store, touched: set<LobbyId>, now: int) {
    && s'.rooms.Keys == s.rooms.Keys && touched <= s.rooms.Keys
    && (forall l :: l in touched ==> s'.rooms[l].revision == s.rooms[l].revision + 1 && Live(s.rooms[l], now))
    && (forall l :: l in s.rooms && l !in touched ==>
          s'.rooms[l].revision == s.rooms[l].revision && (Live(s.rooms[l], now) ==> s'.rooms[l] == s.rooms[l]))
  }

  lemma FinishCommits(s: Store, l: LobbyId, edited: Option<Room>, user: Account, m: MembershipId, clock: Clock)
    requires StoreInv(s) && l in s.rooms && s.rooms[l].closedAt.None?
    requires edited.Some? ==> EditSound(s.rooms[l], edited.value)
    ensures
      var tx := Finish(s, l, edited, user, m, clock);
      && (tx.reply.Ok? ==> Live(s.rooms[l], clock[DEADLINE]) && tx.reply.value.changed == edited.Some?
                           && tx.reply.value.view.lobby == l)
      && (tx.reply.Ok? && edited.Some? ==> tx.reply.value.view.revision == s.rooms[l].revision + 1)
      && tx.store == if tx.reply.Ok? && edited.Some? then Put(s, l, Bump(edited.value)) else s
  {
  }

  /** `changed` says whether the revision of the one lobby shown moved, and a change is visible; else nothing changed. */
  ghost predicate ChangesAsReported(s: Store, tx: Tx<Result<Mutation, QueueError>>, now: int) {
    if tx.reply.Ok? && tx.reply.value.changed
    then Takes(s, tx.store, {tx.reply.value.view.lobby}, now)
         && tx.store.rooms[tx.reply.value.view.lobby] != s.rooms[tx.reply.value.view.lobby]
         && tx.reply.value.view.revision == s.rooms[tx.reply.value.view.lobby].revision + 1
    else tx.store == s
  }

  lemma FinishTakes(s: Store, l: LobbyId, edited: Option<Room>, user: Account, m: MembershipId, clock: Clock)
    requires StoreInv(s) && l in s.rooms && s.rooms[l].closedAt.None?
    requires edited.Some? ==> EditSound(s.rooms[l], edited.value)
    ensures ChangesAsReported(s, Finish(s, l, edited, user, m, clock), clock[DEADLINE])
  {
    FinishCommits(s, l, edited, user, m, clock);
  }

  /** Move, vote, policy, advance and veto report a change exactly when they take one revision of their lobby. */
  lemma EditTakes(s: Store, user: Account, m: MembershipId, c: Command, clock: Clock, storage: bool)
    requires StoreInv(s) && WellTyped(c)
    ensures ChangesAsReported(s, Mutate(s, user, m, c, clock, storage), clock[DEADLINE])
  {
    var bound := Authorize(s, user, m, Needs(c), clock);
    if bound.Ok? {
      MutateFinishes(s, bound.value, user, m, c, clock);
      var edit := EditOf(s.rooms[bound.value], user.id, c, clock[WRITE]);
      if edit.Ok? { FinishTakes(s, bound.value, edit.value, user, m, clock); }
    }
  }

  /** What a successful first submission changes. */
  ghost predicate Appends(s: Store, s': Store, done: Submission, now: int) {
    var l := done.view.lobby;
    && Takes(s, s', {l}, now)
    && s'.rooms[l].queue == s.rooms[l].queue + [done.entry]
    && done.entry !in s.rooms[l].entries && done.active
  }

  lemma AppendTakes(s: Store, l: LobbyId, e: EntryId, entry: Entry, view: QueueView, now: int)
    requires StoreInv(s) && l in s.rooms && Live(s.rooms[l], now) && !EntryTaken(s, e) && view.lobby == l
    ensures
      var r' := Append(s.rooms[l], e, entry);
      Appends(s, s.(rooms := s.rooms[l := Bump(r')]), Submitted(true, e, r', view), now)
  {
    assert e in s.rooms[l].entries ==> EntryTaken(s, e);
  }

  /** What a successful insertion commits: one fresh occurrence at the end, and one revision. */
  ghost predicate Inserted(s: Store, l: LobbyId, e: EntryId, entry: Entry, tx: Tx<Result<Submission, QueueError>>)
    requires l in s.rooms
  {
    var r' := Append(s.rooms[l], e, entry);
    && tx.store == s.(rooms := s.rooms[l := Bump(r')]) && tx.reply.Ok?
    && tx.reply.value.view.lobby == l && tx.reply.value == Submitted(true, e, r', tx.reply.value.view)
  }

  lemma InsertCommits(s: Store, l: LobbyId, user: Account, m: MembershipId, request: RequestId, video: Video,
                      supply: Supply, clock: Clock, e: EntryId, at: int)
    requires StoreInv(s) && l in s.rooms && s.rooms[l].closedAt.None? && ReceiptOf(s.rooms[l], user.id, request).None?
    requires FreshEntry(s, supply, clock, 0) == Some((e, at))
    requires Insert(s, l, user, m, request, video, supply, clock).reply.Ok?
    ensures Inserted(s, l, e, Entry(user.id, request, video, at), Insert(s, l, user, m, request, video, supply, clock))
  {
    AppendKeeps(s, l, user.id, request, e, Entry(user.id, request, video, at));
  }

  lemma InsertTakes(s: Store, l: LobbyId, user: Account, m: MembershipId, request: RequestId, video: Video,
                    supply: Supply, clock: Clock)
    requires StoreInv(s) && l in s.rooms && s.rooms[l].closedAt.None? && ReceiptOf(s.rooms[l], user.id, request).None?
    ensures
      var tx := Insert(s, l, user, m, request, video, supply, clock);
      if tx.reply.Ok? then tx.reply.value.changed && Appends(s, tx.store, tx.reply.value, clock[DEADLINE])
      else tx.store == s
  {
    var tx := Insert(s, l, user, m, request, video, supply, clock);
    if tx.reply.Ok? {
      var (e, at) := FreshEntry(s, supply, clock, 0).value;
      InsertCommits(s, l, user, m, request, video, supply, clock, e, at);
      AppendTakes(s, l, e, Entry(user.id, request, video, at), tx.reply.value.view, clock[DEADLINE]);
    }
  }

  /** Submission: a repeat or a refusal changes nothing; a new one appends exactly one occurrence. */
  lemma SubmitTakes(s: Store, user: Account, m: MembershipId, request: RequestId, video: Video,
                    supply: Supply, clock: Clock, storage: bool)
    requires StoreInv(s)
    ensures
      var tx := Submit(s, user, m, request, video, supply, clock, storage);
      if tx.reply.Ok? && tx.reply.value.changed then Appends(s, tx.store, tx.reply.value, clock[DEADLINE])
      else tx.store == s
  {
    var bound := Authorize(s, user, m, AnyMember, clock);
    if bound.Ok? && ReceiptOf(s.rooms[bound.value], user.id, request).None? {
      InsertTakes(s, bound.value, user, m, request, video, supply, clock);
    }
  }

  lemma StaleLeaveTakes(s: Store, l: LobbyId, m: MembershipId, now: int)
    requires StoreInv(s) && Seated(s, m, l) && !Live(s.rooms[l], now)
    ensures var s' := s.(rooms := s.rooms[l := Unseat(s.rooms[l], m)]);
      Takes(s, s', {}, now) && !(exists k :: Seated(s', m, k))
  {
    var s' := s.(rooms := s.rooms[l := Unseat(s.rooms[l], m)]);
    assert forall k :: Seated(s', m, k) ==> Seated(s, m, k);
  }

  lemma LiveLeaveTakes(s: Store, l: LobbyId, m: MembershipId, user: UserId, now: int)
    requires StoreInv(s) && Seated(s, m, l) && Live(s.rooms[l], now) && s.rooms[l].policy.Some?
    ensures
      var r' := if s.rooms[l].owner == user then Close(s.rooms[l], now) else Depart(s.rooms[l], m);
      var s' := s.(rooms := s.rooms[l := r']);
      && Takes(s, s', {l}, now) && r'.revision == s.rooms[l].revision + 1 && !Seated(s', m, l)
      && (s.rooms[l].owner == user <==> r'.closedAt.Some?) && (s.rooms[l].owner == user ==> Vacated(r'))
  {
  }

  /** Leaving takes one revision of a live lobby and names it; a stale release takes none. */
  lemma LeaveTakes(s: Store, user: UserId, m: MembershipId, now: int, storage: bool)
    requires StoreInv(s)
    ensures
      var tx := Leave(s, user, m, now, storage);
      match tx.reply
      case Err(_) => tx.store == s
      case Ok(None) => Takes(s, tx.store, {}, now) && !(exists l :: Seated(tx.store, m, l))
      case Ok(Some((l, revision))) =>
        && Takes(s, tx.store, {l}, now) && tx.store.rooms[l].revision == revision
        && Seated(s, m, l) && !Seated(tx.store, m, l)
        && (s.rooms[l].owner == user <==> tx.store.rooms[l].closedAt.Some?)
        && (s.rooms[l].owner == user ==> Vacated(tx.store.rooms[l]))
  {
    if Locate(s, m).Some? {
      var l := Locate(s, m).value;
      if Live(s.rooms[l], now) { LiveLeaveTakes(s, l, m, user, now); } else { StaleLeaveTakes(s, l, m, now); }
    }
  }

  /** What a successful join reply says, given the lobbies that took a revision. */
  ghost predicate JoinReply(s: Store, s': Store, user: UserId, done: Joined, now: int) {
    var touched := (if done.changed then {done.view.lobby} else {})
                 + (if done.departed.Some? then {done.departed.value.0} else {});
    && Takes(s, s', touched, now)
    && Holds(s', user, Seat(done.view.lobby, done.view.membership))
    && s'.rooms[done.view.lobby].revision == done.view.revision
    && (done.departed.Some? ==> done.departed.value.0 != done.view.lobby
                                && s'.rooms[done.departed.value.0].revision == done.departed.value.1)
  }

  lemma ReclaimRevisions(s: Store, user: UserId, now: int)
    ensures forall l :: l in s.rooms ==> l in Reclaim(s, user, now).rooms
                                         && Reclaim(s, user, now).rooms[l].revision == s.rooms[l].revision
  {
  }

  lemma ReclaimTakes(s: Store, user: UserId, now: int)
    requires StoreInv(s)
    ensures Takes(s, Reclaim(s, user, now), {}, now)
  {
    ReclaimSeats(s, user, now);
    ReclaimRevisions(s, user, now);
  }

  lemma TwoPutsTake(s: Store, k: LobbyId, rk: Room, l: LobbyId, rl: Room, now: int)
    requires k in s.rooms && l in s.rooms && k != l && Live(s.rooms[k], now) && Live(s.rooms[l], now)
    requires rk.revision == s.rooms[k].revision + 1 && rl.revision == s.rooms[l].revision + 1
    ensures Takes(s, Put(Put(s, k, rk), l, rl), {l} + {k}, now)
  {
  }

  lemma EnterReply(s: Store, user: UserId, l: LobbyId, now: int, supply: Supply, departed: Option<(LobbyId, int)>)
    requires l in s.rooms && s.rooms[l].policy.Some?
    ensures
      var entered := Enter(s, user, l, now, supply, departed);
      entered.Ok? ==>
        var (s', done) := entered.value;
        && done.changed && done.departed == departed && done.view.lobby == l && l in s'.rooms
        && s' == Put(s, l, s'.rooms[l])
        && s'.rooms[l].revision == s.rooms[l].revision + 1 == done.view.revision
        && Holds(s', user, Seat(l, done.view.membership))
  {
  }

  lemma EnterTakes(s: Store, s1: Store, user: UserId, l: LobbyId, now: int, supply: Supply)
    requires StoreInv(s) && Takes(s, s1, {}, now) && l in s.rooms && Live(s.rooms[l], now)
    ensures Live(s1.rooms[l], now) && s1.rooms[l].policy.Some?
    ensures
      var entered := Enter(s1, user, l, now, supply, None);
      entered.Ok? ==> JoinReply(s, entered.value.0, user, entered.value.1, now)
  {
    EnterReply(s1, user, l, now, supply, None);
  }

  lemma TransferTakes(s: Store, user: UserId, l: LobbyId, at: Seat, now: int, supply: Supply)
    requires StoreInv(s) && l in s.rooms && Live(s.rooms[l], now)
    requires Holds(s, user, at) && Live(s.rooms[at.lobby], now) && at.lobby != l
    ensures
      var home := s.rooms[at.lobby];
      var entered := Enter(Put(s, at.lobby, Depart(home, at.membership)), user, l, now, supply,
                           Some((at.lobby, home.revision + 1)));
      entered.Ok? ==> JoinReply(s, entered.value.0, user, entered.value.1, now)
  {
    var home := s.rooms[at.lobby];
    var left := Depart(home, at.membership);
    var departed := Some((at.lobby, home.revision + 1));
    var s2 := Put(s, at.lobby, left);
    EnterReply(s2, user, l, now, supply, departed);
    var entered := Enter(s2, user, l, now, supply, departed);
    if entered.Ok? {
      TwoPutsTake(s, at.lobby, left, l, entered.value.0.rooms[l], now);
    }
  }

  /** What a join does to the revisions, as its reply tells it. */
  ghost predicate JoinTook(s: Store, user: UserId, tx: Tx<Result<Joined, LobbyError>>, now: int) {
    match tx.reply
    case Err(_) => tx.store == s
    case Ok(done) => JoinReply(s, tx.store, user, done, now)
  }

  lemma EnteringTakes(s: Store, user: UserId, l: LobbyId, now: int, supply: Supply)
    requires StoreInv(s) && l in s.rooms && Live(s.rooms[l], now)
    ensures var s1 := Reclaim(s, user, now);
      l in s1.rooms && s1.rooms[l].policy.Some? && JoinTook(s, user, JoinFrom(s, s1, None, user, l, now, supply), now)
  {
    ReclaimTakes(s, user, now);
    EnterTakes(s, Reclaim(s, user, now), user, l, now, supply);
  }

  lemma StayingTakes(s: Store, user: UserId, at: Seat, now: int, supply: Supply)
    requires StoreInv(s) && Holds(s, user, at) && Live(s.rooms[at.lobby], now)
    ensures JoinTook(s, user, JoinFrom(s, s, Some(at), user, at.lobby, now, supply), now)
  {
    assert Takes(s, s, {}, now);
    var done := Joined(ViewLobby(s.rooms[at.lobby], at.lobby, at.membership), false, None);
    assert Seat(done.view.lobby, done.view.membership) == at;
    assert JoinReply(s, s, user, done, now);
  }

  /** A join that moves a guest over either restores the store, or is the entering that follows the departure. */
  lemma MovesOver(s: Store, user: UserId, at: Seat, l: LobbyId, now: int, supply: Supply)
    requires l in s.rooms && s.rooms[l].policy.Some? && Seated(s, at.membership, at.lobby) && at.lobby != l
    requires s.rooms[at.lobby].policy.Some?
    ensures
      var home := s.rooms[at.lobby];
      var entered := Enter(Put(s, at.lobby, Depart(home, at.membership)), user, l, now, supply, Some((at.lobby, home.revision + 1)));
      var tx := JoinFrom(s, s, Some(at), user, l, now, supply);
      if tx.reply.Ok? then entered.Ok? && tx == Tx(entered.value.0, Ok(entered.value.1)) else tx.store == s
  {
  }

  lemma MovingTakes(s: Store, user: UserId, at: Seat, l: LobbyId, now: int, supply: Supply)
    requires StoreInv(s) && Holds(s, user, at) && Live(s.rooms[at.lobby], now) && l in s.rooms && Live(s.rooms[l], now)
    requires at.lobby != l
    ensures JoinTook(s, user, JoinFrom(s, s, Some(at), user, l, now, supply), now)
  {
    TransferTakes(s, user, l, at, now, supply);
    MovesOver(s, user, at, l, now, supply);
  }

  /** Joining takes one revision of the target, and one of a lobby the guest is moved out of. */
  lemma JoinTakes(s: Store, user: UserId, code: JoinCode, now: int, supply: Supply, storage: bool)
    requires StoreInv(s)
    ensures JoinTook(s, user, Join(s, user, code, now, supply, storage), now)
  {
    if storage && Representable(now) && user in s.users && Invited(s, code, now).Some? {
      var l := Invited(s, code, now).value;
      ReclaimSeats(s, user, now);
      match SeatOf(Reclaim(s, user, now), user)
      case None => EnteringTakes(s, user, l, now, supply);
      case Some(at) =>
        if at.lobby == l { StayingTakes(s, user, at, now, supply); } else { MovingTakes(s, user, at, l, now, supply); }
    }
  }

  /** A founded lobby starts at revision one with its owner as the only member; nothing else takes a revision. */
  lemma CreateTakes(s: Store, user: UserId, now: int, supply: Candidates, storage: bool)
    requires StoreInv(s)
    ensures
      var tx := Create(s, user, now, supply, storage);
      match tx.reply
      case Err(_) => tx.store == s
      case Ok(view) =>
        && view.lobby !in s.rooms && tx.store.rooms.Keys == s.rooms.Keys + {view.lobby}
        && view.revision == 1 && view.expiresAt == now + LOBBY_SECONDS && view.roster == {Member(user, now)}
        && Holds(tx.store, user, Seat(view.lobby, view.membership))
        && Takes(s, tx.store.(rooms := tx.store.rooms - {view.lobby}), {}, now)
  {
    var tx := Create(s, user, now, supply, storage);
    if tx.reply.Ok? {
      ReclaimSeats(s, user, now);
      ReclaimRevisions(s, user, now);
      var c := FreshLobby(Reclaim(s, user, now), supply, 0).value;
      var r := Founded(c, user, now);
      assert r.members[c.membership] == Member(user, now);
    }
  }

  /** Cleanup removes only lobbies whose deadline has passed, and leaves the others alone. */
  lemma ExpireRemovesOnlyEnded(s: Store, asOf: int)
    ensures Expire(s, asOf).users == s.users
    ensures forall l :: l in Expire(s, asOf).rooms <==> l in s.rooms && asOf < s.rooms[l].expiresAt
    ensures forall l :: l in Expire(s, asOf).rooms ==> Expire(s, asOf).rooms[l] == s.rooms[l]
  {
  }

  // ---------------------------------------------------------------- cleanup is not seen

  lemma CleanupLocates(s: Store, asOf: int, m: MembershipId)
    requires StoreInv(s)
    ensures StoreInv(Expire(s, asOf))
    ensures Locate(Expire(s, asOf), m) ==
            if Locate(s, m).Some? && asOf < s.rooms[Locate(s, m).value].expiresAt then Locate(s, m) else None
  {
    ExpireKeeps(s, asOf);
    ExpireRemovesOnlyEnded(s, asOf);
    var s' := Expire(s, asOf);
    assert forall l :: Seated(s', m, l) <==> Seated(s, m, l) && asOf < s.rooms[l].expiresAt;
  }

  /** Whom a request at any time from `asOf` on is let through for, and with which refusal, does not depend on the cleanup. */
  lemma CleanupAuthorizesAlike(s: Store, asOf: int, user: Account, m: MembershipId, permission: Permission, clock: Clock)
    requires StoreInv(s) && asOf <= clock[1]
    ensures StoreInv(Expire(s, asOf)) && Authorize(Expire(s, asOf), user, m, permission, clock) == Authorize(s, user, m, permission, clock)
  {
    CleanupLocates(s, asOf, m);
  }

  lemma CleanupCurrentAlike(s: Store, asOf: int, user: UserId, asked: int, answered: int, storage: bool)
    requires StoreInv(s) && asOf <= asked
    ensures StoreInv(Expire(s, asOf)) && Current(Expire(s, asOf), user, asked, answered, storage) == Current(s, user, asked, answered, storage)
  {
    ExpireKeeps(s, asOf);
    var s' := Expire(s, asOf);
    assert forall at :: Holds(s', user, at) <==> Holds(s, user, at) && asOf < s.rooms[at.lobby].expiresAt;
  }

  /** The reply of an edit depends on its lobby alone. */
  lemma FinishSeesItsLobby(s: Store, t: Store, l: LobbyId, edited: Option<Room>, user: Account, m: MembershipId,
                           clock: Clock)
    requires StoreInv(s) && StoreInv(t) && l in s.rooms && l in t.rooms && s.rooms[l] == t.rooms[l]
    requires s.rooms[l].closedAt.None? && (edited.Some? ==> EditSound(s.rooms[l], edited.value))
    ensures Finish(s, l, edited, user, m, clock).reply == Finish(t, l, edited, user, m, clock).reply
  {
  }

  lemma ExpirePut(s: Store, asOf: int, l: LobbyId, r: Room)
    requires l in s.rooms && asOf < s.rooms[l].expiresAt == r.expiresAt
    ensures Put(Expire(s, asOf), l, r) == Expire(Put(s, l, r), asOf)
  {
    assert Put(Expire(s, asOf), l, r).rooms == Expire(Put(s, l, r), asOf).rooms;
  }

  /** The tail of an edit, before and after a cleanup that left its lobby. */
  lemma CleanupFinishesAlike(s: Store, asOf: int, l: LobbyId, edited: Option<Room>, user: Account, m: MembershipId,
                             clock: Clock)
    requires StoreInv(s) && StoreInv(Expire(s, asOf)) && l in s.rooms && s.rooms[l].closedAt.None?
    requires asOf < s.rooms[l].expiresAt
    requires edited.Some? ==> EditSound(s.rooms[l], edited.value)
    ensures
      var tx := Finish(s, l, edited, user, m, clock);
      Finish(Expire(s, asOf), l, edited, user, m, clock) == Tx(Expire(tx.store, asOf), tx.reply)
  {
    var s' := Expire(s, asOf);
    FinishSeesItsLobby(s, s', l, edited, user, m, clock);
    FinishCommits(s, l, edited, user, m, clock);
    FinishCommits(s', l, edited, user, m, clock);
    if edited.Some? { ExpirePut(s, asOf, l, Bump(edited.value)); }
  }

  lemma CleanupMutatesAlike(s: Store, asOf: int, user: Account, m: MembershipId, c: Command, clock: Clock, storage: bool)
    requires StoreInv(s) && StoreInv(Expire(s, asOf)) && WellTyped(c) && asOf <= clock[1]
    ensures Mutate(Expire(s, asOf), user, m, c, clock, storage) ==
            Tx(Expire(Mutate(s, user, m, c, clock, storage).store, asOf), Mutate(s, user, m, c, clock, storage).reply)
  {
    CleanupAuthorizesAlike(s, asOf, user, m, Needs(c), clock);
    var s' := Expire(s, asOf);
    match Authorize(s, user, m, Needs(c), clock)
    case Err(_) =>
    case Ok(l) =>
      MutateFinishes(s, l, user, m, c, clock);
      MutateFinishes(s', l, user, m, c, clock);
      match EditOf(s.rooms[l], user.id, c, clock[WRITE])
      case Err(_) =>
      case Ok(edited) => CleanupFinishesAlike(s, asOf, l, edited, user, m, clock);
  }

  /**
   Cleaning up ended lobbies is unseen: at any time from `asOf` on every account is granted the same authority, reads
   the same queue and the same current lobby, and gets the same reply to every edit; and it makes no difference to
   what is stored whether the cleanup runs before the edit or after it.
   */
  lemma CleanupIsUnseen(s: Store, asOf: int, user: Account, m: MembershipId, c: Command, clock: Clock, storage: bool)
    requires StoreInv(s) && WellTyped(c) && asOf <= clock[0]
    ensures StoreInv(Expire(s, asOf))
    ensures forall p: Permission :: Authorize(Expire(s, asOf), user, m, p, clock) == Authorize(s, user, m, p, clock)
    ensures ReadQueue(Expire(s, asOf), user, m, clock, storage) == ReadQueue(s, user, m, clock, storage)
    ensures Current(Expire(s, asOf), user.id, clock[0], clock[1], storage) == Current(s, user.id, clock[0], clock[1], storage)
    ensures Mutate(Expire(s, asOf), user, m, c, clock, storage) ==
            Tx(Expire(Mutate(s, user, m, c, clock, storage).store, asOf), Mutate(s, user, m, c, clock, storage).reply)
  {
    ExpireKeeps(s, asOf);
    forall p: Permission ensures Authorize(Expire(s, asOf), user, m, p, clock) == Authorize(s, user, m, p, clock) {
      CleanupAuthorizesAlike(s, asOf, user, m, p, clock);
    }
    CleanupMutatesAlike(s, asOf, user, m, c, clock, storage);
    CleanupCurrentAlike(s, asOf, user.id, clock[0], clock[1], storage);
  }
}
