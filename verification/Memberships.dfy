/**
 Leaving, closing, joining, moving over, founding and looking up a lobby: what each leaves of every lobby and answers,
 told from the stored memberships.
 */
module Memberships {
  import opened Prelude
  import opened Ordering
  import opened Rooms
  import opened Transactions
  import opened StoreLaws

  // ---------------------------------------------------------------- one lobby

  /** `r'` is `r` after the guest membership `m` went: the rest moderated without it, and one revision taken. */
  ghost predicate Departed(r: Room, r': Room, m: MembershipId)
    requires r.policy.Some?
  {
    r'.revision == r.revision + 1 && Moderated(r, r.(members := r.members - {m}), r'.(revision := r.revision))
  }

  /** `r'` is `r` with `m` seated for the account: everything moderated with it, and one revision taken. */
  ghost predicate Entered(r: Room, r': Room, m: MembershipId, user: UserId, now: int)
    requires r.policy.Some?
  {
    && r'.revision == r.revision + 1
    && Moderated(r, r.(members := r.members[m := Member(user, now)]), r'.(revision := r.revision))
  }

  /** `r'` is the tombstone of `r`: who owned it, when, and its code, one revision later, and nothing else. */
  predicate Tombstoned(r: Room, r': Room, now: int) {
    && r'.code == r.code && r'.owner == r.owner && r'.createdAt == r.createdAt && r'.expiresAt == r.expiresAt
    && r'.closedAt == Some(now) && r'.revision == r.revision + 1
    && r'.members == map[] && r'.policy.None? && r'.queue == [] && r'.entries == map[] && r'.votes == map[]
  }

  lemma DepartDeparts(r: Room, m: MembershipId)
    requires r.policy.Some?
    ensures Departed(r, Depart(r, m), m)
  {
    ReevaluateExact(r.(members := r.members - {m}));
  }

  lemma AdmitEnters(r: Room, m: MembershipId, user: UserId, now: int)
    requires r.policy.Some?
    ensures Entered(r, Admit(r, m, user, now), m, user, now)
  {
    ReevaluateExact(r.(members := r.members[m := Member(user, now)]));
  }

  predicate Timely(now: int) {
    FIRST_SECOND <= now <= LAST_SECOND
  }

  // ---------------------------------------------------------------- leaving

  /** A membership that is nobody's, or a caller that is no account. */
  lemma LeavingNothing(s: Store, user: UserId, m: MembershipId, now: int)
    requires StoreInv(s)
    ensures !Timely(now) ==> Leave(s, user, m, now, true) == Tx(s, Err(TemporarilyUnavailable))
    ensures Timely(now) && user !in s.users ==> Leave(s, user, m, now, true) == Tx(s, Err(LobbyUnauthorized))
    ensures Timely(now) && user in s.users && (forall l :: !Seated(s, m, l)) ==> Leave(s, user, m, now, true) == Tx(s, Ok(None))
  {
  }

  /**
   A membership that is seated: another's is refused, an ended one is dropped without a revision, the owner's closes the
   lobby, and a guest's goes with the moderation its going calls for.
   */
  lemma LeavingIsExact(s: Store, user: UserId, m: MembershipId, l: LobbyId, now: int)
    requires StoreInv(s) && Timely(now) && user in s.users && Seated(s, m, l)
    ensures
      var r, tx := s.rooms[l], Leave(s, user, m, now, true);
      if r.members[m].user != user then tx == Tx(s, Err(NotYours))
      else if r.closedAt.Some? || r.expiresAt <= now then tx == Tx(Put(s, l, r.(members := r.members - {m})), Ok(None))
      else if r.revision == MAX_REVISION then tx == Tx(s, Err(TemporarilyUnavailable))
      else if r.owner == user && now < r.createdAt then tx == Tx(s, Err(LobbyStorage))
      else
        && tx.reply == Ok(Some((l, r.revision + 1)))
        && l in tx.store.rooms && tx.store == Put(s, l, tx.store.rooms[l]) && r.policy.Some?
        && (if r.owner == user then Tombstoned(r, tx.store.rooms[l], now) else Departed(r, tx.store.rooms[l], m))
  {
    assert Locate(s, m) == Some(l);
    if s.rooms[l].closedAt.None? { DepartDeparts(s.rooms[l], m); }
  }

  // ---------------------------------------------------------------- seats

  /** The store without one seat. */
  function Vacate(s: Store, at: Seat): Store
    requires at.lobby in s.rooms
  {
    Put(s, at.lobby, s.rooms[at.lobby].(members := s.rooms[at.lobby].members - {at.membership}))
  }

  /** The account holds no membership of an active lobby; `s1` is the store without the ended one it may hold. */
  ghost predicate Unbound(s: Store, user: UserId, now: int, s1: Store) {
    || (s1 == s && forall at :: !Holds(s, user, at))
    || (exists at :: Holds(s, user, at) && !Live(s.rooms[at.lobby], now) && s1 == Vacate(s, at))
  }

  lemma UnboundReclaims(s: Store, user: UserId, now: int, s1: Store)
    requires StoreInv(s) && Unbound(s, user, now, s1)
    ensures Reclaim(s, user, now) == s1 && SeatOf(s1, user).None?
  {
    ReclaimSeats(s, user, now);
    if at :| Holds(s, user, at) && !Live(s.rooms[at.lobby], now) && s1 == Vacate(s, at) {
      assert SeatOf(s, user) == Some(at);
    }
  }

  lemma BoundStays(s: Store, user: UserId, now: int, at: Seat)
    requires StoreInv(s) && Holds(s, user, at) && Live(s.rooms[at.lobby], now)
    ensures Reclaim(s, user, now) == s && SeatOf(s, user) == Some(at)
  {
  }

  ghost predicate Taken(s: Store, m: MembershipId) {
    exists l :: Seated(s, m, l)
  }

  /** `supply[k]` is the first served membership id that nobody holds. */
  ghost predicate FirstUnseated(s: Store, supply: Supply, k: nat) {
    && k < ATTEMPTS && supply[k].Some? && !Taken(s, supply[k].value)
    && (forall j :: 0 <= j < k ==> supply[j].Some? && Taken(s, supply[j].value))
  }

  lemma {:induction false} FreshIsFirst(s: Store, supply: Supply, from: nat, k: nat)
    requires from <= k && FirstUnseated(s, supply, k)
    ensures FreshMembership(s, supply, from) == Some(supply[k].value)
    decreases k - from
  {
    if from < k {
      assert supply[from].Some? && Taken(s, supply[from].value);
      FreshIsFirst(s, supply, from + 1, k);
    }
  }

  ghost predicate AllSeated(s: Store, supply: Supply, from: nat) {
    from <= ATTEMPTS && forall j :: 0 <= j < from ==> supply[j].Some? && Taken(s, supply[j].value)
  }

  lemma {:induction false} NoneIsFresh(s: Store, supply: Supply, from: nat)
    requires AllSeated(s, supply, from) && forall k :: !FirstUnseated(s, supply, k)
    ensures FreshMembership(s, supply, from).None?
    decreases ATTEMPTS - from
  {
    if from < ATTEMPTS && supply[from].Some? {
      assert !FirstUnseated(s, supply, from);
      assert Taken(s, supply[from].value);
      NoneIsFresh(s, supply, from + 1);
    }
  }

  // ---------------------------------------------------------------- joining

  /** What a reply shows of the membership `m` of the lobby `l`. */
  predicate ShowsLobby(v: LobbyView, r: Room, l: LobbyId, m: MembershipId) {
    && v.lobby == l && v.membership == m && v.code == r.code && v.owner == r.owner && v.revision == r.revision
    && v.createdAt == r.createdAt && v.expiresAt == r.expiresAt
    && (forall k :: k in r.members ==> r.members[k] in v.roster)
    && (forall x :: x in v.roster ==> exists k :: k in r.members && r.members[k] == x)
  }

  lemma ViewShowsLobby(r: Room, l: LobbyId, m: MembershipId)
    ensures ShowsLobby(ViewLobby(r, l, m), r, l, m)
  {
  }

  /** The lobby of a join code that is active now. */
  ghost predicate OpensTo(s: Store, code: JoinCode, now: int, l: LobbyId) {
    l in s.rooms && s.rooms[l].code == code && s.rooms[l].closedAt.None? && now < s.rooms[l].expiresAt
  }

  lemma OpenIsInvited(s: Store, code: JoinCode, now: int, l: LobbyId)
    requires StoreInv(s) && OpensTo(s, code, now, l)
    ensures Invited(s, code, now) == Some(l)
  {
    assert Invites(s, code, now, l);
  }

  lemma JoiningNothing(s: Store, user: UserId, code: JoinCode, now: int, supply: Supply)
    requires StoreInv(s)
    ensures !Timely(now) ==> Join(s, user, code, now, supply, true) == Tx(s, Err(TemporarilyUnavailable))
    ensures Timely(now) && user !in s.users ==> Join(s, user, code, now, supply, true) == Tx(s, Err(LobbyUnauthorized))
    ensures Timely(now) && user in s.users && (forall l :: !OpensTo(s, code, now, l)) ==>
              Join(s, user, code, now, supply, true) == Tx(s, Err(LobbyUnavailable))
  {
    if Invited(s, code, now).Some? { assert OpensTo(s, code, now, Invited(s, code, now).value); }
  }

  /** Whoever is in the lobby already stays, and is shown it. */
  lemma MembersStay(s: Store, user: UserId, code: JoinCode, l: LobbyId, m: MembershipId, now: int, supply: Supply)
    requires StoreInv(s) && Timely(now) && user in s.users && OpensTo(s, code, now, l) && Holds(s, user, Seat(l, m))
    ensures
      var tx := Join(s, user, code, now, supply, true);
      && tx.store == s && tx.reply.Ok? && !tx.reply.value.changed && tx.reply.value.departed.None?
      && ShowsLobby(tx.reply.value.view, s.rooms[l], l, m)
  {
    OpenIsInvited(s, code, now, l);
    BoundStays(s, user, now, Seat(l, m));
  }

  /** The end of every join that changes something. */
  lemma EnteringIsExact(s: Store, user: UserId, l: LobbyId, now: int, supply: Supply, departed: Option<(LobbyId, int)>, k: nat)
    requires l in s.rooms && s.rooms[l].policy.Some? && s.rooms[l].revision < MAX_REVISION && FirstUnseated(s, supply, k)
    ensures
      var joined := Admit(s.rooms[l], supply[k].value, user, now);
      && Enter(s, user, l, now, supply, departed) == Ok((Put(s, l, joined), Joined(ViewLobby(joined, l, supply[k].value), true, departed)))
      && Entered(s.rooms[l], joined, supply[k].value, user, now)
      && ShowsLobby(ViewLobby(joined, l, supply[k].value), joined, l, supply[k].value)
  {
    FreshIsFirst(s, supply, 0, k);
    AdmitEnters(s.rooms[l], supply[k].value, user, now);
  }

  /** An account without an active lobby enters under the first free membership id, in the place of one that ended. */
  lemma NewcomersEnter(s: Store, s1: Store, user: UserId, code: JoinCode, l: LobbyId, now: int, supply: Supply, k: nat)
    requires StoreInv(s) && Timely(now) && user in s.users && OpensTo(s, code, now, l) && Unbound(s, user, now, s1)
    requires s.rooms[l].revision < MAX_REVISION && FirstUnseated(s1, supply, k)
    ensures
      var m, tx := supply[k].value, Join(s, user, code, now, supply, true);
      && tx.reply.Ok? && tx.reply.value.changed && tx.reply.value.departed.None?
      && l in tx.store.rooms && tx.store == Put(s1, l, tx.store.rooms[l])
      && s.rooms[l].policy.Some? && Entered(s.rooms[l], tx.store.rooms[l], m, user, now)
      && ShowsLobby(tx.reply.value.view, tx.store.rooms[l], l, m)
  {
    OpenIsInvited(s, code, now, l);
    UnboundReclaims(s, user, now, s1);
    ReclaimSeats(s, user, now);
    EnteringIsExact(s1, user, l, now, supply, None, k);
  }

  /** Without a revision or a free id left nobody enters. */
  lemma NewcomersWait(s: Store, s1: Store, user: UserId, code: JoinCode, l: LobbyId, now: int, supply: Supply)
    requires StoreInv(s) && Timely(now) && user in s.users && OpensTo(s, code, now, l) && Unbound(s, user, now, s1)
    requires s.rooms[l].revision == MAX_REVISION || forall k :: !FirstUnseated(s1, supply, k)
    ensures Join(s, user, code, now, supply, true) == Tx(s, Err(TemporarilyUnavailable))
  {
    OpenIsInvited(s, code, now, l);
    UnboundReclaims(s, user, now, s1);
    ReclaimSeats(s, user, now);
    if forall k :: !FirstUnseated(s1, supply, k) { NoneIsFresh(s1, supply, 0); }
  }

  /** An owner is not moved out of the lobby it owns, nor a guest whose lobby has no revision left. */
  lemma OwnersAreKept(s: Store, user: UserId, code: JoinCode, l: LobbyId, at: Seat, now: int, supply: Supply)
    requires StoreInv(s) && Timely(now) && user in s.users && OpensTo(s, code, now, l)
    requires Holds(s, user, at) && Live(s.rooms[at.lobby], now) && at.lobby != l
    ensures s.rooms[at.lobby].owner == user ==> Join(s, user, code, now, supply, true) == Tx(s, Err(AlreadyInLobby))
    ensures s.rooms[at.lobby].owner != user && s.rooms[at.lobby].revision == MAX_REVISION ==>
              Join(s, user, code, now, supply, true) == Tx(s, Err(TemporarilyUnavailable))
  {
    OpenIsInvited(s, code, now, l);
    BoundStays(s, user, now, at);
  }

  lemma MoverJoins(s: Store, user: UserId, code: JoinCode, l: LobbyId, at: Seat, now: int, supply: Supply)
    requires StoreInv(s) && Timely(now) && user in s.users && OpensTo(s, code, now, l)
    requires Holds(s, user, at) && Live(s.rooms[at.lobby], now) && at.lobby != l
    requires s.rooms[at.lobby].owner != user && s.rooms[at.lobby].revision < MAX_REVISION
    ensures s.rooms[at.lobby].policy.Some? && s.rooms[l].policy.Some?
    ensures
      var home := s.rooms[at.lobby];
      var entered := Enter(Put(s, at.lobby, Depart(home, at.membership)), user, l, now, supply, Some((at.lobby, home.revision + 1)));
      Join(s, user, code, now, supply, true) ==
        if entered.Ok? then Tx(entered.value.0, Ok(entered.value.1)) else Tx(s, Err(entered.error))
  {
    OpenIsInvited(s, code, now, l);
    BoundStays(s, user, now, at);
  }

  lemma SeatsAfterDeparture(s: Store, at: Seat)
    requires at.lobby in s.rooms && s.rooms[at.lobby].policy.Some?
    ensures forall m, l :: Seated(Put(s, at.lobby, Depart(s.rooms[at.lobby], at.membership)), m, l) <==> Seated(Vacate(s, at), m, l)
  {
  }

  lemma SameSeatsSameFirst(s: Store, t: Store, supply: Supply, k: nat)
    requires forall m, l :: Seated(s, m, l) <==> Seated(t, m, l)
    ensures FirstUnseated(s, supply, k) <==> FirstUnseated(t, supply, k)
  {
    forall m ensures Taken(s, m) <==> Taken(t, m) {
      if Taken(s, m) { var l :| Seated(s, m, l); assert Seated(t, m, l); }
      if Taken(t, m) { var l :| Seated(t, m, l); assert Seated(s, m, l); }
    }
  }

  lemma FirstAfterDeparture(s: Store, at: Seat, supply: Supply, k: nat)
    requires at.lobby in s.rooms && s.rooms[at.lobby].policy.Some?
    ensures FirstUnseated(Put(s, at.lobby, Depart(s.rooms[at.lobby], at.membership)), supply, k)
            <==> FirstUnseated(Vacate(s, at), supply, k)
  {
    SeatsAfterDeparture(s, at);
    SameSeatsSameFirst(Put(s, at.lobby, Depart(s.rooms[at.lobby], at.membership)), Vacate(s, at), supply, k);
  }

  lemma MovingPieces(s: Store, user: UserId, l: LobbyId, at: Seat, now: int, supply: Supply, k: nat)
    requires at.lobby in s.rooms && s.rooms[at.lobby].policy.Some? && l in s.rooms && s.rooms[l].policy.Some? && at.lobby != l
    requires s.rooms[l].revision < MAX_REVISION && FirstUnseated(Vacate(s, at), supply, k)
    ensures
      var left, joined := Depart(s.rooms[at.lobby], at.membership), Admit(s.rooms[l], supply[k].value, user, now);
      var s2, departed := Put(s, at.lobby, left), Some((at.lobby, s.rooms[at.lobby].revision + 1));
      && Departed(s.rooms[at.lobby], left, at.membership) && Entered(s.rooms[l], joined, supply[k].value, user, now)
      && Enter(s2, user, l, now, supply, departed)
         == Ok((Put(s2, l, joined), Joined(ViewLobby(joined, l, supply[k].value), true, departed)))
  {
    DepartDeparts(s.rooms[at.lobby], at.membership);
    FirstAfterDeparture(s, at, supply, k);
    EnteringIsExact(Put(s, at.lobby, Depart(s.rooms[at.lobby], at.membership)), user, l, now, supply,
                    Some((at.lobby, s.rooms[at.lobby].revision + 1)), k);
  }

  /**
   A guest of another lobby moves over: that lobby is moderated without it, this one with it, each takes one revision,
   and the reply names the lobby left with its revision.
   */
  lemma GuestsMoveOver(s: Store, user: UserId, code: JoinCode, l: LobbyId, at: Seat, now: int, supply: Supply, k: nat)
    returns (left: Room, joined: Room)
    requires StoreInv(s) && Timely(now) && user in s.users && OpensTo(s, code, now, l)
    requires Holds(s, user, at) && Live(s.rooms[at.lobby], now) && at.lobby != l && s.rooms[at.lobby].owner != user
    requires s.rooms[at.lobby].revision < MAX_REVISION && s.rooms[l].revision < MAX_REVISION
    requires FirstUnseated(Vacate(s, at), supply, k)
    ensures s.rooms[at.lobby].policy.Some? && s.rooms[l].policy.Some?
    ensures Departed(s.rooms[at.lobby], left, at.membership) && Entered(s.rooms[l], joined, supply[k].value, user, now)
    ensures
      var tx := Join(s, user, code, now, supply, true);
      && tx.store == Put(Put(s, at.lobby, left), l, joined)
      && tx.reply.Ok? && tx.reply.value.changed && tx.reply.value.departed == Some((at.lobby, left.revision))
      && ShowsLobby(tx.reply.value.view, joined, l, supply[k].value)
  {
    MoverJoins(s, user, code, l, at, now, supply);
    MovingPieces(s, user, l, at, now, supply, k);
    left, joined := Depart(s.rooms[at.lobby], at.membership), Admit(s.rooms[l], supply[k].value, user, now);
    ViewShowsLobby(joined, l, supply[k].value);
  }

  lemma GuestsWait(s: Store, user: UserId, code: JoinCode, l: LobbyId, at: Seat, now: int, supply: Supply)
    requires StoreInv(s) && Timely(now) && user in s.users && OpensTo(s, code, now, l)
    requires Holds(s, user, at) && Live(s.rooms[at.lobby], now) && at.lobby != l && s.rooms[at.lobby].owner != user
    requires s.rooms[at.lobby].revision < MAX_REVISION
    requires s.rooms[l].revision == MAX_REVISION || forall k :: !FirstUnseated(Vacate(s, at), supply, k)
    ensures Join(s, user, code, now, supply, true) == Tx(s, Err(TemporarilyUnavailable))
  {
    MoverJoins(s, user, code, l, at, now, supply);
    var s2 := Put(s, at.lobby, Depart(s.rooms[at.lobby], at.membership));
    if forall k :: !FirstUnseated(Vacate(s, at), supply, k) {
      forall k ensures !FirstUnseated(s2, supply, k) { FirstAfterDeparture(s, at, supply, k); }
      NoneIsFresh(s2, supply, 0);
    }
  }

  // ---------------------------------------------------------------- founding

  /** The lobby id, the join code and the membership id of the candidate are all free. */
  ghost predicate Free(s: Store, c: Candidate) {
    && c.lobby !in s.rooms && (forall l :: l in s.rooms ==> s.rooms[l].code != c.code)
    && (forall l :: l in s.rooms ==> c.membership !in s.rooms[l].members)
  }

  ghost predicate FirstCandidate(s: Store, supply: Candidates, k: nat) {
    && k < ATTEMPTS && supply[k].Some? && Free(s, supply[k].value)
    && (forall j :: 0 <= j < k ==> supply[j].Some? && !Free(s, supply[j].value))
  }

  lemma FreeIsFree(s: Store, c: Candidate)
    ensures Free(s, c) <==> c.lobby !in s.rooms && !CodeTaken(s, c.code) && !Taken(s, c.membership)
  {
    if l :| l in s.rooms && c.membership in s.rooms[l].members { assert Seated(s, c.membership, l); }
  }

  lemma {:induction false} FoundIsFirst(s: Store, supply: Candidates, from: nat, k: nat)
    requires from <= k && FirstCandidate(s, supply, k)
    ensures FreshLobby(s, supply, from) == supply[k]
    decreases k - from
  {
    FreeIsFree(s, supply[from].value);
    if from < k { FoundIsFirst(s, supply, from + 1, k); }
  }

  ghost predicate NoneFree(s: Store, supply: Candidates, from: nat) {
    from <= ATTEMPTS && forall j :: 0 <= j < from ==> supply[j].Some? && !Free(s, supply[j].value)
  }

  lemma {:induction false} NoneIsFound(s: Store, supply: Candidates, from: nat)
    requires NoneFree(s, supply, from) && forall k :: !FirstCandidate(s, supply, k)
    ensures FreshLobby(s, supply, from).None?
    decreases ATTEMPTS - from
  {
    if from < ATTEMPTS && supply[from].Some? {
      assert !FirstCandidate(s, supply, from);
      FreeIsFree(s, supply[from].value);
      NoneIsFound(s, supply, from + 1);
    }
  }

  lemma FoundingNothing(s: Store, user: UserId, now: int, supply: Candidates, at: Seat)
    requires StoreInv(s)
    ensures user !in s.users ==> Create(s, user, now, supply, true) == Tx(s, Err(LobbyUnauthorized))
    ensures user in s.users && !(Timely(now) && Timely(now + 86400)) ==>
              Create(s, user, now, supply, true) == Tx(s, Err(TemporarilyUnavailable))
    ensures user in s.users && Timely(now) && Timely(now + 86400) && Holds(s, user, at) && Live(s.rooms[at.lobby], now) ==>
              Create(s, user, now, supply, true) == Tx(s, Err(AlreadyInLobby))
  {
    if Holds(s, user, at) && Live(s.rooms[at.lobby], now) { BoundStays(s, user, now, at); }
  }

  lemma FoundingWaits(s: Store, s1: Store, user: UserId, now: int, supply: Candidates)
    requires StoreInv(s) && user in s.users && Timely(now) && Timely(now + 86400) && Unbound(s, user, now, s1)
    requires forall k :: !FirstCandidate(s1, supply, k)
    ensures Create(s, user, now, supply, true) == Tx(s, Err(TemporarilyUnavailable))
  {
    UnboundReclaims(s, user, now, s1);
    NoneIsFound(s1, supply, 0);
  }

  /**
   A founded lobby is the first free candidate's, lasts a day from now, has its owner as the only member, decides by
   majority, and has an empty queue; nothing else is added, and only an ended membership of the owner is dropped.
   */
  lemma FoundingIsExact(s: Store, s1: Store, user: UserId, now: int, supply: Candidates, k: nat)
    requires StoreInv(s) && user in s.users && Timely(now) && Timely(now + 86400) && Unbound(s, user, now, s1)
    requires FirstCandidate(s1, supply, k)
    ensures
      var c, tx := supply[k].value, Create(s, user, now, supply, true);
      && c.lobby in tx.store.rooms && tx.store == s1.(rooms := s1.rooms[c.lobby := tx.store.rooms[c.lobby]])
      && tx.reply.Ok? && ShowsLobby(tx.reply.value, tx.store.rooms[c.lobby], c.lobby, c.membership)
      && var r := tx.store.rooms[c.lobby];
         && r.code == c.code && r.owner == user && r.createdAt == now && r.expiresAt == now + 86400 && r.closedAt.None?
         && r.revision == 1 && r.members == map[c.membership := Member(user, now)] && r.policy == Some(Majority)
         && r.queue == [] && r.entries == map[] && r.votes == map[]
  {
    UnboundReclaims(s, user, now, s1);
    FoundIsFirst(s1, supply, 0, k);
  }

  // ---------------------------------------------------------------- looking up

  /** The lobby shown to an account is the one it is in, active when asked and still before its deadline when answered. */
  lemma CurrentIsTheirs(s: Store, user: UserId, at: Seat, asked: int, answered: int)
    requires StoreInv(s) && user in s.users && Timely(asked) && Holds(s, user, at)
    ensures
      var r, reply := s.rooms[at.lobby], Current(s, user, asked, answered, true);
      if r.closedAt.Some? || r.expiresAt <= asked then reply == Ok(None)
      else if !Timely(answered) then reply == Err(TemporarilyUnavailable)
      else if r.expiresAt <= answered then reply == Ok(None)
      else reply.Ok? && reply.value.Some? && ShowsLobby(reply.value.value, r, at.lobby, at.membership)
  {
    assert SeatOf(s, user) == Some(at);
  }

  lemma NoCurrent(s: Store, user: UserId, asked: int, answered: int)
    requires StoreInv(s)
    ensures user !in s.users ==> Current(s, user, asked, answered, true) == Err(LobbyUnauthorized)
    ensures user in s.users && !Timely(asked) ==> Current(s, user, asked, answered, true) == Err(TemporarilyUnavailable)
    ensures user in s.users && Timely(asked) && (forall at :: !Holds(s, user, at)) ==>
              Current(s, user, asked, answered, true) == Ok(None)
  {
  }

  /** What a stream reads of its lobby: nothing once it is deleted, else its revision, whether it is closed, and the member. */
  lemma SightingIsExact(s: Store, user: UserId, m: MembershipId, l: LobbyId)
    requires StoreInv(s)
    ensures
      var seen := Observe(s, user, m, l);
      && (seen.Some? <==> l in s.rooms)
      && (l in s.rooms ==>
            && seen.value.revision == s.rooms[l].revision && (seen.value.closed <==> s.rooms[l].closedAt.Some?)
            && (seen.value.memberExists <==> Holds(s, user, Seat(l, m))))
  {
    if Holds(s, user, Seat(l, m)) { assert Seated(s, m, l); }
  }

  /** Without storage nothing is changed and nothing else is answered. */
  lemma StorageFails(s: Store, user: UserId, m: MembershipId, code: JoinCode, now: int, later: int, supply: Supply,
                     candidates: Candidates)
    requires StoreInv(s)
    ensures Leave(s, user, m, now, false) == Tx(s, Err(LobbyStorage))
    ensures Join(s, user, code, now, supply, false) == Tx(s, Err(LobbyStorage))
    ensures Create(s, user, now, candidates, false) == Tx(s, Err(LobbyStorage))
    ensures Current(s, user, now, later, false) == Err(LobbyStorage)
  {
  }
}
