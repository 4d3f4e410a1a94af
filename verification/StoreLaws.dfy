/**
 What one transaction keeps: the store's invariants, and for every lobby
 either its exact contents or one more revision.
 */
module StoreLaws {
  import opened Prelude
  import opened Ordering
  import opened Rooms
  import opened Transactions

  // ---------------------------------------------------------------- replacing one lobby

  ghost predicate Unclaimed(s: Store, user: UserId) {
    forall at :: !Holds(s, user, at)
  }

  /** `r'` may keep, drop or freshly add memberships and entries of lobby `l`. */
  ghost predicate Fits(s: Store, l: LobbyId, r': Room)
    requires l in s.rooms
  {
    && RoomInv(r') && r'.code == s.rooms[l].code
    && (forall m :: m in r'.members ==>
          || (m in s.rooms[l].members && s.rooms[l].members[m] == r'.members[m])
          || ((forall k :: !Seated(s, m, k)) && Unclaimed(s, r'.members[m].user) && r'.members[m].user in s.users))
    && (forall e :: e in r'.entries ==> e in s.rooms[l].entries || !EntryTaken(s, e))
  }

  function Put(s: Store, l: LobbyId, r: Room): Store {
    s.(rooms := s.rooms[l := r])
  }

  lemma PutSeats(s: Store, l: LobbyId, r': Room, m: MembershipId, k: LobbyId)
    requires StoreInv(s) && l in s.rooms && Fits(s, l, r') && Seated(Put(s, l, r'), m, k)
    ensures Put(s, l, r').rooms[k].members[m].user in s.users
    ensures Seated(s, m, k) || (k == l && forall j :: !Seated(s, m, j))
  {
    if k != l || m in s.rooms[l].members { assert Seated(s, m, k); }
  }

  lemma PutHolds(s: Store, l: LobbyId, r': Room, user: UserId, a: Seat)
    requires l in s.rooms && Fits(s, l, r') && Holds(Put(s, l, r'), user, a)
    ensures Holds(s, user, a) || (a.lobby == l && Unclaimed(s, user))
  {
    if a.lobby != l || a.membership in s.rooms[l].members { assert a.lobby != l ==> Holds(s, user, a); }
  }

  lemma PutKeepsMemberships(s: Store, l: LobbyId, r': Room)
    requires StoreInv(s) && l in s.rooms && Fits(s, l, r')
    ensures UniqueMemberships(Put(s, l, r')) && Accounts(Put(s, l, r'))
  {
    var s' := Put(s, l, r');
    forall m, k | Seated(s', m, k)
      ensures s'.rooms[k].members[m].user in s.users
      ensures Seated(s, m, k) || (k == l && forall j :: !Seated(s, m, j))
    {
      PutSeats(s, l, r', m, k);
    }
  }

  lemma PutKeepsUsers(s: Store, l: LobbyId, r': Room)
    requires StoreInv(s) && l in s.rooms && Fits(s, l, r')
    ensures UniqueUsers(Put(s, l, r'))
  {
    var s' := Put(s, l, r');
    forall user, a, b | Holds(s', user, a) && Holds(s', user, b) ensures a == b {
      PutHolds(s, l, r', user, a);
      PutHolds(s, l, r', user, b);
      if !Holds(s, user, a) { assert r'.members[a.membership].user == r'.members[b.membership].user; }
    }
  }

  lemma PutKeepsEntries(s: Store, l: LobbyId, r': Room)
    requires StoreInv(s) && l in s.rooms && Fits(s, l, r')
    ensures UniqueEntries(Put(s, l, r')) && UniqueCodes(Put(s, l, r'))
  {
    var s' := Put(s, l, r');
    forall e, k | k in s'.rooms && e in s'.rooms[k].entries
      ensures (k in s.rooms && e in s.rooms[k].entries) || (k == l && !EntryTaken(s, e))
    {
    }
  }

  lemma PutKeeps(s: Store, l: LobbyId, r': Room)
    requires StoreInv(s) && l in s.rooms && Fits(s, l, r')
    ensures StoreInv(Put(s, l, r'))
  {
    PutKeepsMemberships(s, l, r');
    PutKeepsUsers(s, l, r');
    PutKeepsEntries(s, l, r');
  }

  lemma PutSound(s: Store, l: LobbyId, r': Room, now: int)
    requires l in s.rooms && SoundAt(s, now) && Sound(r', now)
    ensures SoundAt(Put(s, l, r'), now)
  {
  }

  /** Time alone only ends lobbies. */
  lemma SoundLater(s: Store, now: int, later: int)
    requires SoundAt(s, now) && now <= later
    ensures SoundAt(s, later)
  {
    forall l | l in s.rooms ensures Sound(s.rooms[l], later) {
      assert Sound(s.rooms[l], now);
    }
  }

  // ---------------------------------------------------------------- progress of one lobby

  ghost predicate SameIdentity(r: Room, r': Room) {
    r'.code == r.code && r'.owner == r.owner && r'.createdAt == r.createdAt && r'.expiresAt == r.expiresAt
  }

  /** Entries stay recorded, and one that has left the order stays out of it. */
  ghost predicate KeepsHistory(r: Room, r': Room) {
    && (forall e :: e in r.entries ==> e in r'.entries && r'.entries[e] == r.entries[e])
    && (forall e :: e in r.entries && e !in r.queue ==> e !in r'.queue)
  }

  /** One transaction ending at `now`, seen by one lobby. */
  ghost predicate Evolves(r: Room, r': Room, now: int) {
    && SameIdentity(r, r')
    && (r' == r || r'.revision == r.revision + 1 || (!Live(r', now) && r'.revision == r.revision && r'.closedAt == r.closedAt))
    && (r'.revision != r.revision ==> now < r.expiresAt)
    && (r.closedAt.Some? ==> r' == r)
    && (r'.closedAt.None? ==> KeepsHistory(r, r'))
  }

  /** A store after a transaction ending at `now`: no lobby is new but those founded then, none goes before its deadline. */
  ghost predicate StoreEvolves(s: Store, s': Store, now: int) {
    && (forall l :: l in s.rooms && l in s'.rooms ==> Evolves(s.rooms[l], s'.rooms[l], now))
    && (forall l :: l in s.rooms && l !in s'.rooms ==> s.rooms[l].expiresAt <= now)
    && (forall l :: l in s'.rooms && l !in s.rooms ==> now < s'.rooms[l].expiresAt)
  }

  lemma UnchangedEvolves(s: Store, now: int)
    ensures StoreEvolves(s, s, now)
  {
  }

  lemma PutEvolves(s: Store, l: LobbyId, r': Room, now: int)
    requires l in s.rooms && Evolves(s.rooms[l], r', now)
    ensures StoreEvolves(s, Put(s, l, r'), now)
  {
  }

  /** All three laws of a transaction at once. */
  ghost predicate Lawful(s: Store, s': Store, now: int) {
    StoreInv(s') && SoundAt(s', now) && StoreEvolves(s, s', now)
  }

  lemma PutLawful(s: Store, l: LobbyId, r': Room, now: int)
    requires StoreInv(s) && SoundAt(s, now) && l in s.rooms
    requires Fits(s, l, r') && Sound(r', now) && Evolves(s.rooms[l], r', now)
    ensures Lawful(s, Put(s, l, r'), now)
  {
    PutKeeps(s, l, r');
    PutSound(s, l, r', now);
    PutEvolves(s, l, r', now);
  }

  // ---------------------------------------------------------------- queue transactions

  /** A granted edit is decided by its lobby alone, and then finished. */
  lemma MutateFinishes(s: Store, l: LobbyId, user: Account, m: MembershipId, c: Command, clock: Clock)
    requires StoreInv(s) && WellTyped(c) && Authorize(s, user, m, Needs(c), clock) == Ok(l)
    ensures
      match EditOf(s.rooms[l], user.id, c, clock[WRITE])
      case Err(e) => Mutate(s, user, m, c, clock, true) == Tx(s, Err(e))
      case Ok(edited) =>
        && (edited.Some? ==> EditSound(s.rooms[l], edited.value))
        && Mutate(s, user, m, c, clock, true) == Finish(s, l, edited, user, m, clock)
  {
    EditMaySound(s.rooms[l], user.id, c, clock[WRITE]);
  }

  lemma MutateLawful(s: Store, user: Account, m: MembershipId, c: Command, clock: Clock, storage: bool)
    requires StoreInv(s) && SoundAt(s, clock[DEADLINE]) && WellTyped(c)
    ensures Lawful(s, Mutate(s, user, m, c, clock, storage).store, clock[DEADLINE])
  {
    var tx := Mutate(s, user, m, c, clock, storage);
    var now := clock[DEADLINE];
    if tx.store != s {
      var l := Authorize(s, user, m, Needs(c), clock).value;
      var r := s.rooms[l];
      var r' := EditOf(r, user.id, c, clock[WRITE]).value.value;
      EditKeeps(r, user.id, c, clock[WRITE]);
      BumpKeeps(r');
      assert Sound(r, now);
      PutLawful(s, l, Bump(r'), now);
    }
  }

  lemma BumpKeeps(r: Room)
    requires RoomInv(r) && r.revision < MAX_REVISION && r.closedAt.None?
    ensures RoomInv(Bump(r))
    ensures Stable(r) ==> Stable(Bump(r))
    ensures HostSeated(r) ==> HostSeated(Bump(r))
  {
    if HostSeated(r) {
      var m :| m in r.members && r.members[m].user == r.owner;
      assert m in Bump(r).members && Bump(r).members[m].user == r.owner;
    }
    if Stable(r) {
      forall e | e in Bump(r).queue ensures !Qualifies(Bump(r), e) {
        QualifiesDependsOn(r, Bump(r), e);
      }
    }
  }

  /** A sound edit, once it has taken its revision, leaves a well-formed store. */
  lemma EditCommits(s: Store, l: LobbyId, r': Room)
    requires StoreInv(s) && l in s.rooms && s.rooms[l].closedAt.None? && s.rooms[l].revision < MAX_REVISION
    requires EditSound(s.rooms[l], r')
    ensures StoreInv(Put(s, l, Bump(r')))
  {
    BumpKeeps(r');
    PutKeeps(s, l, Bump(r'));
  }

  lemma AppendCommits(s: Store, l: LobbyId, user: UserId, request: RequestId, e: EntryId, entry: Entry)
    requires StoreInv(s) && l in s.rooms && s.rooms[l].closedAt.None? && s.rooms[l].revision < MAX_REVISION
    requires ReceiptOf(s.rooms[l], user, request).None? && !EntryTaken(s, e)
    requires entry.submitter == user && entry.request == request
    ensures StoreInv(Put(s, l, Bump(Append(s.rooms[l], e, entry))))
  {
    AppendKeeps(s, l, user, request, e, entry);
    BumpKeeps(Append(s.rooms[l], e, entry));
    PutKeeps(s, l, Bump(Append(s.rooms[l], e, entry)));
  }

  lemma AppendLawful(s: Store, l: LobbyId, user: UserId, request: RequestId, e: EntryId, entry: Entry, now: int)
    requires StoreInv(s) && SoundAt(s, now) && l in s.rooms && Live(s.rooms[l], now) && s.rooms[l].revision < MAX_REVISION
    requires ReceiptOf(s.rooms[l], user, request).None? && !EntryTaken(s, e)
    requires entry.submitter == user && entry.request == request
    ensures Lawful(s, Put(s, l, Bump(Append(s.rooms[l], e, entry))), now)
  {
    var r, r' := s.rooms[l], Append(s.rooms[l], e, entry);
    AppendKeeps(s, l, user, request, e, entry);
    BumpKeeps(r');
    assert Sound(r, now);
    assert HostSeated(r');
    assert e !in r.entries;
    PutLawful(s, l, Bump(r'), now);
  }

  lemma SubmitLawful(s: Store, user: Account, m: MembershipId, request: RequestId, video: Video,
                     supply: Supply, clock: Clock, storage: bool)
    requires StoreInv(s) && SoundAt(s, clock[DEADLINE])
    ensures Lawful(s, Submit(s, user, m, request, video, supply, clock, storage).store, clock[DEADLINE])
  {
    var tx := Submit(s, user, m, request, video, supply, clock, storage);
    var now := clock[DEADLINE];
    UnchangedEvolves(s, now);
    if tx.store != s {
      var l := Authorize(s, user, m, AnyMember, clock).value;
      var (e, at) := FreshEntry(s, supply, clock, 0).value;
      AppendLawful(s, l, user.id, request, e, Entry(user.id, request, video, at), now);
    }
  }

  // ---------------------------------------------------------------- membership transactions

  lemma ReevaluateBumpKeeps(r: Room)
    requires RoomInv(r) && r.closedAt.None? && r.revision < MAX_REVISION
    ensures RoomInv(Bump(Reevaluate(r))) && Stable(Bump(Reevaluate(r)))
    ensures HostSeated(r) ==> HostSeated(Bump(Reevaluate(r)))
    ensures forall e :: e in Reevaluate(r).queue ==> e in r.queue
  {
    ReevaluateKeeps(r);
    ReevaluateExact(r);
    BumpKeeps(Reevaluate(r));
  }

  lemma DepartLawful(s: Store, l: LobbyId, m: MembershipId, now: int)
    requires StoreInv(s) && SoundAt(s, now) && Seated(s, m, l) && Live(s.rooms[l], now)
    requires s.rooms[l].revision < MAX_REVISION && s.rooms[l].members[m].user != s.rooms[l].owner
    ensures Lawful(s, Put(s, l, Depart(s.rooms[l], m)), now)
  {
    var r := s.rooms[l];
    var left := Unseat(r, m);
    assert Sound(r, now);
    var host :| host in r.members && r.members[host].user == r.owner;
    assert host in left.members && left.members[host].user == left.owner;
    ReevaluateBumpKeeps(left);
    PutLawful(s, l, Depart(r, m), now);
  }

  lemma StaleUnseatLawful(s: Store, l: LobbyId, m: MembershipId, now: int)
    requires StoreInv(s) && SoundAt(s, now) && Seated(s, m, l) && !Live(s.rooms[l], now)
    ensures Lawful(s, Put(s, l, Unseat(s.rooms[l], m)), now)
  {
    assert Sound(s.rooms[l], now);
    PutLawful(s, l, Unseat(s.rooms[l], m), now);
  }

  /** The invariants that do not look at the clock are kept whatever the clock says. */
  lemma LeaveKeeps(s: Store, user: UserId, m: MembershipId, now: int, storage: bool)
    requires StoreInv(s)
    ensures StoreInv(Leave(s, user, m, now, storage).store)
  {
    var tx := Leave(s, user, m, now, storage);
    if tx.store != s {
      var l := Locate(s, m).value;
      var r := s.rooms[l];
      if !Live(r, now) {
        PutKeeps(s, l, Unseat(r, m));
      } else if r.owner == user {
        PutKeeps(s, l, Close(r, now));
      } else {
        ReevaluateBumpKeeps(Unseat(r, m));
        PutKeeps(s, l, Depart(r, m));
      }
    }
  }

  lemma LeaveLawful(s: Store, user: UserId, m: MembershipId, now: int, storage: bool)
    requires StoreInv(s) && SoundAt(s, now)
    ensures Lawful(s, Leave(s, user, m, now, storage).store, now)
  {
    var tx := Leave(s, user, m, now, storage);
    if Representable(now) && user in s.users && Locate(s, m).Some? {
      var l := Locate(s, m).value;
      var r := s.rooms[l];
      if r.members[m].user == user {
        if !Live(r, now) {
          StaleUnseatLawful(s, l, m, now);
        } else if r.revision < MAX_REVISION {
          if r.owner == user {
            PutLawful(s, l, Close(r, now), now);
          } else {
            DepartLawful(s, l, m, now);
          }
        }
      }
    }
  }

  lemma ReclaimLawful(s: Store, user: UserId, now: int)
    requires StoreInv(s) && SoundAt(s, now)
    ensures Lawful(s, Reclaim(s, user, now), now)
  {
    UnchangedEvolves(s, now);
    if SeatOf(s, user).Some? {
      var at := SeatOf(s, user).value;
      if !Live(s.rooms[at.lobby], now) {
        StaleUnseatLawful(s, at.lobby, at.membership, now);
      }
    }
  }

  /** Live lobbies are untouched, and a membership that is left is of a live lobby. */
  lemma ReclaimSeats(s: Store, user: UserId, now: int)
    requires CrossUnique(s)
    ensures Reclaim(s, user, now).rooms.Keys == s.rooms.Keys && Reclaim(s, user, now).users == s.users
    ensures forall l :: l in s.rooms && Live(s.rooms[l], now) ==> Reclaim(s, user, now).rooms[l] == s.rooms[l]
    ensures SeatOf(Reclaim(s, user, now), user).Some? ==>
              Reclaim(s, user, now) == s && Live(s.rooms[SeatOf(s, user).value.lobby], now)
  {
    var s1 := Reclaim(s, user, now);
    if SeatOf(s1, user).Some? && s1 != s {
      assert Holds(s, user, SeatOf(s1, user).value);
      assert false;
    }
  }

  lemma EnterLawful(s: Store, user: UserId, l: LobbyId, now: int, supply: Supply, departed: Option<(LobbyId, int)>)
    requires StoreInv(s) && SoundAt(s, now) && l in s.rooms && Live(s.rooms[l], now)
    requires Unclaimed(s, user) && user in s.users
    ensures Enter(s, user, l, now, supply, departed).Ok? ==>
              Lawful(s, Enter(s, user, l, now, supply, departed).value.0, now)
  {
    var entered := Enter(s, user, l, now, supply, departed);
    if entered.Ok? {
      var m := FreshMembership(s, supply, 0).value;
      var r := s.rooms[l];
      var seated := r.(members := r.members[m := Member(user, now)]);
      assert !Seated(s, m, l);
      assert Sound(r, now);
      forall k | k in r.members ensures r.members[k].user != user {
        assert !Holds(s, user, Seat(l, k));
      }
      var host :| host in r.members && r.members[host].user == r.owner;
      assert host in seated.members && seated.members[host].user == seated.owner;
      assert RoomInv(seated);
      ReevaluateBumpKeeps(seated);
      PutLawful(s, l, Admit(r, m, user, now), now);
    }
  }

  /** Two transactions' effects that end at the same moment compose when they touch different lobbies. */
  lemma LawfulThen(s: Store, s1: Store, s2: Store, now: int)
    requires Lawful(s, s1, now) && Lawful(s1, s2, now)
    requires forall l :: l in s.rooms && l in s1.rooms && l in s2.rooms ==> s1.rooms[l] == s.rooms[l] || s2.rooms[l] == s1.rooms[l]
    requires s.rooms.Keys <= s1.rooms.Keys
    ensures Lawful(s, s2, now)
  {
  }

  lemma LawfulThenPut(s: Store, s1: Store, l: LobbyId, r: Room, now: int)
    requires Lawful(s, s1, now) && Lawful(s1, Put(s1, l, r), now) && s1.rooms.Keys == s.rooms.Keys
    requires l in s.rooms ==> s1.rooms[l] == s.rooms[l]
    ensures Lawful(s, Put(s1, l, r), now)
  {
    LawfulThen(s, s1, Put(s1, l, r), now);
  }

  lemma EnterPuts(s: Store, user: UserId, l: LobbyId, now: int, supply: Supply, departed: Option<(LobbyId, int)>)
    requires l in s.rooms && s.rooms[l].policy.Some?
    ensures
      var entered := Enter(s, user, l, now, supply, departed);
      entered.Ok? ==> l in entered.value.0.rooms && entered.value.0 == Put(s, l, entered.value.0.rooms[l])
  {
  }

  lemma EnterAfter(s: Store, s1: Store, user: UserId, l: LobbyId, now: int, supply: Supply,
                   departed: Option<(LobbyId, int)>)
    requires Lawful(s, s1, now) && s1.rooms.Keys == s.rooms.Keys
    requires l in s.rooms && s1.rooms[l] == s.rooms[l] && Live(s.rooms[l], now)
    requires Unclaimed(s1, user) && user in s1.users
    ensures Enter(s1, user, l, now, supply, departed).Ok? ==>
              Lawful(s, Enter(s1, user, l, now, supply, departed).value.0, now)
  {
    EnterLawful(s1, user, l, now, supply, departed);
    var entered := Enter(s1, user, l, now, supply, departed);
    EnterPuts(s1, user, l, now, supply, departed);
    if entered.Ok? {
      LawfulThenPut(s, s1, l, entered.value.0.rooms[l], now);
    }
  }

  /** A departed guest holds nothing, so it can be seated again. */
  lemma DepartUnclaims(s: Store, user: UserId, at: Seat)
    requires CrossUnique(s) && Holds(s, user, at) && s.rooms[at.lobby].policy.Some?
    ensures Unclaimed(Put(s, at.lobby, Depart(s.rooms[at.lobby], at.membership)), user)
  {
    var s2 := Put(s, at.lobby, Depart(s.rooms[at.lobby], at.membership));
    forall other ensures !Holds(s2, user, other) {
      if Holds(s2, user, other) {
        assert Holds(s, user, other);
        assert false;
      }
    }
  }

  /** Moving a guest from one live lobby to another re-moderates both. */
  lemma TransferLawful(s: Store, user: UserId, l: LobbyId, at: Seat, now: int, supply: Supply)
    requires StoreInv(s) && SoundAt(s, now) && user in s.users
    requires l in s.rooms && Live(s.rooms[l], now)
    requires Holds(s, user, at) && Live(s.rooms[at.lobby], now)
    requires at.lobby != l && s.rooms[at.lobby].owner != user && s.rooms[at.lobby].revision < MAX_REVISION
    ensures
      var home := s.rooms[at.lobby];
      var entered := Enter(Put(s, at.lobby, Depart(home, at.membership)), user, l, now, supply,
                           Some((at.lobby, home.revision + 1)));
      entered.Ok? ==> Lawful(s, entered.value.0, now)
  {
    var home := s.rooms[at.lobby];
    var s2 := Put(s, at.lobby, Depart(home, at.membership));
    DepartLawful(s, at.lobby, at.membership, now);
    DepartUnclaims(s, user, at);
    EnterAfter(s, s2, user, l, now, supply, Some((at.lobby, home.revision + 1)));
  }

  lemma JoinLawful(s: Store, user: UserId, code: JoinCode, now: int, supply: Supply, storage: bool)
    requires StoreInv(s) && SoundAt(s, now)
    ensures Lawful(s, Join(s, user, code, now, supply, storage).store, now)
  {
    UnchangedEvolves(s, now);
    if Representable(now) && user in s.users && Invited(s, code, now).Some? {
      var l := Invited(s, code, now).value;
      var s1 := Reclaim(s, user, now);
      ReclaimLawful(s, user, now);
      ReclaimSeats(s, user, now);
      match SeatOf(s1, user)
      case None =>
        EnterAfter(s, s1, user, l, now, supply, None);
      case Some(at) =>
        if at.lobby != l && s.rooms[at.lobby].owner != user && s.rooms[at.lobby].revision < MAX_REVISION {
          TransferLawful(s, user, l, at, now, supply);
        }
    }
  }

  lemma ReclaimKeeps(s: Store, user: UserId, now: int)
    requires StoreInv(s)
    ensures StoreInv(Reclaim(s, user, now))
  {
    if Reclaim(s, user, now) != s {
      var at := SeatOf(s, user).value;
      PutKeeps(s, at.lobby, Unseat(s.rooms[at.lobby], at.membership));
    }
  }

  lemma EnterKeeps(s: Store, user: UserId, l: LobbyId, now: int, supply: Supply, departed: Option<(LobbyId, int)>)
    requires StoreInv(s) && l in s.rooms && s.rooms[l].closedAt.None? && Unclaimed(s, user) && user in s.users
    ensures Enter(s, user, l, now, supply, departed).Ok? ==>
              StoreInv(Enter(s, user, l, now, supply, departed).value.0)
  {
    var entered := Enter(s, user, l, now, supply, departed);
    if entered.Ok? {
      var m := FreshMembership(s, supply, 0).value;
      var r := s.rooms[l];
      var seated := r.(members := r.members[m := Member(user, now)]);
      assert !Seated(s, m, l);
      forall k | k in r.members ensures r.members[k].user != user {
        assert !Holds(s, user, Seat(l, k));
      }
      assert RoomInv(seated);
      ReevaluateBumpKeeps(seated);
      PutKeeps(s, l, Admit(r, m, user, now));
    }
  }

  lemma DepartKeeps(s: Store, user: UserId, at: Seat)
    requires StoreInv(s) && Holds(s, user, at) && s.rooms[at.lobby].closedAt.None? && s.rooms[at.lobby].revision < MAX_REVISION
    ensures StoreInv(Put(s, at.lobby, Depart(s.rooms[at.lobby], at.membership)))
    ensures Unclaimed(Put(s, at.lobby, Depart(s.rooms[at.lobby], at.membership)), user)
  {
    var r := s.rooms[at.lobby];
    ReevaluateBumpKeeps(Unseat(r, at.membership));
    PutKeeps(s, at.lobby, Depart(r, at.membership));
    DepartUnclaims(s, user, at);
  }

  lemma FoundedSound(c: Candidate, user: UserId, now: int)
    ensures RoomInv(Founded(c, user, now)) && Sound(Founded(c, user, now), now)
  {
    var r := Founded(c, user, now);
    assert c.membership in r.members && r.members[c.membership].user == r.owner;
  }

  lemma FoundKeeps(s: Store, c: Candidate, user: UserId, now: int)
    requires StoreInv(s) && Unclaimed(s, user) && user in s.users
    requires c.lobby !in s.rooms && !CodeTaken(s, c.code) && forall l :: !Seated(s, c.membership, l)
    ensures CrossUnique(Put(s, c.lobby, Founded(c, user, now)))
    ensures Accounts(Put(s, c.lobby, Founded(c, user, now)))
  {
    var s' := Put(s, c.lobby, Founded(c, user, now));
    forall m, k | Seated(s', m, k)
      ensures (k == c.lobby && m == c.membership) || Seated(s, m, k)
      ensures s'.rooms[k].members[m].user in s'.users
    {
    }
    forall x, a, b | Holds(s', x, a) && Holds(s', x, b) ensures a == b {
      if a.lobby != c.lobby { assert Holds(s, x, a); }
      if b.lobby != c.lobby { assert Holds(s, x, b); }
    }
  }

  lemma FoundLawful(s: Store, c: Candidate, user: UserId, now: int)
    requires StoreInv(s) && SoundAt(s, now) && Unclaimed(s, user) && user in s.users
    requires c.lobby !in s.rooms && !CodeTaken(s, c.code) && forall l :: !Seated(s, c.membership, l)
    ensures Lawful(s, Put(s, c.lobby, Founded(c, user, now)), now)
  {
    FoundedSound(c, user, now);
    FoundKeeps(s, c, user, now);
  }

  lemma FoundAfter(s: Store, s1: Store, c: Candidate, user: UserId, now: int)
    requires Lawful(s, s1, now) && s1.rooms.Keys == s.rooms.Keys && Unclaimed(s1, user) && user in s1.users
    requires c.lobby !in s1.rooms && !CodeTaken(s1, c.code) && forall l :: !Seated(s1, c.membership, l)
    ensures Lawful(s, Put(s1, c.lobby, Founded(c, user, now)), now)
  {
    FoundLawful(s1, c, user, now);
    LawfulThenPut(s, s1, c.lobby, Founded(c, user, now), now);
  }

  /** Creation leaves the old store, or the one without the caller's ended membership and with the lobby it founds. */
  lemma CreateFounds(s: Store, user: UserId, now: int, supply: Candidates, storage: bool)
    requires StoreInv(s)
    ensures
      var s1, s' := Reclaim(s, user, now), Create(s, user, now, supply, storage).store;
      s' != s ==> user in s.users && SeatOf(s1, user).None? && FreshLobby(s1, supply, 0).Some?
                  && s' == Put(s1, FreshLobby(s1, supply, 0).value.lobby, Founded(FreshLobby(s1, supply, 0).value, user, now))
  {
  }

  lemma CreateLawful(s: Store, user: UserId, now: int, supply: Candidates, storage: bool)
    requires StoreInv(s) && SoundAt(s, now)
    ensures Lawful(s, Create(s, user, now, supply, storage).store, now)
  {
    UnchangedEvolves(s, now);
    CreateFounds(s, user, now, supply, storage);
    if Create(s, user, now, supply, storage).store != s {
      var s1 := Reclaim(s, user, now);
      ReclaimLawful(s, user, now);
      ReclaimSeats(s, user, now);
      FoundAfter(s, s1, FreshLobby(s1, supply, 0).value, user, now);
    }
  }

  lemma ExpireLawful(s: Store, asOf: int, now: int)
    requires StoreInv(s) && SoundAt(s, now) && asOf <= now
    ensures Lawful(s, Expire(s, asOf), now)
  {
    ExpireKeeps(s, asOf);
    ExpireEvolves(s, asOf, now);
  }

  lemma ExpireEvolves(s: Store, asOf: int, now: int)
    requires SoundAt(s, now) && asOf <= now
    ensures SoundAt(Expire(s, asOf), now) && StoreEvolves(s, Expire(s, asOf), now)
  {
  }

  /** The invariants that do not look at the clock, kept by a join at any time. */
  lemma JoinKeeps(s: Store, user: UserId, code: JoinCode, now: int, supply: Supply, storage: bool)
    requires StoreInv(s)
    ensures StoreInv(Join(s, user, code, now, supply, storage).store)
  {
    if Representable(now) && user in s.users && Invited(s, code, now).Some? {
      var l := Invited(s, code, now).value;
      var s1 := Reclaim(s, user, now);
      ReclaimKeeps(s, user, now);
      ReclaimSeats(s, user, now);
      match SeatOf(s1, user)
      case None => EnterKeeps(s1, user, l, now, supply, None);
      case Some(at) =>
        var home := s1.rooms[at.lobby];
        if at.lobby != l && home.owner != user && home.revision < MAX_REVISION {
          DepartKeeps(s, user, at);
          EnterKeeps(Put(s, at.lobby, Depart(home, at.membership)), user, l, now, supply,
                     Some((at.lobby, home.revision + 1)));
        }
    }
  }

  lemma CreateKeeps(s: Store, user: UserId, now: int, supply: Candidates, storage: bool)
    requires StoreInv(s)
    ensures StoreInv(Create(s, user, now, supply, storage).store)
  {
    CreateFounds(s, user, now, supply, storage);
    if Create(s, user, now, supply, storage).store != s {
      var s1 := Reclaim(s, user, now);
      ReclaimKeeps(s, user, now);
      ReclaimSeats(s, user, now);
      FoundedSound(FreshLobby(s1, supply, 0).value, user, now);
      FoundKeeps(s1, FreshLobby(s1, supply, 0).value, user, now);
    }
  }

  lemma ExpireKeeps(s: Store, asOf: int)
    requires StoreInv(s)
    ensures StoreInv(Expire(s, asOf))
  {
    var s' := Expire(s, asOf);
    forall m, k | Seated(s', m, k) ensures Seated(s, m, k) {}
    forall x, a | Holds(s', x, a) ensures Holds(s, x, a) {}
  }

  lemma RegisterKeeps(s: Store, id: UserId)
    requires StoreInv(s)
    ensures StoreInv(s.(users := s.users + {id}))
  {
    var s' := s.(users := s.users + {id});
    assert forall m, k :: Seated(s', m, k) ==> Seated(s, m, k);
    assert forall x, a :: Holds(s', x, a) ==> Holds(s, x, a);
  }
}
