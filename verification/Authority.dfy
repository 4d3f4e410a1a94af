/**
 Who may do what: the decisions of the queue's transactions told from the stored memberships, owners and deadlines,
 for every caller, role, request and clock.
 */
module Authority {
  import opened Prelude
  import opened Ordering
  import opened Rooms
  import opened Transactions
  import opened StoreLaws
  import opened Accounting

  /** The caller's account exists and its token is live, and it holds `m` in `l`, which is open and not ended. */
  ghost predicate Admitted(s: Store, user: Account, m: MembershipId, l: LobbyId, clock: Clock) {
    && user.id in s.users && clock[0] < user.expiresAt
    && Holds(s, user.id, Seat(l, m)) && s.rooms[l].closedAt.None? && clock[1] < s.rooms[l].expiresAt
  }

  /** Only guests vote; only the owner does anything else to the queue. */
  ghost predicate InItsRole(s: Store, user: UserId, l: LobbyId, c: Command)
    requires l in s.rooms
  {
    s.rooms[l].owner == user <==> !c.Vote?
  }

  /** The refusal at the last sample of the clock, when a transaction is about to commit. */
  function TooLate(expiresAt: int, user: Account, now: int): Option<QueueError> {
    if user.expiresAt <= now then Some(Unauthorized)
    else if expiresAt <= now then Some(MembershipForbidden)
    else if now < FIRST_SECOND || now > LAST_SECOND then Some(Unavailable)
    else None
  }

  lemma LateIsLate(expiresAt: int, user: Account, now: int)
    ensures Deadlines(expiresAt, user, now) == TooLate(expiresAt, user, now)
  {
  }

  lemma AdmittedLocates(s: Store, user: Account, m: MembershipId, l: LobbyId, clock: Clock)
    requires StoreInv(s) && Admitted(s, user, m, l, clock)
    ensures Locate(s, m) == Some(l)
  {
    assert Seated(s, m, l);
  }

  lemma AdmittedPasses(s: Store, user: Account, m: MembershipId, l: LobbyId, clock: Clock)
    requires StoreInv(s) && Admitted(s, user, m, l, clock)
    ensures Authorize(s, user, m, AnyMember, clock) == Ok(l)
    ensures Authorize(s, user, m, Host, clock) == if s.rooms[l].owner == user.id then Ok(l) else Err(HostRequired)
    ensures Authorize(s, user, m, Guest, clock) == if s.rooms[l].owner != user.id then Ok(l) else Err(GuestRequired)
  {
    AdmittedLocates(s, user, m, l, clock);
  }

  lemma PassedIsAdmitted(s: Store, user: Account, m: MembershipId, p: Permission, clock: Clock)
    requires StoreInv(s) && Authorize(s, user, m, p, clock).Ok?
    ensures Admitted(s, user, m, Authorize(s, user, m, p, clock).value, clock)
  {
  }

  /** Why an outsider is turned away. */
  ghost function Outside(s: Store, user: Account, clock: Clock): QueueError {
    if user.id in s.users && clock[0] < user.expiresAt then MembershipForbidden else Unauthorized
  }

  lemma OutsiderFails(s: Store, user: Account, m: MembershipId, p: Permission, clock: Clock)
    requires StoreInv(s) && forall l :: !Admitted(s, user, m, l, clock)
    ensures Authorize(s, user, m, p, clock) == Err(Outside(s, user, clock))
  {
    if user.id in s.users && clock[0] < user.expiresAt && Locate(s, m).Some? {
      assert !Admitted(s, user, m, Locate(s, m).value, clock);
    }
  }

  // ---------------------------------------------------------------- edits

  /** An edit commits only for an admitted caller in the role it needs, whose deadlines still hold when it commits. */
  lemma CommitsForItsRole(s: Store, user: Account, m: MembershipId, c: Command, clock: Clock, storage: bool)
    returns (l: LobbyId)
    requires StoreInv(s) && WellTyped(c) && Mutate(s, user, m, c, clock, storage).reply.Ok?
    ensures storage && Admitted(s, user, m, l, clock) && InItsRole(s, user.id, l, c)
    ensures TooLate(s.rooms[l].expiresAt, user, clock[DEADLINE]).None?
    ensures
      var tx := Mutate(s, user, m, c, clock, storage);
      && tx.reply.value.view.lobby == l && tx.reply.value.view.membership == m
      && l in tx.store.rooms && tx.store == Put(s, l, tx.store.rooms[l])
  {
    l := Authorize(s, user, m, Needs(c), clock).value;
    PassedIsAdmitted(s, user, m, Needs(c), clock);
    AdmittedPasses(s, user, m, l, clock);
    MutateFinishes(s, l, user, m, c, clock);
    assert s == Put(s, l, s.rooms[l]);
    FinishKeepsPlace(s, l, EditOf(s.rooms[l], user.id, c, clock[WRITE]).value, user, m, clock);
  }

  lemma FinishKeepsPlace(s: Store, l: LobbyId, edited: Option<Room>, user: Account, m: MembershipId, clock: Clock)
    requires StoreInv(s) && l in s.rooms && s.rooms[l].closedAt.None?
    requires edited.Some? ==> EditSound(s.rooms[l], edited.value)
    requires Finish(s, l, edited, user, m, clock).reply.Ok?
    ensures TooLate(s.rooms[l].expiresAt, user, clock[DEADLINE]).None?
    ensures var tx := Finish(s, l, edited, user, m, clock);
      && tx.reply.value.view.lobby == l && tx.reply.value.view.membership == m
      && l in tx.store.rooms && tx.store == s.(rooms := s.rooms[l := tx.store.rooms[l]])
  {
    assert s.rooms == s.rooms[l := s.rooms[l]];
  }

  /** An admitted caller in the wrong role is told which role it takes, and nothing changes. */
  lemma WrongRoleIsRefused(s: Store, user: Account, m: MembershipId, l: LobbyId, c: Command, clock: Clock)
    requires StoreInv(s) && WellTyped(c) && Admitted(s, user, m, l, clock) && !InItsRole(s, user.id, l, c)
    ensures Mutate(s, user, m, c, clock, true) == Tx(s, Err(if c.Vote? then GuestRequired else HostRequired))
  {
    AdmittedPasses(s, user, m, l, clock);
  }

  /** Nobody else edits, reads or submits anything, and is told whether it is the account or the membership. */
  lemma OutsidersAreRefused(s: Store, user: Account, m: MembershipId, c: Command, request: RequestId, video: Video,
                            supply: Supply, clock: Clock)
    requires StoreInv(s) && WellTyped(c) && forall l :: !Admitted(s, user, m, l, clock)
    ensures Mutate(s, user, m, c, clock, true) == Tx(s, Err(Outside(s, user, clock)))
    ensures ReadQueue(s, user, m, clock, true) == Err(Outside(s, user, clock))
    ensures ReadReceipt(s, user, m, request, video.videoId, clock, true) == Err(Outside(s, user, clock))
    ensures Submit(s, user, m, request, video, supply, clock, true) == Tx(s, Err(Outside(s, user, clock)))
  {
    OutsiderFails(s, user, m, AnyMember, clock);
    OutsiderFails(s, user, m, Needs(c), clock);
  }

  /** Owner and guests alike read the queue, as long as their deadlines hold. */
  lemma MembersRead(s: Store, user: Account, m: MembershipId, l: LobbyId, clock: Clock)
    requires StoreInv(s) && Admitted(s, user, m, l, clock)
    ensures ReadQueue(s, user, m, clock, true) ==
            match TooLate(s.rooms[l].expiresAt, user, clock[DEADLINE])
            case Some(e) => Err(e)
            case None => Ok(Snapshot(s.rooms[l], l, user.id, m))
  {
    AdmittedPasses(s, user, m, l, clock);
    LateIsLate(s.rooms[l].expiresAt, user, clock[DEADLINE]);
  }
}
