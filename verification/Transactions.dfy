/**
 What each transaction of the lobby and queue store does to the map of
 lobbies: a reply, and the store that commits (the old one when it rolls back).
 Without `storage` some statement fails, be it the first, and nothing commits.
 */
module Transactions {
  import opened Prelude
  import opened Ordering
  import opened Rooms

  datatype Store = Store(users: set<UserId>, rooms: map<LobbyId, Room>)

  /** An authenticated caller; its token expires. */
  datatype Account = Account(id: UserId, expiresAt: int)

  datatype Tx<T> = Tx(store: Store, reply: T)

  // Every transaction samples the clock at most SAMPLES times, in order: twice
  // to authorize, once per attempted write, once before it commits.
  const SAMPLES := 11
  const WRITE := 2
  const DEADLINE := 10
  const ATTEMPTS := 8

  type Clock = c: seq<int> | |c| == SAMPLES && forall i, j :: 0 <= i <= j < SAMPLES ==> c[i] <= c[j]
    witness [0, 0, 0, 0, 0, 0, 0, 0, 0, 0, 0]

  // What the injected allocators return, call by call; None is a failing call.
  type Supply = s: seq<Option<nat>> | |s| == ATTEMPTS
    witness [None, None, None, None, None, None, None, None]

  datatype Candidate = Candidate(lobby: LobbyId, membership: MembershipId, code: JoinCode)
  type Candidates = s: seq<Option<Candidate>> | |s| == ATTEMPTS
    witness [None, None, None, None, None, None, None, None]

  // ---------------------------------------------------------------- lookups

  ghost predicate Seated(s: Store, m: MembershipId, l: LobbyId) {
    l in s.rooms && m in s.rooms[l].members
  }

  /** The lobby a membership belongs to. */
  ghost function Locate(s: Store, m: MembershipId): (r: Option<LobbyId>)
    ensures r.Some? ==> Seated(s, m, r.value)
    ensures r.None? ==> forall l :: !Seated(s, m, l)
  {
    if exists l :: Seated(s, m, l) then var l :| Seated(s, m, l); Some(l) else None
  }

  datatype Seat = Seat(lobby: LobbyId, membership: MembershipId)

  ghost predicate Holds(s: Store, user: UserId, at: Seat) {
    Seated(s, at.membership, at.lobby) && s.rooms[at.lobby].members[at.membership].user == user
  }

  /** The membership an account holds. */
  ghost function SeatOf(s: Store, user: UserId): (r: Option<Seat>)
    ensures r.Some? ==> Holds(s, user, r.value)
    ensures r.None? ==> forall at :: !Holds(s, user, at)
  {
    if exists at :: Holds(s, user, at) then var at :| Holds(s, user, at); Some(at) else None
  }

  ghost predicate Invites(s: Store, code: JoinCode, now: int, l: LobbyId) {
    l in s.rooms && s.rooms[l].code == code && Live(s.rooms[l], now)
  }

  ghost function Invited(s: Store, code: JoinCode, now: int): (r: Option<LobbyId>)
    ensures r.Some? ==> Invites(s, code, now, r.value)
    ensures r.None? ==> forall l :: !Invites(s, code, now, l)
  {
    if exists l :: Invites(s, code, now, l) then var l :| Invites(s, code, now, l); Some(l) else None
  }

  ghost predicate EntryTaken(s: Store, e: EntryId) {
    exists l :: l in s.rooms && e in s.rooms[l].entries
  }

  ghost predicate CodeTaken(s: Store, code: JoinCode) {
    exists l :: l in s.rooms && s.rooms[l].code == code
  }

  // ---------------------------------------------------------------- well-formed stores

  ghost predicate RoomsInv(s: Store) {
    forall l :: l in s.rooms ==> RoomInv(s.rooms[l])
  }

  // The UNIQUE constraints that span lobbies.
  ghost predicate UniqueMemberships(s: Store) {
    forall m, k, l :: Seated(s, m, k) && Seated(s, m, l) ==> k == l
  }

  ghost predicate UniqueUsers(s: Store) {
    forall user, a, b :: Holds(s, user, a) && Holds(s, user, b) ==> a == b
  }

  ghost predicate UniqueEntries(s: Store) {
    forall e, k, l :: k in s.rooms && l in s.rooms && e in s.rooms[k].entries && e in s.rooms[l].entries ==> k == l
  }

  ghost predicate UniqueCodes(s: Store) {
    forall k, l :: k in s.rooms && l in s.rooms && s.rooms[k].code == s.rooms[l].code ==> k == l
  }

  ghost predicate CrossUnique(s: Store) {
    UniqueMemberships(s) && UniqueUsers(s) && UniqueEntries(s) && UniqueCodes(s)
  }

  ghost predicate Accounts(s: Store) {
    forall l, m :: Seated(s, m, l) ==> s.rooms[l].members[m].user in s.users
  }

  ghost predicate StoreInv(s: Store) {
    RoomsInv(s) && CrossUnique(s) && Accounts(s)
  }

  /** A lobby still active at `now` is stable, and its owner is a member. */
  ghost predicate Sound(r: Room, now: int) {
    && r.createdAt <= now
    && (Live(r, now) && r.policy.Some? ==> Stable(r) && HostSeated(r))
  }

  ghost predicate SoundAt(s: Store, now: int) {
    forall l :: l in s.rooms ==> Sound(s.rooms[l], now)
  }

  // ---------------------------------------------------------------- authorization

  datatype Permission = AnyMember | Host | Guest

  ghost function Authorize(s: Store, user: Account, m: MembershipId, permission: Permission, clock: Clock)
    : (r: Result<LobbyId, QueueError>)
    requires StoreInv(s)
    ensures r.Ok? ==> Holds(s, user.id, Seat(r.value, m))
    ensures r.Ok? ==> s.rooms[r.value].closedAt.None? && clock[1] < s.rooms[r.value].expiresAt
  {
    if user.id !in s.users || clock[0] >= user.expiresAt then Err(Unauthorized)
    else match Locate(s, m)
      case None => Err(MembershipForbidden)
      case Some(l) =>
        var r := s.rooms[l];
        if r.members[m].user != user.id || r.closedAt.Some? || clock[1] >= r.expiresAt then Err(MembershipForbidden)
        else if permission == Host && r.owner != user.id then Err(HostRequired)
        else if permission == Guest && r.owner == user.id then Err(GuestRequired)
        else Ok(l)
  }

  function Deadlines(expiresAt: int, user: Account, now: int): Option<QueueError> {
    if now >= user.expiresAt then Some(Unauthorized)
    else if now >= expiresAt then Some(MembershipForbidden)
    else if !Representable(now) then Some(Unavailable)
    else None
  }

  function Needs(c: Command): Permission {
    if c.Vote? then Guest else Host
  }

  function Bump(r: Room): Room {
    r.(revision := r.revision + 1)
  }

  // ---------------------------------------------------------------- queue transactions

  datatype Mutation = Mutation(changed: bool, view: QueueView)
  datatype Submission = Submission(changed: bool, entry: EntryId, active: bool, view: QueueView)

  ghost function ReadQueue(s: Store, user: Account, m: MembershipId, clock: Clock,
                           storage: bool): Result<QueueView, QueueError>
    requires StoreInv(s)
  {
    if !storage then Err(Storage)
    else match Authorize(s, user, m, AnyMember, clock)
    case Err(e) => Err(e)
    case Ok(l) =>
      match Deadlines(s.rooms[l].expiresAt, user, clock[DEADLINE])
      case Some(e) => Err(e)
      case None => Ok(Snapshot(s.rooms[l], l, user.id, m))
  }

  /** The tail every queue mutation shares: take a revision if something changed, look, check deadlines, commit. */
  ghost function Finish(s: Store, l: LobbyId, edited: Option<Room>, user: Account, m: MembershipId, clock: Clock)
    : Tx<Result<Mutation, QueueError>>
    requires StoreInv(s) && l in s.rooms && s.rooms[l].closedAt.None?
    requires edited.Some? ==> EditSound(s.rooms[l], edited.value)
  {
    if edited.Some? && s.rooms[l].revision == MAX_REVISION then Tx(s, Err(Unavailable))
    else match Deadlines(s.rooms[l].expiresAt, user, clock[DEADLINE])
      case Some(e) => Tx(s, Err(e))
      case None =>
        match edited
          case None => Tx(s, Ok(Mutation(false, Snapshot(s.rooms[l], l, user.id, m))))
          case Some(r) => Tx(s.(rooms := s.rooms[l := Bump(r)]), Ok(Mutation(true, Snapshot(Bump(r), l, user.id, m))))
  }

  /** move_queue, moderate_queue, advance_queue and veto_queue. */
  ghost function Mutate(s: Store, user: Account, m: MembershipId, c: Command, clock: Clock, storage: bool)
    : Tx<Result<Mutation, QueueError>>
    requires StoreInv(s) && WellTyped(c)
  {
    if !storage then Tx(s, Err(Storage))
    else match Authorize(s, user, m, Needs(c), clock)
    case Err(e) => Tx(s, Err(e))
    case Ok(l) =>
      var edit := EditOf(s.rooms[l], user.id, c, clock[WRITE]);
      if edit.Err? then Tx(s, Err(edit.error))
      else
        EditMaySound(s.rooms[l], user.id, c, clock[WRITE]);
        Finish(s, l, edit.value, user, m, clock)
  }

  lemma EditMaySound(r: Room, user: UserId, c: Command, at: int)
    requires RoomInv(r) && r.closedAt.None? && WellTyped(c)
    ensures Changes(EditOf(r, user, c, at)) ==> EditSound(r, EditOf(r, user, c, at).value.value)
  {
    if Changes(EditOf(r, user, c, at)) { EditKeeps(r, user, c, at); }
  }

  ghost predicate Receipt(r: Room, user: UserId, request: RequestId, e: EntryId) {
    e in r.entries && r.entries[e].submitter == user && r.entries[e].request == request
  }

  /** The entry an earlier submission with this retry identity created. */
  ghost function ReceiptOf(r: Room, user: UserId, request: RequestId): (e: Option<EntryId>)
    ensures e.Some? ==> Receipt(r, user, request, e.value)
    ensures e.None? ==> forall x :: !Receipt(r, user, request, x)
  {
    if exists e :: Receipt(r, user, request, e) then var e :| Receipt(r, user, request, e); Some(e) else None
  }

  function Submitted(changed: bool, e: EntryId, r: Room, view: QueueView): Submission {
    Submission(changed, e, e in r.queue, view)
  }

  /** queue_receipt: None when there is no earlier submission. */
  ghost function ReadReceipt(s: Store, user: Account, m: MembershipId, request: RequestId, video: string,
                             clock: Clock, storage: bool)
    : Result<Option<Submission>, QueueError>
    requires StoreInv(s)
  {
    if !storage then Err(Storage)
    else match Authorize(s, user, m, AnyMember, clock)
    case Err(e) => Err(e)
    case Ok(l) =>
      var r := s.rooms[l];
      match ReceiptOf(r, user.id, request)
      case Some(e) =>
        if r.entries[e].video.videoId != video then Err(IdempotencyConflict)
        else (match Deadlines(r.expiresAt, user, clock[DEADLINE])
              case Some(x) => Err(x)
              case None => Ok(Some(Submitted(false, e, r, Snapshot(r, l, user.id, m)))))
      case None =>
        (match Deadlines(r.expiresAt, user, clock[DEADLINE])
         case Some(x) => Err(x)
         case None => Ok(None))
  }

  /** The bounded insertion loop: the first allocated id that is free, with its timestamp. */
  ghost function FreshEntry(s: Store, supply: Supply, clock: Clock, k: nat): (r: Option<(EntryId, int)>)
    requires k <= ATTEMPTS
    ensures r.Some? ==> !EntryTaken(s, r.value.0) && Representable(r.value.1) && r.value.1 in clock
    decreases ATTEMPTS - k
  {
    if k == ATTEMPTS || supply[k].None? || !Representable(clock[WRITE + k]) then None
    else if EntryTaken(s, supply[k].value) then FreshEntry(s, supply, clock, k + 1)
    else Some((supply[k].value, clock[WRITE + k]))
  }

  function Append(r: Room, e: EntryId, entry: Entry): Room {
    r.(queue := r.queue + [e], entries := r.entries[e := entry])
  }

  ghost function Submit(s: Store, user: Account, m: MembershipId, request: RequestId, video: Video,
                        supply: Supply, clock: Clock, storage: bool)
    : Tx<Result<Submission, QueueError>>
    requires StoreInv(s)
  {
    if !storage then Tx(s, Err(Storage))
    else match Authorize(s, user, m, AnyMember, clock)
    case Err(e) => Tx(s, Err(e))
    case Ok(l) =>
      var r := s.rooms[l];
      match ReceiptOf(r, user.id, request)
      case Some(e) =>
        if r.entries[e].video.videoId != video.videoId then Tx(s, Err(IdempotencyConflict))
        else (match Deadlines(r.expiresAt, user, clock[DEADLINE])
              case Some(x) => Tx(s, Err(x))
              case None => Tx(s, Ok(Submitted(false, e, r, Snapshot(r, l, user.id, m)))))
      case None => Insert(s, l, user, m, request, video, supply, clock)
  }

  /** The writing half of a submission, once no receipt was found. */
  ghost function Insert(s: Store, l: LobbyId, user: Account, m: MembershipId, request: RequestId, video: Video,
                        supply: Supply, clock: Clock)
    : Tx<Result<Submission, QueueError>>
    requires StoreInv(s) && l in s.rooms && s.rooms[l].closedAt.None?
    requires ReceiptOf(s.rooms[l], user.id, request).None?
  {
    var r := s.rooms[l];
    match FreshEntry(s, supply, clock, 0)
    case None => Tx(s, Err(Unavailable))
    case Some((e, at)) =>
      var r' := Append(r, e, Entry(user.id, request, video, at));
      AppendKeeps(s, l, user.id, request, e, r'.entries[e]);
      if r.revision == MAX_REVISION then Tx(s, Err(Unavailable))
      else match Deadlines(r.expiresAt, user, clock[DEADLINE])
        case Some(x) => Tx(s, Err(x))
        case None =>
          Tx(s.(rooms := s.rooms[l := Bump(r')]), Ok(Submitted(true, e, r', Snapshot(Bump(r'), l, user.id, m))))
  }

  /** Appending a fresh occurrence under an unused retry identity. */
  lemma AppendKeeps(s: Store, l: LobbyId, user: UserId, request: RequestId, e: EntryId, entry: Entry)
    requires StoreInv(s) && l in s.rooms && s.rooms[l].closedAt.None?
    requires ReceiptOf(s.rooms[l], user, request).None? && !EntryTaken(s, e)
    requires entry.submitter == user && entry.request == request
    ensures
      var r, r' := s.rooms[l], Append(s.rooms[l], e, entry);
      && RoomInv(r') && (Stable(r) ==> Stable(r'))
  {
    var r, r' := s.rooms[l], Append(s.rooms[l], e, entry);
    assert forall d :: d in r.entries && SameRequest(r.entries[d], entry) ==> Receipt(r, user, request, d);
    if Stable(r) {
      forall d | d in r'.queue ensures !Qualifies(r', d) {
        if d == e {
          assert Voters(r', e) == {};
        } else {
          QualifiesDependsOn(r, r', d);
        }
      }
    }
  }

  // ---------------------------------------------------------------- lobby transactions

  datatype LobbyError =
    | LobbyUnauthorized
    | NotYours
    | AlreadyInLobby
    | LobbyUnavailable
    | TemporarilyUnavailable
    | LobbyStorage

  /** The current-lobby view; the roster is the set of its members with their join times. */
  datatype LobbyView = LobbyView(membership: MembershipId, lobby: LobbyId, code: JoinCode, owner: UserId,
                                 createdAt: int, expiresAt: int, revision: int, roster: set<Member>)

  function ViewLobby(r: Room, l: LobbyId, m: MembershipId): LobbyView {
    LobbyView(m, l, r.code, r.owner, r.createdAt, r.expiresAt, r.revision, r.members.Values)
  }

  function Unseat(r: Room, m: MembershipId): Room {
    r.(members := r.members - {m})
  }

  function Close(r: Room, now: int): Room {
    Room(r.code, r.owner, r.createdAt, r.expiresAt, Some(now), r.revision + 1,
         map[], None, [], map[], map[])
  }

  /** A guest's departure: the membership goes, moderation is redone, one revision is taken. */
  function Depart(r: Room, m: MembershipId): Room
    requires r.policy.Some?
  {
    Bump(Reevaluate(Unseat(r, m)))
  }

  function Admit(r: Room, m: MembershipId, user: UserId, now: int): Room
    requires r.policy.Some?
  {
    Bump(Reevaluate(r.(members := r.members[m := Member(user, now)])))
  }

  ghost function Leave(s: Store, user: UserId, m: MembershipId, now: int, storage: bool)
    : Tx<Result<Option<(LobbyId, int)>, LobbyError>>
    requires StoreInv(s)
  {
    if !storage then Tx(s, Err(LobbyStorage))
    else if !Representable(now) then Tx(s, Err(TemporarilyUnavailable))
    else if user !in s.users then Tx(s, Err(LobbyUnauthorized))
    else match Locate(s, m)
      case None => Tx(s, Ok(None))
      case Some(l) =>
        var r := s.rooms[l];
        if r.members[m].user != user then Tx(s, Err(NotYours))
        else if !Live(r, now) then Tx(s.(rooms := s.rooms[l := Unseat(r, m)]), Ok(None))
        else if r.revision == MAX_REVISION then Tx(s, Err(TemporarilyUnavailable))
        else if r.owner == user && now < r.createdAt then Tx(s, Err(LobbyStorage))
        else Tx(s.(rooms := s.rooms[l := if r.owner == user then Close(r, now) else Depart(r, m)]), Ok(Some((l, r.revision + 1))))
  }

  /** Drops the caller's membership of a closed or expired lobby. */
  ghost function Reclaim(s: Store, user: UserId, now: int): Store {
    match SeatOf(s, user)
    case None => s
    case Some(at) =>
      if Live(s.rooms[at.lobby], now) then s
      else s.(rooms := s.rooms[at.lobby := Unseat(s.rooms[at.lobby], at.membership)])
  }

  ghost function FreshMembership(s: Store, supply: Supply, k: nat): (r: Option<MembershipId>)
    requires k <= ATTEMPTS
    ensures r.Some? ==> forall l :: !Seated(s, r.value, l)
    decreases ATTEMPTS - k
  {
    if k == ATTEMPTS || supply[k].None? then None
    else if exists l :: Seated(s, supply[k].value, l) then FreshMembership(s, supply, k + 1)
    else Some(supply[k].value)
  }

  datatype Joined = Joined(view: LobbyView, changed: bool, departed: Option<(LobbyId, int)>)

  /** Seats the caller in `l` of the store `s`, or refuses: the end of a join. */
  ghost function Enter(s: Store, user: UserId, l: LobbyId, now: int, supply: Supply, departed: Option<(LobbyId, int)>)
    : Result<(Store, Joined), LobbyError>
    requires l in s.rooms && s.rooms[l].policy.Some?
  {
    match FreshMembership(s, supply, 0)
    case None => Err(TemporarilyUnavailable)
    case Some(m) =>
      if s.rooms[l].revision == MAX_REVISION then Err(TemporarilyUnavailable)
      else
        var r := Admit(s.rooms[l], m, user, now);
        Ok((s.(rooms := s.rooms[l := r]), Joined(ViewLobby(r, l, m), true, departed)))
  }

  /** Joining a lobby that is active: stay, move over from another lobby as a guest, or simply enter. */
  ghost function JoinTo(s: Store, user: UserId, l: LobbyId, now: int, supply: Supply)
    : Tx<Result<Joined, LobbyError>>
    requires StoreInv(s) && l in s.rooms && Live(s.rooms[l], now)
  {
    var s1 := Reclaim(s, user, now);
    JoinFrom(s, s1, SeatOf(s1, user), user, l, now, supply)
  }

  /** `s1` is the store after ended memberships of the caller were reclaimed, `seat` the one that is left. */
  ghost function JoinFrom(s: Store, s1: Store, seat: Option<Seat>, user: UserId, l: LobbyId, now: int, supply: Supply)
    : Tx<Result<Joined, LobbyError>>
    requires l in s1.rooms && s1.rooms[l].policy.Some? && (seat.Some? ==> Seated(s1, seat.value.membership, seat.value.lobby))
  {
    match seat
    case Some(at) =>
      if at.lobby == l then
        Tx(s1, Ok(Joined(ViewLobby(s1.rooms[l], l, at.membership), false, None)))
      else
        var home := s1.rooms[at.lobby];
        if home.owner == user then Tx(s, Err(AlreadyInLobby))
        else if home.revision == MAX_REVISION then Tx(s, Err(TemporarilyUnavailable))
        else if home.policy.None? then Tx(s, Err(LobbyStorage))
        else
          var s2 := s1.(rooms := s1.rooms[at.lobby := Depart(home, at.membership)]);
          (match Enter(s2, user, l, now, supply, Some((at.lobby, home.revision + 1)))
           case Err(e) => Tx(s, Err(e))
           case Ok(done) => Tx(done.0, Ok(done.1)))
    case None =>
      (match Enter(s1, user, l, now, supply, None)
       case Err(e) => Tx(s, Err(e))
       case Ok(done) => Tx(done.0, Ok(done.1)))
  }

  ghost function Join(s: Store, user: UserId, code: JoinCode, now: int, supply: Supply, storage: bool)
    : Tx<Result<Joined, LobbyError>>
    requires StoreInv(s)
  {
    if !storage then Tx(s, Err(LobbyStorage))
    else if !Representable(now) then Tx(s, Err(TemporarilyUnavailable))
    else if user !in s.users then Tx(s, Err(LobbyUnauthorized))
    else match Invited(s, code, now)
      case None => Tx(s, Err(LobbyUnavailable))
      case Some(l) => JoinTo(s, user, l, now, supply)
  }

  /** The first candidate whose lobby id, code and membership id are all free. */
  ghost function FreshLobby(s: Store, supply: Candidates, k: nat): (r: Option<Candidate>)
    requires k <= ATTEMPTS
    ensures r.Some? ==> r.value.lobby !in s.rooms && !CodeTaken(s, r.value.code)
    ensures r.Some? ==> forall l :: !Seated(s, r.value.membership, l)
    decreases ATTEMPTS - k
  {
    if k == ATTEMPTS || supply[k].None? then None
    else
      var c := supply[k].value;
      if c.lobby in s.rooms || CodeTaken(s, c.code) || exists l :: Seated(s, c.membership, l)
      then FreshLobby(s, supply, k + 1)
      else Some(c)
  }

  function Founded(c: Candidate, user: UserId, now: int): Room {
    Room(c.code, user, now, now + LOBBY_SECONDS, None, 1,
         map[c.membership := Member(user, now)], Some(Majority), [], map[], map[])
  }

  ghost function Create(s: Store, user: UserId, now: int, supply: Candidates, storage: bool)
    : Tx<Result<LobbyView, LobbyError>>
    requires StoreInv(s)
  {
    if !storage then Tx(s, Err(LobbyStorage))
    else if user !in s.users then Tx(s, Err(LobbyUnauthorized))
    else if !Representable(now) || !Representable(now + LOBBY_SECONDS) then Tx(s, Err(TemporarilyUnavailable))
    else
      var s1 := Reclaim(s, user, now);
      if SeatOf(s1, user).Some? then Tx(s, Err(AlreadyInLobby))
      else match FreshLobby(s1, supply, 0)
        case None => Tx(s, Err(TemporarilyUnavailable))
        case Some(c) =>
          var r := Founded(c, user, now);
          Tx(s1.(rooms := s1.rooms[c.lobby := r]), Ok(ViewLobby(r, c.lobby, c.membership)))
  }

  /** Scheduled cleanup: lobbies past their deadline go, with all they own. */
  function Expire(s: Store, now: int): Store {
    s.(rooms := map l | l in s.rooms && now < s.rooms[l].expiresAt :: s.rooms[l])
  }

  ghost function Current(s: Store, user: UserId, asked: int, answered: int,
                         storage: bool): Result<Option<LobbyView>, LobbyError>
    requires StoreInv(s)
  {
    if !storage then Err(LobbyStorage)
    else if user !in s.users then Err(LobbyUnauthorized)
    else if !Representable(asked) then Err(TemporarilyUnavailable)
    else match SeatOf(s, user)
      case None => Ok(None)
      case Some(at) =>
        var r := s.rooms[at.lobby];
        if !Live(r, asked) then Ok(None)
        else if !Representable(answered) then Err(TemporarilyUnavailable)
        else if r.expiresAt <= answered then Ok(None)
        else Ok(Some(ViewLobby(r, at.lobby, at.membership)))
  }

  /** What one stream read sees of its bound lobby. */
  datatype Sighting = Sighting(revision: int, closed: bool, memberExists: bool)

  ghost function Observe(s: Store, user: UserId, m: MembershipId, l: LobbyId): Option<Sighting> {
    if l !in s.rooms then None
    else
      var r := s.rooms[l];
      Some(Sighting(r.revision, r.closedAt.Some?, m in r.members && r.members[m].user == user && user in s.users))
  }
}
