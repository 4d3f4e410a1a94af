/**
 One lobby with everything that belongs to it, and the edits a queue request
 makes to it.  The relational tables of LobbyStore represent a map of these.
 */
module Rooms {
  import opened Prelude
  import opened Ordering

  // Identifiers are opaque 128-bit values; account ids are 64-bit integers.
  type LobbyId = nat
  type MembershipId = nat
  type EntryId = nat
  type RequestId = nat
  type JoinCode = nat
  type UserId = int

  const MAX_REVISION := 0x7FFF_FFFF_FFFF_FFFF
  const MAX_FIXED_COUNT := 2147483647
  const LOBBY_SECONDS := 86400
  // Seconds of the years 0 to 9999, the range `timestamp` accepts.
  const FIRST_SECOND := -62167219200
  const LAST_SECOND := 253402300799

  predicate Representable(seconds: int) {
    FIRST_SECOND <= seconds <= LAST_SECOND
  }

  datatype QueueError =
    | Unauthorized
    | MembershipForbidden
    | HostRequired
    | GuestRequired
    | InvalidRequest
    | EntryUnavailable
    | IdempotencyConflict
    | CurrentChanged
    | StaleRevision
    | NotUpcoming
    | Unavailable
    | Storage

  /** A row of lobby_queue_policies; its CHECK bounds the fixed count. */
  datatype Policy = Majority | Fixed(count: int)

  predicate ValidPolicy(p: Policy) {
    p.Fixed? ==> 1 <= p.count <= MAX_FIXED_COUNT
  }

  datatype Video = Video(videoId: string, title: string, authorName: string,
                         authorUrl: string, thumbnailUrl: string, embedUrl: string)
  datatype Member = Member(user: UserId, joinedAt: int)
  datatype Entry = Entry(submitter: UserId, request: RequestId, video: Video, submittedAt: int)

  datatype Room = Room(
    code: JoinCode,
    owner: UserId,
    createdAt: int,
    expiresAt: int,
    closedAt: Option<int>,
    revision: int,
    members: map<MembershipId, Member>,
    policy: Option<Policy>,
    queue: seq<EntryId>,
    entries: map<EntryId, Entry>,
    votes: map<(EntryId, UserId), int>)

  // ---------------------------------------------------------------- moderation

  /** Memberships of the lobby held by anybody but its owner. */
  function Guests(r: Room): set<MembershipId> {
    set m | m in r.members && r.members[m].user != r.owner
  }

  /** Guest memberships whose account has a stored vote for `e`. */
  function Voters(r: Room, e: EntryId): set<MembershipId> {
    set m | m in Guests(r) && (e, r.members[m].user) in r.votes
  }

  function ActiveVotes(r: Room, e: EntryId): nat {
    |Voters(r, e)|
  }

  function Threshold(r: Room): int
    requires r.policy.Some?
  {
    match r.policy.value
    case Fixed(count) => count
    case Majority => |Guests(r)| / 2 + 1
  }

  predicate Qualifies(r: Room, e: EntryId)
    requires r.policy.Some?
  {
    Guests(r) != {} && ActiveVotes(r, e) >= Threshold(r)
  }

  function Qualifying(r: Room): set<EntryId>
    requires r.policy.Some?
  {
    set e | e in r.queue && Qualifies(r, e)
  }

  function Reevaluate(r: Room): Room
    requires r.policy.Some?
  {
    r.(queue := Without(r.queue, Qualifying(r)))
  }

  // ---------------------------------------------------------------- views

  datatype EntryView = EntryView(id: EntryId, entry: Entry, activeVoteCount: nat, hasVoted: bool)
  datatype VotingView = VotingView(policy: Policy, activeGuestCount: nat, effectiveThreshold: Option<int>)
  datatype QueueView = QueueView(membership: MembershipId, lobby: LobbyId, revision: int,
                                 current: Option<EntryView>, upcoming: seq<EntryView>, voting: VotingView)
  {
    /** Occurrence ids in playing order. */
    function Order(): seq<EntryId> {
      (if current.Some? then [current.value.id] else [])
      + seq(|upcoming|, i requires 0 <= i < |upcoming| => upcoming[i].id)
    }
  }

  function ViewEntry(r: Room, e: EntryId, user: UserId): EntryView
    requires e in r.entries
  {
    EntryView(e, r.entries[e], ActiveVotes(r, e), user != r.owner && (e, user) in r.votes)
  }

  function EffectiveThreshold(r: Room): Option<int>
    requires r.policy.Some?
  {
    match r.policy.value
    case Fixed(count) => Some(count)
    case Majority => if Guests(r) == {} then None else Some(|Guests(r)| / 2 + 1)
  }

  function ViewEntries(r: Room, user: UserId): seq<EntryView>
    requires forall e :: e in r.queue ==> e in r.entries
  {
    seq(|r.queue|, i requires 0 <= i < |r.queue| => ViewEntry(r, r.queue[i], user))
  }

  function Snapshot(r: Room, l: LobbyId, user: UserId, m: MembershipId): QueueView
    requires RoomInv(r) && r.closedAt.None?
  {
    var views := ViewEntries(r, user);
    QueueView(m, l, r.revision,
              if views == [] then None else Some(views[0]),
              if views == [] then [] else views[1..],
              VotingView(r.policy.value, |Guests(r)|, EffectiveThreshold(r)))
  }

  // ---------------------------------------------------------------- invariants

  predicate Live(r: Room, now: int) {
    r.closedAt.None? && now < r.expiresAt
  }

  predicate SameRequest(a: Entry, b: Entry) {
    a.submitter == b.submitter && a.request == b.request
  }

  /** Retry identities are unique per submitter. */
  ghost predicate UniqueRequests(r: Room) {
    forall d, e :: d in r.entries && e in r.entries && SameRequest(r.entries[d], r.entries[e]) ==> d == e
  }

  ghost predicate UniqueSeats(r: Room) {
    forall m, n :: m in r.members && n in r.members && r.members[m].user == r.members[n].user ==> m == n
  }

  ghost predicate Vacated(r: Room) {
    r.members == map[] && r.policy.None? && r.queue == [] && r.entries == map[] && r.votes == map[]
  }

  ghost predicate RoomInv(r: Room) {
    && 1 <= r.revision <= MAX_REVISION
    && r.expiresAt == r.createdAt + LOBBY_SECONDS
    && (r.closedAt.Some? ==> Vacated(r))
    && (r.closedAt.None? ==> r.policy.Some? && ValidPolicy(r.policy.value))
    && Distinct(r.queue)
    && (forall e :: e in r.queue ==> e in r.entries)
    && (forall v :: v in r.votes ==> v.0 in r.entries)
    && UniqueRequests(r)
    && UniqueSeats(r)
  }

  /** No queued entry has reached the threshold the guests set. */
  ghost predicate Stable(r: Room)
    requires r.policy.Some?
  {
    forall e :: e in r.queue ==> !Qualifies(r, e)
  }

  ghost predicate HostSeated(r: Room) {
    exists m :: m in r.members && r.members[m].user == r.owner
  }

  // ---------------------------------------------------------------- queue edits

  /** Requests bound to one membership that edit its lobby. */
  datatype Command =
    | Move(entry: EntryId, expectedRevision: int, toIndex: nat)
    | Vote(entry: EntryId)
    | SetPolicy(policy: Policy)
    | Advance(expected: EntryId)
    | Veto(entry: EntryId)

  function MoveEdit(r: Room, c: Command): Result<Option<Room>, QueueError>
    requires c.Move?
  {
    if r.revision != c.expectedRevision then Err(StaleRevision)
    else match IndexOf(r.queue, c.entry)
      case None => Err(EntryUnavailable)
      case Some(position) =>
        if position == 0 then Err(NotUpcoming)
        else if c.toIndex + 1 >= |r.queue| then Err(InvalidRequest)
        else if position == c.toIndex + 1 then Ok(None)
        else Ok(Some(r.(queue := Relocate(r.queue, position, c.toIndex + 1))))
  }

  function VoteEdit(r: Room, user: UserId, e: EntryId, at: int): Result<Option<Room>, QueueError>
    requires r.policy.Some?
  {
    if e !in r.queue then Err(EntryUnavailable)
    else if !Representable(at) then Err(Unavailable)
    else if (e, user) in r.votes then Ok(None)
    else Ok(Some(Reevaluate(r.(votes := r.votes[(e, user) := at]))))
  }

  function PolicyEdit(r: Room, p: Policy): Result<Option<Room>, QueueError>
    requires r.policy.Some?
    requires p.Fixed? ==> p.count <= MAX_FIXED_COUNT
  {
    if !ValidPolicy(p) then Err(InvalidRequest)
    else if r.policy == Some(p) then Ok(None)
    else Ok(Some(Reevaluate(r.(policy := Some(p)))))
  }

  function AdvanceEdit(r: Room, expected: EntryId): Result<Option<Room>, QueueError> {
    if r.queue == [] || r.queue[0] != expected then Err(CurrentChanged)
    else Ok(Some(r.(queue := RemoveAt(r.queue, 0))))
  }

  function VetoEdit(r: Room, e: EntryId): Result<Option<Room>, QueueError> {
    var kept := Without(r.queue, {e});
    if |kept| == |r.queue| then Ok(None) else Ok(Some(r.(queue := kept)))
  }

  /** The request's policy count is a 32-bit integer. */
  predicate WellTyped(c: Command) {
    c.SetPolicy? && c.policy.Fixed? ==> c.policy.count <= MAX_FIXED_COUNT
  }

  /** `Ok(None)` leaves the lobby alone; `Ok(Some(r'))` changes it and takes one revision. */
  function EditOf(r: Room, user: UserId, c: Command, at: int): Result<Option<Room>, QueueError>
    requires r.policy.Some? && WellTyped(c)
  {
    match c
    case Move(_, _, _) => MoveEdit(r, c)
    case Vote(e) => VoteEdit(r, user, e, at)
    case SetPolicy(p) => PolicyEdit(r, p)
    case Advance(e) => AdvanceEdit(r, e)
    case Veto(e) => VetoEdit(r, e)
  }

  // ---------------------------------------------------------------- what the edits keep

  lemma VotersWithin(r: Room, e: EntryId)
    ensures Voters(r, e) <= Guests(r)
    ensures ActiveVotes(r, e) <= |Guests(r)|
  {
    SubsetSize(Voters(r, e), Guests(r));
  }

  lemma {:induction false} SubsetSize<T>(a: set<T>, b: set<T>)
    requires a <= b
    ensures |a| <= |b|
  {
    assert b == a + (b - a);
  }

  /** Moderation looks at members, votes and policy only. */
  lemma QualifiesDependsOn(r: Room, r': Room, e: EntryId)
    requires r.policy.Some? && r'.policy == r.policy && r'.owner == r.owner
    requires r'.members == r.members
    requires forall u :: (e, u) in r.votes <==> (e, u) in r'.votes
    ensures Qualifies(r, e) == Qualifies(r', e)
  {
    assert Guests(r) == Guests(r');
    assert Voters(r, e) == Voters(r', e);
  }

  /** One pass removes exactly the qualifying entries and keeps every order. */
  lemma ReevaluateExact(r: Room)
    requires r.policy.Some?
    ensures forall e :: e in Reevaluate(r).queue <==> e in r.queue && !Qualifies(r, e)
    ensures forall a, b :: Before(Reevaluate(r).queue, a, b)
                       <==> Before(r.queue, a, b) && !Qualifies(r, a) && !Qualifies(r, b)
    ensures Distinct(r.queue) ==> Distinct(Reevaluate(r).queue)
    ensures Stable(Reevaluate(r))
  {
    WithoutMembers(r.queue, Qualifying(r));
    forall a, b
      ensures Before(Reevaluate(r).queue, a, b)
         <==> Before(r.queue, a, b) && !Qualifies(r, a) && !Qualifies(r, b)
    {
      WithoutOrder(r.queue, Qualifying(r), a, b);
    }
    if Distinct(r.queue) { WithoutDistinct(r.queue, Qualifying(r)); }
    forall e | e in Reevaluate(r).queue ensures !Qualifies(Reevaluate(r), e) {
      QualifiesDependsOn(r, Reevaluate(r), e);
    }
  }

  /** A stable lobby is left as it is, so a second pass changes nothing. */
  lemma ReevaluateIdempotent(r: Room)
    requires r.policy.Some?
    ensures Stable(r) ==> Reevaluate(r) == r
    ensures Reevaluate(Reevaluate(r)) == Reevaluate(r)
  {
    ReevaluateExact(r);
    StableIsFixed(Reevaluate(r));
    if Stable(r) { StableIsFixed(r); }
  }

  lemma StableIsFixed(r: Room)
    requires r.policy.Some? && Stable(r)
    ensures Reevaluate(r) == r
  {
    WithoutNothing(r.queue, Qualifying(r));
  }

  /** Taking entries out of the order never makes a lobby unstable. */
  lemma FewerStaysStable(r: Room, q: seq<EntryId>)
    requires r.policy.Some? && Stable(r)
    requires forall e :: e in q ==> e in r.queue
    ensures Stable(r.(queue := q))
  {
    forall e | e in q ensures !Qualifies(r.(queue := q), e) {
      QualifiesDependsOn(r, r.(queue := q), e);
    }
  }

  /** Replacing the order by a distinct part of it. */
  lemma RequeueKeeps(r: Room, q: seq<EntryId>)
    requires RoomInv(r) && r.closedAt.None?
    requires Distinct(q) && forall e :: e in q ==> e in r.queue
    ensures RoomInv(r.(queue := q))
    ensures Stable(r) ==> Stable(r.(queue := q))
  {
    if Stable(r) { FewerStaysStable(r, q); }
  }

  lemma ReevaluateKeeps(r: Room)
    requires RoomInv(r) && r.closedAt.None?
    ensures RoomInv(Reevaluate(r)) && Stable(Reevaluate(r))
  {
    ReevaluateExact(r);
    RequeueKeeps(r, Reevaluate(r).queue);
  }

  /** What every committed edit keeps of its lobby: form, stability, and all but order, votes and policy. */
  ghost predicate EditSound(r: Room, r': Room)
    requires RoomInv(r) && r.closedAt.None?
  {
    && RoomInv(r')
    && r' == r.(policy := r'.policy, queue := r'.queue, votes := r'.votes)
    && (Stable(r) ==> Stable(r'))
    && (forall e :: e in r'.queue ==> e in r.queue)
    && r' != r
  }

  predicate Changes(edit: Result<Option<Room>, QueueError>) {
    edit.Ok? && edit.value.Some?
  }

  /**
   A move is a permutation: it keeps the current entry, puts the chosen
   occurrence at the requested upcoming index, and reorders no other pair.
   */
  lemma MoveExact(r: Room, c: Command)
    requires RoomInv(r) && r.closedAt.None? && c.Move? && Changes(MoveEdit(r, c))
    ensures
      var q := MoveEdit(r, c).value.value.queue;
      && multiset(q) == multiset(r.queue) && Distinct(q)
      && q[0] == r.queue[0]
      && q[c.toIndex + 1] == c.entry && q != r.queue
      && (forall a, b :: a != c.entry && b != c.entry ==> (Before(q, a, b) <==> Before(r.queue, a, b)))
  {
    var i := IndexOf(r.queue, c.entry).value;
    var j := c.toIndex + 1;
    RelocatePermutes(r.queue, i, j);
    RelocateDistinct(r.queue, i, j);
    forall a, b | a != c.entry && b != c.entry
      ensures Before(Relocate(r.queue, i, j), a, b) <==> Before(r.queue, a, b)
    {
      RelocateOrder(r.queue, i, j, a, b);
    }
  }

  lemma MoveKeeps(r: Room, c: Command)
    requires RoomInv(r) && r.closedAt.None? && c.Move? && Changes(MoveEdit(r, c))
    ensures EditSound(r, MoveEdit(r, c).value.value)
  {
    var q := MoveEdit(r, c).value.value.queue;
    MoveExact(r, c);
    PermutedMembers(q, r.queue);
    RequeueKeeps(r, q);
  }

  /** `r'` is `r` as edited, less exactly the entries the edited votes or policy remove, the rest in their order. */
  ghost predicate Moderated(r: Room, edited: Room, r': Room)
    requires edited.policy.Some?
  {
    && r' == edited.(queue := r'.queue) && edited.queue == r.queue
    && (forall x :: x in r'.queue <==> x in r.queue && !Qualifies(edited, x))
    && (forall x, y :: x in r'.queue && y in r'.queue && Before(r.queue, x, y) ==> Before(r'.queue, x, y))
  }

  /** A first vote for a queued entry is stored, and moderation applied to its result. */
  lemma VoteKeeps(r: Room, user: UserId, e: EntryId, at: int)
    requires RoomInv(r) && r.closedAt.None? && Changes(VoteEdit(r, user, e, at))
    ensures EditSound(r, VoteEdit(r, user, e, at).value.value)
    ensures e in r.queue && (e, user) !in r.votes && Representable(at)
    ensures Moderated(r, r.(votes := r.votes[(e, user) := at]), VoteEdit(r, user, e, at).value.value)
  {
    var voted := r.(votes := r.votes[(e, user) := at]);
    ReevaluateExact(voted);
    ReevaluateKeeps(voted);
    assert (e, user) in Reevaluate(voted).votes;
  }

  /** A new valid policy is stored, and moderation applied under it. */
  lemma PolicyKeeps(r: Room, p: Policy)
    requires RoomInv(r) && r.closedAt.None? && (p.Fixed? ==> p.count <= MAX_FIXED_COUNT)
    requires Changes(PolicyEdit(r, p))
    ensures EditSound(r, PolicyEdit(r, p).value.value)
    ensures ValidPolicy(p) && r.policy != Some(p)
    ensures Moderated(r, r.(policy := Some(p)), PolicyEdit(r, p).value.value)
  {
    ReevaluateExact(r.(policy := Some(p)));
    ReevaluateKeeps(r.(policy := Some(p)));
  }

  lemma AdvanceKeeps(r: Room, e: EntryId)
    requires RoomInv(r) && r.closedAt.None? && Changes(AdvanceEdit(r, e))
    ensures EditSound(r, AdvanceEdit(r, e).value.value)
    ensures r.queue == [e] + AdvanceEdit(r, e).value.value.queue
  {
    var q := AdvanceEdit(r, e).value.value.queue;
    assert r.queue == [e] + q;
    RequeueKeeps(r, q);
  }

  lemma VetoKeeps(r: Room, e: EntryId)
    requires RoomInv(r) && r.closedAt.None?
    ensures Changes(VetoEdit(r, e)) <==> e in r.queue
    ensures Changes(VetoEdit(r, e)) ==> EditSound(r, VetoEdit(r, e).value.value)
  {
    WithoutMembers(r.queue, {e});
    WithoutDistinct(r.queue, {e});
    RequeueKeeps(r, Without(r.queue, {e}));
  }

  lemma EditKeeps(r: Room, user: UserId, c: Command, at: int)
    requires RoomInv(r) && r.closedAt.None? && WellTyped(c)
    requires Changes(EditOf(r, user, c, at))
    ensures EditSound(r, EditOf(r, user, c, at).value.value)
  {
    match c
    case Move(_, _, _) => MoveKeeps(r, c);
    case Vote(e) => VoteKeeps(r, user, e, at);
    case SetPolicy(p) => PolicyKeeps(r, p);
    case Advance(e) => AdvanceKeeps(r, e);
    case Veto(e) => VetoKeeps(r, e);
  }
}
