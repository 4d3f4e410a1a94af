/**
 The SQL statements a transaction runs on its own uncommitted rows: selects,
 the order rewrite, moderation, authorization and the revision bump.
 */
module Statements {
  import opened Prelude
  import opened Ordering
  import opened Rooms
  import opened Transactions
  import opened StoreLaws
  import opened Tables

  /** BoundQueue: the lobby an authorized request works on. */
  datatype Bound = Bound(lobby: LobbyId, owner: UserId, revision: int, expiresAt: int)

  lemma SortedStep(ps: seq<nat>, todo: set<nat>)
    requires todo != {}
    ensures ps + Sorted(todo) == ps + [Least(todo)] + Sorted(todo - {Least(todo)})
  {
    var p := Least(todo);
    assert ps + [p] + Sorted(todo - {p}) == ps + ([p] + Sorted(todo - {p}));
  }

  /** The lobby's positions in ascending order. */
  method SortPositions(positions: set<nat>) returns (ps: seq<nat>)
    ensures ps == Sorted(positions)
  {
    var todo := positions;
    ps := [];
    while todo != {}
      invariant ps + Sorted(todo) == Sorted(positions)
      decreases |todo|
    {
      var p := Least(todo);
      SortedStep(ps, todo);
      ps := ps + [p];
      todo := todo - {p};
    }
    assert ps + Sorted({}) == ps;
  }

  /** SELECT position, entry_id ... ORDER BY position. */
  method SelectRows(order: OrderTable, lobby: LobbyId) returns (rows: seq<(nat, EntryId)>)
    ensures OrderedRows(order, lobby, rows)
  {
    var ps := SortPositions(Positions(order, lobby));
    assert forall i :: 0 <= i < |ps| ==> ps[i] in ps;
    rows := seq(|ps|, i requires 0 <= i < |ps| && (lobby, ps[i]) in order => (ps[i], order[(lobby, ps[i])]));
  }

  /** ordered_ids. */
  method SelectOrder(order: OrderTable, lobby: LobbyId) returns (ids: seq<EntryId>)
    requires AllDense(order)
    ensures ids == QueueOf(order, lobby)
  {
    var rows := SelectRows(order, lobby);
    DenseLobby(order, lobby, rows);
    ids := seq(|rows|, i requires 0 <= i < |rows| => rows[i].1);
  }

  /** replace_order: delete the lobby's rows, then insert one row per position. */
  method ReplaceOrder(order: OrderTable, lobby: LobbyId, ids: seq<EntryId>) returns (order': OrderTable)
    ensures order' == WithOrder(order, lobby, ids)
  {
    order' := map k | k in order && k.0 != lobby :: order[k];
    assert order' == WithOrder(order, lobby, ids[..0]);
    for i := 0 to |ids|
      invariant order' == WithOrder(order, lobby, ids[..i])
    {
      WithOrderStep(order, lobby, ids, i);
      order' := order'[(lobby, i) := ids[i]];
    }
    assert ids[..|ids|] == ids;
  }

  /** The entries guests have voted out; without guests there are none. */
  method SelectQualifying(t: Db, lobby: LobbyId) returns (qualifying: set<EntryId>)
    requires Integrity(t) && lobby in t.lobbies && lobby in t.policies
    ensures qualifying == if Guests(RoomOf(t, lobby)) == {} then {} else Qualifying(RoomOf(t, lobby))
  {
    GuestRowsRefine(t, lobby);
    var owner := t.lobbies[lobby].owner;
    var guests := |GuestRows(t, lobby, owner)|;
    if guests == 0 { return {}; }
    var threshold := match t.policies[lobby] case Fixed(count) => count case Majority => guests / 2 + 1;
    QualifyingRefines(t, lobby);
    qualifying := QualifyingRows(t, lobby, owner, threshold);
  }

  /** Rewrites the order without the entries that qualify, if there are any. */
  method RetainOrder(t: Db, lobby: LobbyId, qualifying: set<EntryId>) returns (t': Db)
    requires AllDense(t.order)
    ensures t' == if qualifying == {} then t else t.(order := WithOrder(t.order, lobby, Without(QueueOf(t.order, lobby), qualifying)))
  {
    t' := t;
    if qualifying != {} {
      var ids := SelectOrder(t.order, lobby);
      ids := Without(ids, qualifying);
      var order := ReplaceOrder(t.order, lobby, ids);
      t' := t.(order := order);
    }
  }

  /** reevaluate: removes every entry of the lobby that its guests have voted out. */
  method ReevaluateOrder(t: Db, lobby: LobbyId) returns (t': Db)
    requires Integrity(t) && lobby in t.lobbies && lobby in t.policies
    ensures Integrity(t') && Abs(t') == Put(Abs(t), lobby, Reevaluate(RoomOf(t, lobby)))
    ensures t' == t.(order := t'.order)
  {
    var qualifying := SelectQualifying(t, lobby);
    t' := RetainOrder(t, lobby, qualifying);
    assert t' == Reevaluated(t, lobby);
    ReevaluatedRefines(t, lobby);
  }

  lemma NumberedRows(t: Db, lobby: LobbyId, rows: seq<(nat, EntryId)>)
    requires Integrity(t) && OrderedRows(t.order, lobby, rows)
    ensures |rows| == |QueueOf(t.order, lobby)|
    ensures forall i :: 0 <= i < |rows| ==> rows[i].0 == i && rows[i].1 == QueueOf(t.order, lobby)[i] && rows[i].1 in t.entries
  {
    DenseLobby(t.order, lobby, rows);
    QueueRows(t, lobby);
    forall i | 0 <= i < |rows| ensures rows[i].1 in t.entries {
      assert rows[i].1 == QueueOf(t.order, lobby)[i];
    }
  }

  /** The entries of a view; a gap in the positions would be an error, and never happens. */
  method SelectEntries(t: Db, lobby: LobbyId, user: UserId) returns (r: Result<seq<EntryView>, QueueError>)
    requires Integrity(t) && lobby in t.lobbies
    ensures forall e :: e in RoomOf(t, lobby).queue ==> e in RoomOf(t, lobby).entries
    ensures r == Ok(ViewEntries(RoomOf(t, lobby), user))
  {
    var rows := SelectRows(t.order, lobby);
    var owner := t.lobbies[lobby].owner;
    ghost var queue := QueueOf(t.order, lobby);
    NumberedRows(t, lobby, rows);
    var views: seq<EntryView> := [];
    for i := 0 to |rows|
      invariant |views| == i
      invariant forall k :: 0 <= k < i ==> queue[k] in t.entries && views[k] == RowView(t, lobby, owner, queue[k], user)
    {
      if rows[i].0 != i { return Err(Storage); }
      var view := RowView(t, lobby, owner, rows[i].1, user);
      views := views + [view];
    }
    RowViewsRefine(t, lobby, user, views);
    r := Ok(views);
  }

  /** snapshot. */
  method SelectView(t: Db, lobby: LobbyId, user: UserId, membership: MembershipId) returns (r: Result<QueueView,
                    QueueError>)
    requires Integrity(t) && lobby in t.lobbies && RoomInv(RoomOf(t, lobby)) && t.lobbies[lobby].closedAt.None?
    ensures r == Ok(Snapshot(RoomOf(t, lobby), lobby, user, membership))
  {
    var selected := SelectEntries(t, lobby, user);
    var views := selected.value;
    GuestRowsRefine(t, lobby);
    var guests := |GuestRows(t, lobby, t.lobbies[lobby].owner)|;
    var effective := match t.policies[lobby]
      case Fixed(count) => Some(count)
      case Majority => if guests == 0 then None else Some(guests / 2 + 1);
    r := Ok(QueueView(membership, lobby, t.lobbies[lobby].revision,
                      if views == [] then None else Some(views[0]),
                      if views == [] then [] else views[1..],
                      VotingView(t.policies[lobby], guests, effective)));
  }

  /** authorize. */
  method CheckAuthority(t: Db, user: Account, membership: MembershipId, permission: Permission, clock: Clock)
    returns (r: Result<Bound, QueueError>)
    requires Integrity(t) && StoreInv(Abs(t))
    ensures
      match Authorize(Abs(t), user, membership, permission, clock)
      case Err(e) => r == Err(e)
      case Ok(l) =>
        && l in t.lobbies && t.lobbies[l].closedAt.None? && l in t.policies
        && r == Ok(Bound(l, t.lobbies[l].owner, t.lobbies[l].revision, t.lobbies[l].expiresAt))
  {
    LocateRefines(t, membership);
    if user.id !in t.users || clock[0] >= user.expiresAt { return Err(Unauthorized); }
    if membership !in t.members || t.members[membership].user != user.id { return Err(MembershipForbidden); }
    var l := t.members[membership].lobby;
    var row := t.lobbies[l];
    assert RoomInv(Abs(t).rooms[l]);
    if row.closedAt.Some? || clock[1] >= row.expiresAt { return Err(MembershipForbidden); }
    if permission == Host && row.owner != user.id { return Err(HostRequired); }
    if permission == Guest && row.owner == user.id { return Err(GuestRequired); }
    r := Ok(Bound(l, row.owner, row.revision, row.expiresAt));
  }

  /** increment: the next revision, or none when the counter is exhausted. */
  method Increment(t: Db, lobby: LobbyId) returns (r: Option<Db>)
    requires Integrity(t) && lobby in t.lobbies
    ensures r.None? <==> t.lobbies[lobby].revision == MAX_REVISION
    ensures r.Some? ==> Integrity(r.value) && Abs(r.value) == Put(Abs(t), lobby, Bump(RoomOf(t, lobby)))
    ensures r.Some? ==> r.value == t.(lobbies := r.value.lobbies) && r.value.lobbies.Keys == t.lobbies.Keys
  {
    var row := t.lobbies[lobby];
    if row.revision == MAX_REVISION { return None; }
    UpdateRevisionRefines(t, lobby);
    r := Some(t.(lobbies := t.lobbies[lobby := row.(revision := row.revision + 1)]));
  }

  /** increment after an edit of one lobby: the rows that are about to commit. */
  method TakeRevision(t: Db, t1: Db, lobby: LobbyId, ghost next: Room) returns (r: Option<Db>)
    requires lobby in t.lobbies && t1.lobbies == t.lobbies
    requires Integrity(t1) && Abs(t1) == Put(Abs(t), lobby, next)
    ensures r.None? <==> t.lobbies[lobby].revision == MAX_REVISION
    ensures r.Some? ==>
      && Integrity(r.value) && Abs(r.value) == Put(Abs(t), lobby, Bump(next))
      && lobby in r.value.lobbies && RoomOf(r.value, lobby) == Bump(next)
      && r.value == t1.(lobbies := r.value.lobbies) && r.value.lobbies.Keys == t.lobbies.Keys
  {
    RoomOfPut(t1, Abs(t), lobby, next);
    r := Increment(t1, lobby);
    if r.Some? {
      PutTwice(Abs(t), lobby, next, Bump(next));
      RoomOfPut(r.value, Abs(t), lobby, Bump(next));
    }
  }

  /** The order a request leaves, when its edit is to the order alone. */
  ghost predicate Plans(r: Room, edit: Result<Option<Room>, QueueError>, plan: Result<Option<seq<EntryId>>, QueueError>)
    requires RoomInv(r) && r.closedAt.None?
  {
    match edit
    case Err(e) => plan == Err(e)
    case Ok(None) => plan == Ok(None)
    case Ok(Some(r')) => plan == Ok(Some(r'.queue)) && r' == r.(queue := r'.queue) && EditSound(r, r')
  }

  function Replanned(r: Room, plan: Option<seq<EntryId>>): Option<Room> {
    if plan.None? then None else Some(r.(queue := plan.value))
  }

  /** What an edit decides, once the caller is authorized. */
  lemma EditDecides(s: Store, user: Account, m: MembershipId, c: Command, clock: Clock, l: LobbyId)
    requires StoreInv(s) && WellTyped(c) && Authorize(s, user, m, Needs(c), clock) == Ok(l)
    ensures
      var edit := EditOf(s.rooms[l], user.id, c, clock[WRITE]);
      && (Changes(edit) ==> EditSound(s.rooms[l], edit.value.value))
      && Mutate(s, user, m, c, clock, true) ==
         if edit.Err? then Tx(s, Err(edit.error)) else Finish(s, l, edit.value, user, m, clock)
  {
    EditMaySound(s.rooms[l], user.id, c, clock[WRITE]);
  }

  /** A planned request does what its plan says. */
  lemma PlanDecides(s: Store, user: Account, m: MembershipId, c: Command, clock: Clock,
                    l: LobbyId, plan: Result<Option<seq<EntryId>>, QueueError>)
    requires StoreInv(s) && WellTyped(c) && Authorize(s, user, m, Needs(c), clock) == Ok(l)
    requires Plans(s.rooms[l], EditOf(s.rooms[l], user.id, c, clock[WRITE]), plan)
    ensures plan.Ok? && plan.value.Some? ==> EditSound(s.rooms[l], s.rooms[l].(queue := plan.value.value))
    ensures Mutate(s, user, m, c, clock, true) ==
            if plan.Err? then Tx(s, Err(plan.error))
            else Finish(s, l, Replanned(s.rooms[l], plan.value), user, m, clock)
  {
  }

  lemma VetoPlanDecides(s: Store, user: Account, m: MembershipId, e: EntryId, clock: Clock,
                        l: LobbyId, plan: Option<seq<EntryId>>)
    requires StoreInv(s) && Authorize(s, user, m, Host, clock) == Ok(l)
    requires Plans(s.rooms[l], VetoEdit(s.rooms[l], e), Ok(plan))
    ensures plan.Some? ==> EditSound(s.rooms[l], s.rooms[l].(queue := plan.value))
    ensures Mutate(s, user, m, Veto(e), clock, true) == Finish(s, l, Replanned(s.rooms[l], plan), user, m, clock)
  {
    PlanDecides(s, user, m, Veto(e), clock, l, Ok(plan));
  }

  /** move_queue between authorization and its writes. */
  method PlanMove(t: Db, bound: Bound, entry: EntryId, expectedRevision: int, toIndex: nat)
    returns (plan: Result<Option<seq<EntryId>>, QueueError>)
    requires Integrity(t) && bound.lobby in t.lobbies && bound.revision == t.lobbies[bound.lobby].revision
    requires RoomInv(RoomOf(t, bound.lobby)) && RoomOf(t, bound.lobby).closedAt.None?
    ensures
      var r := RoomOf(t, bound.lobby);
      Plans(r, MoveEdit(r, Command.Move(entry, expectedRevision, toIndex)), plan)
  {
    if bound.revision != expectedRevision { return Err(StaleRevision); }
    var ids := SelectOrder(t.order, bound.lobby);
    var position := IndexOf(ids, entry);
    if position.None? { return Err(EntryUnavailable); }
    if position.value == 0 { return Err(NotUpcoming); }
    var destination := toIndex + 1;
    if destination >= |ids| { return Err(InvalidRequest); }
    if position.value == destination { return Ok(None); }
    var moving := ids[position.value];
    ids := RemoveAt(ids, position.value);
    ids := InsertAt(ids, destination, moving);
    MoveKeeps(RoomOf(t, bound.lobby), Command.Move(entry, expectedRevision, toIndex));
    plan := Ok(Some(ids));
  }

  method PlanAdvance(t: Db, lobby: LobbyId, expected: EntryId) returns (plan: Result<Option<seq<EntryId>>, QueueError>)
    requires Integrity(t) && lobby in t.lobbies && RoomInv(RoomOf(t, lobby)) && RoomOf(t, lobby).closedAt.None?
    ensures Plans(RoomOf(t, lobby), AdvanceEdit(RoomOf(t, lobby), expected), plan)
  {
    var ids := SelectOrder(t.order, lobby);
    if ids == [] || ids[0] != expected { return Err(CurrentChanged); }
    AdvanceKeeps(RoomOf(t, lobby), expected);
    plan := Ok(Some(RemoveAt(ids, 0)));
  }

  method PlanVeto(t: Db, lobby: LobbyId, entry: EntryId) returns (plan: Option<seq<EntryId>>)
    requires Integrity(t) && lobby in t.lobbies && RoomInv(RoomOf(t, lobby)) && RoomOf(t, lobby).closedAt.None?
    ensures Plans(RoomOf(t, lobby), VetoEdit(RoomOf(t, lobby), entry), Ok(plan))
  {
    var ids := SelectOrder(t.order, lobby);
    var previous := |ids|;
    ids := Without(ids, {entry});
    if previous == |ids| { return None; }
    VetoKeeps(RoomOf(t, lobby), entry);
    plan := Some(ids);
  }

  // ---------------------------------------------------------------- moderation

  datatype Moderation = VoteOn(entry: EntryId) | UsePolicy(policy: Policy)

  function CommandOf(m: Moderation): Command {
    match m
    case VoteOn(e) => Vote(e)
    case UsePolicy(p) => SetPolicy(p)
  }

  /** The rows a moderation request leaves, before its revision. */
  ghost predicate Moderates(t: Db, lobby: LobbyId, edit: Result<Option<Room>, QueueError>, r: Result<Option<Db>,
                            QueueError>) {
    match edit
    case Err(e) => r == Err(e)
    case Ok(None) => r == Ok(None)
    case Ok(Some(next)) =>
      r.Ok? && r.value.Some? && r.value.value.lobbies == t.lobbies
      && Integrity(r.value.value) && Abs(r.value.value) == Put(Abs(t), lobby, next)
  }

  method InsertVote(t: Db, lobby: LobbyId, user: UserId, entry: EntryId, at: int) returns (r: Result<Option<Db>,
                    QueueError>)
    requires Integrity(t) && lobby in t.lobbies && lobby in t.policies
    ensures Moderates(t, lobby, VoteEdit(RoomOf(t, lobby), user, entry, at), r)
  {
    QueueRows(t, lobby);
    ghost var room := RoomOf(t, lobby);
    var active := exists k :: k in t.order && k.0 == lobby && t.order[k] == entry;
    assert active <==> entry in room.queue;
    if !active { return Err(EntryUnavailable); }
    if !Representable(at) { return Err(Unavailable); }
    assert (entry, user) in room.votes <==> (entry, user) in t.votes;
    if (entry, user) in t.votes { return Ok(None); }
    var t1 := t.(votes := t.votes[(entry, user) := at]);
    InsertVoteRefines(t, lobby, entry, user, at);
    ghost var voted := room.(votes := room.votes[(entry, user) := at]);
    RoomOfPut(t1, Abs(t), lobby, voted);
    var t2 := ReevaluateOrder(t1, lobby);
    PutTwice(Abs(t), lobby, voted, Reevaluate(voted));
    r := Ok(Some(t2));
  }

  method UpdatePolicy(t: Db, lobby: LobbyId, policy: Policy) returns (r: Result<Option<Db>, QueueError>)
    requires Integrity(t) && lobby in t.lobbies && lobby in t.policies
    requires policy.Fixed? ==> policy.count <= MAX_FIXED_COUNT
    ensures Moderates(t, lobby, PolicyEdit(RoomOf(t, lobby), policy), r)
  {
    ghost var room := RoomOf(t, lobby);
    if !ValidPolicy(policy) { return Err(InvalidRequest); }
    if t.policies[lobby] == policy { return Ok(None); }
    var t1 := t.(policies := t.policies[lobby := policy]);
    UpdatePolicyRefines(t, lobby, policy);
    ghost var next := room.(policy := Some(policy));
    RoomOfPut(t1, Abs(t), lobby, next);
    var t2 := ReevaluateOrder(t1, lobby);
    PutTwice(Abs(t), lobby, next, Reevaluate(next));
    r := Ok(Some(t2));
  }

  /** moderate_queue between authorization and its revision. */
  method ModerateRows(t: Db, lobby: LobbyId, user: UserId, operation: Moderation,
                      at: int) returns (r: Result<Option<Db>, QueueError>)
    requires Integrity(t) && lobby in t.lobbies && lobby in t.policies && WellTyped(CommandOf(operation))
    ensures Moderates(t, lobby, EditOf(RoomOf(t, lobby), user, CommandOf(operation), at), r)
  {
    match operation {
      case VoteOn(entry) => r := InsertVote(t, lobby, user, entry, at);
      case UsePolicy(policy) => r := UpdatePolicy(t, lobby, policy);
    }
  }

  // ---------------------------------------------------------------- submission

  /** The earlier entry of this caller and retry identity. */
  method SelectReceipt(t: Db, lobby: LobbyId, user: UserId, request: RequestId) returns (e: Option<EntryId>)
    requires Integrity(t) && lobby in t.lobbies && UniqueRequests(RoomOf(t, lobby))
    ensures e == ReceiptOf(RoomOf(t, lobby), user, request)
    ensures e.Some? ==> e.value in t.entries && EntryOf(t.entries[e.value]) == RoomOf(t, lobby).entries[e.value]
  {
    ghost var room := RoomOf(t, lobby);
    var found := set x | x in t.entries && t.entries[x].lobby == lobby && t.entries[x].submitter == user
                            && t.entries[x].request == request;
    assert forall x :: x in found <==> Receipt(room, user, request, x);
    if found == {} { return None; }
    var x :| x in found;
    assert forall y :: y in found ==> SameRequest(room.entries[x], room.entries[y]);
    e := Some(x);
  }

  lemma FreshEntryStep(t: Db, supply: Supply, clock: Clock, k: nat)
    requires Integrity(t) && k < ATTEMPTS
    ensures FreshEntry(Abs(t), supply, clock, k) ==
            if supply[k].None? || !Representable(clock[WRITE + k]) then None
            else if supply[k].value in t.entries then FreshEntry(Abs(t), supply, clock, k + 1)
            else Some((supply[k].value, clock[WRITE + k]))
  {
    TakenRefines(t);
  }

  /** The bounded insertion loop: tries allocated ids until one is free. */
  method AllocateEntry(t: Db, supply: Supply, clock: Clock) returns (r: Option<(EntryId, int)>)
    requires Integrity(t)
    ensures r == FreshEntry(Abs(t), supply, clock, 0)
    ensures r.Some? ==> r.value.0 !in t.entries
  {
    var k := 0;
    while k < ATTEMPTS
      invariant 0 <= k <= ATTEMPTS
      invariant FreshEntry(Abs(t), supply, clock, 0) == FreshEntry(Abs(t), supply, clock, k)
    {
      FreshEntryStep(t, supply, clock, k);
      if supply[k].None? || !Representable(clock[WRITE + k]) { return None; }
      if supply[k].value !in t.entries { return Some((supply[k].value, clock[WRITE + k])); }
      k := k + 1;
    }
    r := None;
  }

  /** Inserts the entry and its order row at position count(*). */
  method AppendEntry(t: Db, lobby: LobbyId, e: EntryId, entry: Entry) returns (t': Db)
    requires Integrity(t) && lobby in t.lobbies && e !in t.entries
    ensures Integrity(t') && t'.lobbies == t.lobbies
    ensures Abs(t') == Put(Abs(t), lobby, Append(RoomOf(t, lobby), e, entry))
  {
    var row := EntryRow(lobby, entry.submitter, entry.request, entry.video, entry.submittedAt);
    var t1 := t.(entries := t.entries[e := row]);
    InsertEntryRefines(t, e, row);
    ghost var room := RoomOf(t, lobby);
    ghost var stored := room.(entries := room.entries[e := entry]);
    RoomOfPut(t1, Abs(t), lobby, stored);
    QueueRows(t, lobby);
    var position := |Positions(t1.order, lobby)|;
    AppendIsReplace(t1.order, lobby, e);
    t' := t1.(order := t1.order[(lobby, position) := e]);
    ReplaceOrderRefines(t1, lobby, room.queue + [e]);
    PutTwice(Abs(t), lobby, stored, Append(room, e, entry));
  }

  /** What Insert does, told by the room it is about to store. */
  lemma InsertStores(s: Store, l: LobbyId, user: Account, m: MembershipId, request: RequestId, video: Video,
                     supply: Supply, clock: Clock, next: Room)
    requires StoreInv(s) && l in s.rooms && s.rooms[l].closedAt.None? && s.rooms[l].revision < MAX_REVISION
    requires ReceiptOf(s.rooms[l], user.id, request).None? && FreshEntry(s, supply, clock, 0).Some?
    requires
      var chosen := FreshEntry(s, supply, clock, 0).value;
      next == Bump(Append(s.rooms[l], chosen.0, Entry(user.id, request, video, chosen.1)))
    requires RoomInv(next)
    ensures Insert(s, l, user, m, request, video, supply, clock) ==
            match Deadlines(s.rooms[l].expiresAt, user, clock[DEADLINE])
            case Some(x) => Tx(s, Err(x))
            case None =>
              Tx(Put(s, l, next), Ok(Submission(true, FreshEntry(s, supply, clock, 0).value.0, true,
                                                Snapshot(next, l, user.id, m))))
  {
  }

  /** The inserts of a first submission, ready to commit. */
  method InsertRows(t: Db, lobby: LobbyId, user: UserId, request: RequestId, video: Video, supply: Supply, clock: Clock)
    returns (r: Option<(Db, EntryId)>)
    requires Integrity(t) && StoreInv(Abs(t)) && lobby in t.lobbies && t.lobbies[lobby].closedAt.None?
    requires ReceiptOf(Abs(t).rooms[lobby], user, request).None?
    ensures
      var first := FreshEntry(Abs(t), supply, clock, 0);
      && (r.None? <==> first.None? || t.lobbies[lobby].revision == MAX_REVISION)
      && (r.Some? ==>
            var next := Bump(Append(RoomOf(t, lobby), first.value.0, Entry(user, request, video, first.value.1)));
            && Integrity(r.value.0) && StoreInv(Abs(r.value.0)) && r.value.1 == first.value.0
            && Abs(r.value.0) == Put(Abs(t), lobby, next)
            && lobby in r.value.0.lobbies && RoomOf(r.value.0, lobby) == next && RoomInv(next))
  {
    var chosen := AllocateEntry(t, supply, clock);
    if chosen.None? { return None; }
    var e := chosen.value.0;
    var entry := Entry(user, request, video, chosen.value.1);
    var t1 := AppendEntry(t, lobby, e, entry);
    var taken := TakeRevision(t, t1, lobby, Append(RoomOf(t, lobby), e, entry));
    if taken.None? { return None; }
    AppendCommits(Abs(t), lobby, user, request, e, entry);
    assert RoomInv(Abs(taken.value).rooms[lobby]);
    r := Some((taken.value, e));
  }

  // ---------------------------------------------------------------- membership

  lemma FreshMembershipStep(t: Db, supply: Supply, k: nat)
    requires Integrity(t) && k < ATTEMPTS
    ensures FreshMembership(Abs(t), supply, k) ==
            if supply[k].None? then None
            else if supply[k].value in t.members then FreshMembership(Abs(t), supply, k + 1) else supply[k]
  {
    TakenRefines(t);
  }

  method AllocateMembership(t: Db, supply: Supply) returns (r: Option<MembershipId>)
    requires Integrity(t)
    ensures r == FreshMembership(Abs(t), supply, 0)
    ensures r.Some? ==> r.value !in t.members
  {
    var k := 0;
    while k < ATTEMPTS
      invariant 0 <= k <= ATTEMPTS
      invariant FreshMembership(Abs(t), supply, 0) == FreshMembership(Abs(t), supply, k)
    {
      FreshMembershipStep(t, supply, k);
      if supply[k].None? { return None; }
      if supply[k].value !in t.members { return Some(supply[k].value); }
      k := k + 1;
    }
    r := None;
  }

  lemma FreshLobbyStep(t: Db, supply: Candidates, k: nat)
    requires Integrity(t) && k < ATTEMPTS
    ensures FreshLobby(Abs(t), supply, k) ==
            if supply[k].None? then None
            else if supply[k].value.lobby in t.lobbies || (exists l :: l in t.lobbies && t.lobbies[l].code == supply[k].value.code)
                    || supply[k].value.membership in t.members
            then FreshLobby(Abs(t), supply, k + 1)
            else Some(supply[k].value)
  {
    TakenRefines(t);
  }

  /** Each attempt is rolled back by its savepoint when any of its three identifiers collides. */
  method AllocateLobby(t: Db, supply: Candidates) returns (r: Option<Candidate>)
    requires Integrity(t)
    ensures r == FreshLobby(Abs(t), supply, 0)
    ensures r.Some? ==> r.value.lobby !in t.lobbies && r.value.membership !in t.members
  {
    var k := 0;
    while k < ATTEMPTS
      invariant 0 <= k <= ATTEMPTS
      invariant FreshLobby(Abs(t), supply, 0) == FreshLobby(Abs(t), supply, k)
    {
      FreshLobbyStep(t, supply, k);
      if supply[k].None? { return None; }
      var c := supply[k].value;
      var collides := c.lobby in t.lobbies || (exists l :: l in t.lobbies && t.lobbies[l].code == c.code);
      if !collides && c.membership !in t.members { return Some(c); }
      k := k + 1;
    }
    r := None;
  }

  /** A guest's departure, with moderation and one revision. */
  method DepartRows(t: Db, membership: MembershipId) returns (r: Option<Db>)
    requires Integrity(t) && membership in t.members && t.members[membership].lobby in t.policies
    ensures
      var l := t.members[membership].lobby;
      && (r.None? <==> t.lobbies[l].revision == MAX_REVISION)
      && (r.Some? ==> Integrity(r.value) && r.value.lobbies.Keys == t.lobbies.Keys && r.value.policies == t.policies
                      && Abs(r.value) == Put(Abs(t), l, Depart(RoomOf(t, l), membership)))
  {
    var l := t.members[membership].lobby;
    ghost var room := RoomOf(t, l);
    var t1 := t.(members := t.members - {membership});
    DeleteMemberRefines(t, membership);
    RoomOfPut(t1, Abs(t), l, Unseat(room, membership));
    var t2 := ReevaluateOrder(t1, l);
    PutTwice(Abs(t), l, Unseat(room, membership), Reevaluate(Unseat(room, membership)));
    r := TakeRevision(t, t2, l, Reevaluate(Unseat(room, membership)));
  }

  /** The owner's closure: the row becomes a tombstone and its children go. */
  method CloseRows(t: Db, lobby: LobbyId, now: int) returns (t': Db)
    requires Integrity(t) && StoreInv(Abs(t)) && lobby in t.lobbies && t.lobbies[lobby].closedAt.None?
    ensures Integrity(t') && Abs(t') == Put(Abs(t), lobby, Close(RoomOf(t, lobby), now))
  {
    CloseRefines(t, lobby, now);
    t' := Emptied(t, {lobby}).(lobbies := t.lobbies[lobby := Tombstone(t.lobbies[lobby], now)]);
  }

  /** A stale slot is released without touching anything else. */
  method UnseatRows(t: Db, membership: MembershipId) returns (t': Db)
    requires Integrity(t) && membership in t.members
    ensures Integrity(t') && Abs(t') == Put(Abs(t), t.members[membership].lobby,
                                 Unseat(RoomOf(t, t.members[membership].lobby), membership))
  {
    DeleteMemberRefines(t, membership);
    t' := t.(members := t.members - {membership});
  }

  /** What leaving decides, told by the rows it looks at. */
  ghost function Released(t: Db, user: UserId, m: MembershipId, now: int): Tx<Result<Option<(LobbyId,
                          int)>, LobbyError>>
    requires m in t.members && t.members[m].lobby in t.lobbies
    requires t.lobbies[t.members[m].lobby].closedAt.None? ==> t.members[m].lobby in t.policies
  {
    var l := t.members[m].lobby;
    var row := t.lobbies[l];
    if row.closedAt.Some? || row.expiresAt <= now
    then Tx(Put(Abs(t), l, Unseat(RoomOf(t, l), m)), Ok(None))
    else if row.revision == MAX_REVISION then Tx(Abs(t), Err(TemporarilyUnavailable))
    else if row.owner == user && now < row.createdAt then Tx(Abs(t), Err(LobbyStorage))
    else Tx(Put(Abs(t), l, if row.owner == user then Close(RoomOf(t, l), now) else Depart(RoomOf(t, l), m)),
            Ok(Some((l, row.revision + 1))))
  }

  lemma SeatedRow(t: Db, m: MembershipId)
    requires Integrity(t) && StoreInv(Abs(t)) && m in t.members
    ensures var l := t.members[m].lobby;
      && l in t.lobbies && Abs(t).rooms[l] == RoomOf(t, l) && RoomInv(RoomOf(t, l))
      && (t.lobbies[l].closedAt.None? ==> l in t.policies) && Locate(Abs(t), m) == Some(l)
  {
    var l := t.members[m].lobby;
    assert Abs(t).rooms[l] == RoomOf(t, l);
    assert Seated(Abs(t), m, l);
  }

  /** What leaving the lobby `l` decides. */
  ghost function ReleasedFrom(s: Store, l: LobbyId, user: UserId, m: MembershipId, now: int)
    : Tx<Result<Option<(LobbyId, int)>, LobbyError>>
    requires l in s.rooms && (s.rooms[l].closedAt.None? ==> s.rooms[l].policy.Some?)
  {
    var r := s.rooms[l];
    if !Live(r, now) then Tx(Put(s, l, Unseat(r, m)), Ok(None))
    else if r.revision == MAX_REVISION then Tx(s, Err(TemporarilyUnavailable))
    else if r.owner == user && now < r.createdAt then Tx(s, Err(LobbyStorage))
    else Tx(Put(s, l, if r.owner == user then Close(r, now) else Depart(r, m)), Ok(Some((l, r.revision + 1))))
  }

  lemma LeaveReleases(s: Store, l: LobbyId, user: UserId, m: MembershipId, now: int)
    requires StoreInv(s) && Representable(now) && user in s.users && Locate(s, m) == Some(l)
    requires s.rooms[l].members[m].user == user
    ensures s.rooms[l].closedAt.None? ==> s.rooms[l].policy.Some?
    ensures Leave(s, user, m, now, true) == ReleasedFrom(s, l, user, m, now)
  {
  }

  lemma RowsRelease(t: Db, l: LobbyId, user: UserId, m: MembershipId, now: int)
    requires m in t.members && t.members[m].lobby == l && l in t.lobbies
    requires t.lobbies[l].closedAt.None? ==> l in t.policies
    ensures Released(t, user, m, now) == ReleasedFrom(Abs(t), l, user, m, now)
  {
    assert Abs(t).rooms[l] == RoomOf(t, l);
  }

  lemma LeaveDecides(t: Db, user: UserId, m: MembershipId, now: int)
    requires Integrity(t) && StoreInv(Abs(t)) && Representable(now) && user in t.users
    requires m in t.members && t.members[m].user == user && t.members[m].lobby in t.lobbies
    requires t.lobbies[t.members[m].lobby].closedAt.None? ==> t.members[m].lobby in t.policies
    ensures Leave(Abs(t), user, m, now, true) == Released(t, user, m, now)
  {
    SeatedRow(t, m);
    LeaveReleases(Abs(t), t.members[m].lobby, user, m, now);
    RowsRelease(t, t.members[m].lobby, user, m, now);
  }

  /** leave_lobby for a membership the caller holds. */
  method LeaveRows(t: Db, user: UserId, membership: MembershipId, now: int)
    returns (r: Result<(Db, Option<(LobbyId, int)>), LobbyError>)
    requires Integrity(t) && StoreInv(Abs(t)) && membership in t.members && t.members[membership].lobby in t.lobbies
    requires t.lobbies[t.members[membership].lobby].closedAt.None? ==> t.members[membership].lobby in t.policies
    ensures
      var tx := Released(t, user, membership, now);
      match tx.reply
      case Err(e) => r == Err(e)
      case Ok(done) => r.Ok? && r.value.1 == done && Integrity(r.value.0) && Abs(r.value.0) == tx.store
  {
    var lobby := t.members[membership].lobby;
    var row := t.lobbies[lobby];
    if row.closedAt.Some? || row.expiresAt <= now {
      var released := UnseatRows(t, membership);
      return Ok((released, None));
    }
    if row.revision == MAX_REVISION { return Err(TemporarilyUnavailable); }
    // CHECK(closed_at >= created_at)
    if row.owner == user && now < row.createdAt { return Err(LobbyStorage); }
    if row.owner == user {
      var closed := CloseRows(t, lobby, now);
      return Ok((closed, Some((lobby, row.revision + 1))));
    }
    var departed := DepartRows(t, membership);
    r := Ok((departed.value, Some((lobby, row.revision + 1))));
  }

  method AdmitRows(t: Db, lobby: LobbyId, membership: MembershipId, user: UserId, now: int) returns (r: Option<Db>)
    requires Integrity(t) && lobby in t.lobbies && lobby in t.policies && membership !in t.members
    ensures r.None? <==> t.lobbies[lobby].revision == MAX_REVISION
    ensures r.Some? ==> Integrity(r.value) && Abs(r.value) == Put(Abs(t), lobby, Admit(RoomOf(t, lobby), membership, user, now))
    ensures r.Some? ==> r.value.lobbies.Keys == t.lobbies.Keys
  {
    ghost var room := RoomOf(t, lobby);
    ghost var seated := room.(members := room.members[membership := Member(user, now)]);
    var t1 := t.(members := t.members[membership := MemberRow(user, lobby, now)]);
    InsertMemberRefines(t, membership, MemberRow(user, lobby, now));
    RoomOfPut(t1, Abs(t), lobby, seated);
    var t2 := ReevaluateOrder(t1, lobby);
    PutTwice(Abs(t), lobby, seated, Reevaluate(seated));
    r := TakeRevision(t, t2, lobby, Reevaluate(seated));
  }

  /** DELETE FROM lobby_memberships for the caller's closed or expired lobbies. */
  method ReclaimRows(t: Db, user: UserId, now: int) returns (t': Db)
    requires Integrity(t) && StoreInv(Abs(t))
    ensures Integrity(t') && Abs(t') == Reclaim(Abs(t), user, now) && t' == t.(members := t'.members)
  {
    var stale := set m | m in t.members && t.members[m].user == user
                         && (t.lobbies[t.members[m].lobby].closedAt.Some? || t.lobbies[t.members[m].lobby].expiresAt <= now);
    t' := t.(members := t.members - stale);
    if stale == {} {
      assert t.members - stale == t.members;
      if m :| m in t.members && t.members[m].user == user {
        SeatRefines(t, user, m);
      } else {
        NoSeatRefines(t, user);
      }
    } else {
      ghost var m :| m in stale;
      forall n | n in stale ensures n == m {
        SeatRefines(t, user, m);
        SeatRefines(t, user, n);
      }
      assert stale == {m};
      SeatRefines(t, user, m);
      DeleteMemberRefines(t, m);
    }
  }

  method FindSeat(t: Db, user: UserId) returns (m: Option<MembershipId>)
    requires Integrity(t) && UniqueUsers(Abs(t))
    ensures m.None? ==> SeatOf(Abs(t), user) == None
    ensures m.Some? ==> m.value in t.members && SeatOf(Abs(t), user) == Some(Seat(t.members[m.value].lobby, m.value))
  {
    if x :| x in t.members && t.members[x].user == user {
      SeatRefines(t, user, x);
      m := Some(x);
    } else {
      NoSeatRefines(t, user);
      m := None;
    }
  }

  method FindInvited(t: Db, code: JoinCode, now: int) returns (l: Option<LobbyId>)
    requires Integrity(t) && UniqueCodes(Abs(t))
    ensures l == Invited(Abs(t), code, now)
    ensures l.Some? ==> l.value in t.lobbies
  {
    assert forall k :: Invites(Abs(t), code, now, k) <==>
      k in t.lobbies && t.lobbies[k].code == code && t.lobbies[k].closedAt.None? && now < t.lobbies[k].expiresAt;
    if k :| k in t.lobbies && t.lobbies[k].code == code && t.lobbies[k].closedAt.None? && t.lobbies[k].expiresAt > now {
      assert Invites(Abs(t), code, now, k);
      forall j | Invites(Abs(t), code, now, j) ensures j == k {
        assert Abs(t).rooms[j].code == Abs(t).rooms[k].code;
      }
      l := Some(k);
    } else {
      l := None;
    }
  }

  function Roster(t: Db, lobby: LobbyId): set<Member> {
    set m | m in t.members && t.members[m].lobby == lobby :: Member(t.members[m].user, t.members[m].joinedAt)
  }

  function RowLobbyView(t: Db, lobby: LobbyId, membership: MembershipId): LobbyView
    requires lobby in t.lobbies
  {
    var row := t.lobbies[lobby];
    LobbyView(membership, lobby, row.code, row.owner, row.createdAt, row.expiresAt, row.revision, Roster(t, lobby))
  }

  lemma RosterRefines(t: Db, lobby: LobbyId, membership: MembershipId)
    requires lobby in t.lobbies
    ensures RowLobbyView(t, lobby, membership) == ViewLobby(RoomOf(t, lobby), lobby, membership)
  {
    var members := MembersOf(t.members, lobby);
    forall x ensures x in Roster(t, lobby) <==> x in members.Values {
      if x in Roster(t, lobby) {
        var m :| m in t.members && t.members[m].lobby == lobby && x == Member(t.members[m].user, t.members[m].joinedAt);
        assert m in members && members[m] == x;
      }
    }
  }

  /** The seating half of a join, on rows where the caller holds no membership. */
  method EnterRows(t: Db, lobby: LobbyId, user: UserId, now: int, supply: Supply, departed: Option<(LobbyId, int)>)
    returns (r: Result<(Db, Joined), LobbyError>)
    requires Integrity(t) && lobby in t.lobbies && lobby in t.policies
    ensures
      match Enter(Abs(t), user, lobby, now, supply, departed)
      case Err(e) => r == Err(e)
      case Ok(done) => r.Ok? && Integrity(r.value.0) && Abs(r.value.0) == done.0 && r.value.1 == done.1
  {
    var chosen := AllocateMembership(t, supply);
    if chosen.None? { return Err(TemporarilyUnavailable); }
    var admitted := AdmitRows(t, lobby, chosen.value, user, now);
    if admitted.None? { return Err(TemporarilyUnavailable); }
    RoomOfPut(admitted.value, Abs(t), lobby, Admit(RoomOf(t, lobby), chosen.value, user, now));
    RosterRefines(admitted.value, lobby, chosen.value);
    r := Ok((admitted.value, Joined(RowLobbyView(admitted.value, lobby, chosen.value), true, departed)));
  }

  ghost predicate Joins(tx: Tx<Result<Joined, LobbyError>>, r: Result<(Db, Joined), LobbyError>) {
    match tx.reply
    case Err(e) => r == Err(e)
    case Ok(done) => r.Ok? && r.value.1 == done && Integrity(r.value.0) && Abs(r.value.0) == tx.store
  }

  /** A guest's transfer out of `home`, told by the lobby as it was. */
  ghost function Transferred(s: Store, s1: Store, at: Seat, home: Room, user: UserId, l: LobbyId, now: int,
                             supply: Supply)
    : Tx<Result<Joined, LobbyError>>
    requires l in s1.rooms && s1.rooms[l].policy.Some? && at.lobby != l && home.policy.Some?
  {
    if home.revision == MAX_REVISION then Tx(s, Err(TemporarilyUnavailable))
    else match Enter(Put(s1, at.lobby, Depart(home, at.membership)), user, l, now, supply,
                     Some((at.lobby, home.revision + 1)))
      case Err(e) => Tx(s, Err(e))
      case Ok(done) => Tx(done.0, Ok(done.1))
  }

  lemma JoinElsewhere(s: Store, s1: Store, at: Seat, user: UserId, l: LobbyId, now: int, supply: Supply)
    requires l in s1.rooms && s1.rooms[l].policy.Some? && at.lobby != l
    requires Seated(s1, at.membership, at.lobby) && s1.rooms[at.lobby].policy.Some?
    ensures JoinFrom(s, s1, Some(at), user, l, now, supply) ==
            if s1.rooms[at.lobby].owner == user then Tx(s, Err(AlreadyInLobby))
            else Transferred(s, s1, at, s1.rooms[at.lobby], user, l, now, supply)
  {
  }

  method TransferRows(ghost s: Store, t: Db, membership: MembershipId, lobby: LobbyId, user: UserId, now: int,
                      supply: Supply)
    returns (r: Result<(Db, Joined), LobbyError>)
    requires Integrity(t) && membership in t.members && t.members[membership].lobby in t.policies
    requires lobby in t.lobbies && lobby in t.policies && t.members[membership].lobby != lobby
    ensures
      var home := t.members[membership].lobby;
      Joins(Transferred(s, Abs(t), Seat(home, membership), RoomOf(t, home), user, lobby, now, supply), r)
  {
    var home := t.members[membership].lobby;
    var departed := DepartRows(t, membership);
    if departed.None? { return Err(TemporarilyUnavailable); }
    r := EnterRows(departed.value, lobby, user, now, supply, Some((home, t.lobbies[home].revision + 1)));
  }

  function SeatFor(t: Db, membership: Option<MembershipId>): Option<Seat>
    requires membership.Some? ==> membership.value in t.members
  {
    if membership.None? then None else Some(Seat(t.members[membership.value].lobby, membership.value))
  }

  /** A join by somebody seated elsewhere: refused to an owner, a transfer for a guest. */
  method MoveOverRows(ghost s: Store, t: Db, seat: MembershipId, lobby: LobbyId, user: UserId, now: int,
                      supply: Supply)
    returns (r: Result<(Db, Joined), LobbyError>)
    requires Integrity(t) && StoreInv(Abs(t)) && lobby in t.lobbies && lobby in t.policies
    requires seat in t.members && Seated(Abs(t), seat, t.members[seat].lobby) && t.members[seat].lobby != lobby
    ensures Joins(JoinFrom(s, Abs(t), Some(Seat(t.members[seat].lobby, seat)), user, lobby, now, supply), r)
  {
    SeatedRow(t, seat);
    JoinElsewhere(s, Abs(t), Seat(t.members[seat].lobby, seat), user, lobby, now, supply);
    if t.lobbies[t.members[seat].lobby].owner == user { return Err(AlreadyInLobby); }
    r := TransferRows(s, t, seat, lobby, user, now, supply);
  }

  method JoinFromRows(ghost s: Store, t: Db, seat: Option<MembershipId>, lobby: LobbyId, user: UserId, now: int,
                      supply: Supply)
    returns (r: Result<(Db, Joined), LobbyError>)
    requires Integrity(t) && StoreInv(Abs(t)) && lobby in t.lobbies && lobby in t.policies
    requires seat.Some? ==> seat.value in t.members && Seated(Abs(t), seat.value, t.members[seat.value].lobby)
    ensures Joins(JoinFrom(s, Abs(t), SeatFor(t, seat), user, lobby, now, supply), r)
  {
    if seat.None? {
      r := EnterRows(t, lobby, user, now, supply, None);
    } else if t.members[seat.value].lobby != lobby {
      r := MoveOverRows(s, t, seat.value, lobby, user, now, supply);
    } else {
      SeatedRow(t, seat.value);
      RosterRefines(t, lobby, seat.value);
      r := Ok((t, Joined(RowLobbyView(t, lobby, seat.value), false, None)));
    }
  }

  /** A join once its target is known. */
  method JoinTargetRows(t: Db, user: UserId, lobby: LobbyId, now: int, supply: Supply)
    returns (r: Result<(Db, Joined), LobbyError>)
    requires Integrity(t) && StoreInv(Abs(t)) && lobby in t.lobbies && Live(Abs(t).rooms[lobby], now)
    ensures Joins(JoinTo(Abs(t), user, lobby, now, supply), r)
  {
    assert RoomInv(Abs(t).rooms[lobby]);
    var t1 := ReclaimRows(t, user, now);
    ReclaimSeats(Abs(t), user, now);
    ReclaimKeeps(Abs(t), user, now);
    var seat := FindSeat(t1, user);
    r := JoinFromRows(Abs(t), t1, seat, lobby, user, now, supply);
  }

  /** The whole join on uncommitted rows. */
  method JoinRows(t: Db, user: UserId, code: JoinCode, now: int, supply: Supply)
    returns (r: Result<(Db, Joined), LobbyError>)
    requires Integrity(t) && StoreInv(Abs(t))
    ensures Joins(Join(Abs(t), user, code, now, supply, true), r)
  {
    if !Representable(now) { return Err(TemporarilyUnavailable); }
    if user !in t.users { return Err(LobbyUnauthorized); }
    var target := FindInvited(t, code, now);
    if target.None? { return Err(LobbyUnavailable); }
    r := JoinTargetRows(t, user, target.value, now, supply);
  }

  /** The whole creation on uncommitted rows. */
  method CreateRows(t: Db, user: UserId, now: int, supply: Candidates)
    returns (r: Result<(Db, LobbyView), LobbyError>)
    requires Integrity(t) && StoreInv(Abs(t))
    ensures
      var tx := Create(Abs(t), user, now, supply, true);
      match tx.reply
      case Err(e) => r == Err(e)
      case Ok(view) => r.Ok? && r.value.1 == view && Integrity(r.value.0) && Abs(r.value.0) == tx.store
  {
    if user !in t.users { return Err(LobbyUnauthorized); }
    if !Representable(now) || !Representable(now + LOBBY_SECONDS) { return Err(TemporarilyUnavailable); }
    var t1 := ReclaimRows(t, user, now);
    ReclaimKeeps(Abs(t), user, now);
    var seat := FindSeat(t1, user);
    if seat.Some? { return Err(AlreadyInLobby); }
    var chosen := AllocateLobby(t1, supply);
    if chosen.None? { return Err(TemporarilyUnavailable); }
    var c := chosen.value;
    FoundRefines(t1, c, user, now);
    var t2 := FoundRows(t1, c, user, now);
    RoomOfPut(t2, Abs(t1), c.lobby, Founded(c, user, now));
    RosterRefines(t2, c.lobby, c.membership);
    r := Ok((t2, RowLobbyView(t2, c.lobby, c.membership)));
  }

  /** bound_stream_state: one statement, one coherent look at the bound lobby. */
  method SelectSighting(t: Db, user: UserId, membership: MembershipId, lobby: LobbyId) returns (r: Option<Sighting>)
    requires Integrity(t)
    ensures r == Observe(Abs(t), user, membership, lobby)
  {
    if lobby !in t.lobbies { return None; }
    var present := membership in t.members && t.members[membership].user == user
                   && t.members[membership].lobby == lobby && user in t.users;
    r := Some(Sighting(t.lobbies[lobby].revision, t.lobbies[lobby].closedAt.Some?, present));
  }

  /** current_lobby. */
  method SelectCurrent(t: Db, user: UserId, asked: int, answered: int)
    returns (r: Result<Option<LobbyView>, LobbyError>)
    requires Integrity(t) && StoreInv(Abs(t))
    ensures r == Current(Abs(t), user, asked, answered, true)
  {
    if user !in t.users { return Err(LobbyUnauthorized); }
    if !Representable(asked) { return Err(TemporarilyUnavailable); }
    var seat := FindSeat(t, user);
    if seat.None? { return Ok(None); }
    var lobby := t.members[seat.value].lobby;
    var row := t.lobbies[lobby];
    if row.closedAt.Some? || row.expiresAt <= asked { return Ok(None); }
    if !Representable(answered) { return Err(TemporarilyUnavailable); }
    if row.expiresAt <= answered { return Ok(None); }
    RosterRefines(t, lobby, seat.value);
    r := Ok(Some(RowLobbyView(t, lobby, seat.value)));
  }
}
