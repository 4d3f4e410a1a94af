/** What each queue request decides, refusal by refusal, told from the stored lobby; and what a view tells of it. */
module Decisions {
  import opened Prelude
  import opened Ordering
  import opened Rooms
  import opened Transactions
  import opened StoreLaws
  import opened Accounting
  import opened Authority

  // ---------------------------------------------------------------- edits

  /** `q` is the order with the entry of the move at its new place and everything else as it was. */
  ghost predicate Moved(r: Room, c: Command, q: seq<EntryId>)
    requires c.Move?
  {
    && multiset(q) == multiset(r.queue) && |q| > c.toIndex + 1 && q[c.toIndex + 1] == c.entry && q[0] == r.queue[0]
    && (forall a, b :: a != c.entry && b != c.entry ==> (Before(q, a, b) <==> Before(r.queue, a, b)))
  }

  /** `q` is the order without `e` and with everything else as it was. */
  ghost predicate Dropped(r: Room, e: EntryId, q: seq<EntryId>) {
    && Distinct(q) && (forall x :: x in q <==> x in r.queue && x != e)
    && (forall a, b :: a != e && b != e ==> (Before(q, a, b) <==> Before(r.queue, a, b)))
  }

  /** The decision a request calls for; positions of a move count the upcoming entries only. */
  ghost predicate Decides(r: Room, user: UserId, c: Command, at: int, edit: Result<Option<Room>, QueueError>)
    requires RoomInv(r) && r.closedAt.None?
  {
    match c
    case Move(e, expected, to) =>
      if r.revision != expected then edit == Err(StaleRevision)
      else if e !in r.queue then edit == Err(EntryUnavailable)
      else if r.queue[0] == e then edit == Err(NotUpcoming)
      else if to >= |r.queue| - 1 then edit == Err(InvalidRequest)
      else if r.queue[to + 1] == e then edit == Ok(None)
      else Changes(edit) && edit.value.value == r.(queue := edit.value.value.queue) && Moved(r, c, edit.value.value.queue)
    case Vote(e) =>
      if e !in r.queue then edit == Err(EntryUnavailable)
      else if at < FIRST_SECOND || at > LAST_SECOND then edit == Err(Unavailable)
      else if (e, user) in r.votes then edit == Ok(None)
      else Changes(edit) && Moderated(r, r.(votes := r.votes[(e, user) := at]), edit.value.value)
    case SetPolicy(p) =>
      if p.Fixed? && !(1 <= p.count <= MAX_FIXED_COUNT) then edit == Err(InvalidRequest)
      else if r.policy == Some(p) then edit == Ok(None)
      else Changes(edit) && Moderated(r, r.(policy := Some(p)), edit.value.value)
    case Advance(e) =>
      if r.queue == [] || r.queue[0] != e then edit == Err(CurrentChanged)
      else Changes(edit) && edit.value.value == r.(queue := r.queue[1..])
    case Veto(e) =>
      if e !in r.queue then edit == Ok(None)
      else Changes(edit) && edit.value.value == r.(queue := edit.value.value.queue) && Dropped(r, e, edit.value.value.queue)
  }

  lemma MoveDecides(r: Room, user: UserId, c: Command, at: int)
    requires RoomInv(r) && r.closedAt.None? && c.Move?
    ensures Decides(r, user, c, at, MoveEdit(r, c))
  {
    if Changes(MoveEdit(r, c)) { MoveExact(r, c); }
  }

  lemma VetoDecides(r: Room, user: UserId, e: EntryId, at: int)
    requires RoomInv(r) && r.closedAt.None?
    ensures Decides(r, user, Veto(e), at, VetoEdit(r, e))
  {
    VetoKeeps(r, e);
    if e in r.queue {
      var q := Without(r.queue, {e});
      WithoutMembers(r.queue, {e});
      WithoutDistinct(r.queue, {e});
      forall a, b | a != e && b != e ensures Before(q, a, b) <==> Before(r.queue, a, b) {
        WithoutOrder(r.queue, {e}, a, b);
      }
    }
  }

  /** Every request decides what it calls for. */
  lemma EditsDecide(r: Room, user: UserId, c: Command, at: int)
    requires RoomInv(r) && r.closedAt.None? && WellTyped(c)
    ensures Decides(r, user, c, at, EditOf(r, user, c, at))
  {
    match c
    case Move(_, _, _) => MoveDecides(r, user, c, at);
    case Vote(e) => if Changes(VoteEdit(r, user, e, at)) { VoteKeeps(r, user, e, at); }
    case SetPolicy(p) => if Changes(PolicyEdit(r, p)) { PolicyKeeps(r, p); }
    case Advance(e) =>
    case Veto(e) => VetoDecides(r, user, e, at);
  }

  /** The whole of an edit by an admitted caller in its role: the decision, one revision, the deadlines, and the view. */
  lemma EditsCommitWhatTheyDecide(s: Store, user: Account, m: MembershipId, l: LobbyId, c: Command, clock: Clock)
    returns (edit: Result<Option<Room>, QueueError>)
    requires StoreInv(s) && WellTyped(c) && Admitted(s, user, m, l, clock) && InItsRole(s, user.id, l, c)
    ensures Decides(s.rooms[l], user.id, c, clock[WRITE], edit)
    ensures edit.Ok? && edit.value.Some? && s.rooms[l].revision < MAX_REVISION ==>
              RoomInv(edit.value.value.(revision := s.rooms[l].revision + 1))
    ensures
      var r, tx, late := s.rooms[l], Mutate(s, user, m, c, clock, true), TooLate(s.rooms[l].expiresAt, user, clock[DEADLINE]);
      if edit.Err? then tx == Tx(s, Err(edit.error))
      else if edit.value.Some? && r.revision == MAX_REVISION then tx == Tx(s, Err(Unavailable))
      else if late.Some? then tx == Tx(s, Err(late.value))
      else if edit.value.None? then tx == Tx(s, Ok(Mutation(false, Snapshot(r, l, user.id, m))))
      else
        var r' := edit.value.value.(revision := r.revision + 1);
        tx == Tx(Put(s, l, r'), Ok(Mutation(true, Snapshot(r', l, user.id, m))))
  {
    edit := EditOf(s.rooms[l], user.id, c, clock[WRITE]);
    EditsDecide(s.rooms[l], user.id, c, clock[WRITE]);
    AdmittedPasses(s, user, m, l, clock);
    MutateFinishes(s, l, user, m, c, clock);
    LateIsLate(s.rooms[l].expiresAt, user, clock[DEADLINE]);
    if edit.Ok? && edit.value.None? { FinishUnchanged(s, l, user, m, clock); }
    if edit.Ok? && edit.value.Some? { FinishChanged(s, l, edit.value.value, user, m, clock); }
  }

  lemma FinishUnchanged(s: Store, l: LobbyId, user: Account, m: MembershipId, clock: Clock)
    requires StoreInv(s) && l in s.rooms && s.rooms[l].closedAt.None?
    ensures
      var tx, late := Finish(s, l, None, user, m, clock), TooLate(s.rooms[l].expiresAt, user, clock[DEADLINE]);
      tx == Tx(s, if late.Some? then Err(late.value) else Ok(Mutation(false, Snapshot(s.rooms[l], l, user.id, m))))
  {
    LateIsLate(s.rooms[l].expiresAt, user, clock[DEADLINE]);
  }

  lemma FinishChanged(s: Store, l: LobbyId, edited: Room, user: Account, m: MembershipId, clock: Clock)
    requires StoreInv(s) && l in s.rooms && s.rooms[l].closedAt.None? && EditSound(s.rooms[l], edited)
    ensures s.rooms[l].revision < MAX_REVISION ==> RoomInv(edited.(revision := s.rooms[l].revision + 1))
    ensures
      var r, tx, late := s.rooms[l], Finish(s, l, Some(edited), user, m, clock), TooLate(s.rooms[l].expiresAt, user, clock[DEADLINE]);
      if r.revision == MAX_REVISION then tx == Tx(s, Err(Unavailable))
      else if late.Some? then tx == Tx(s, Err(late.value))
      else
        var r' := edited.(revision := r.revision + 1);
        tx == Tx(Put(s, l, r'), Ok(Mutation(true, Snapshot(r', l, user.id, m))))
  {
    LateIsLate(s.rooms[l].expiresAt, user, clock[DEADLINE]);
    if s.rooms[l].revision < MAX_REVISION {
      BumpKeeps(edited);
      assert Bump(edited) == edited.(revision := s.rooms[l].revision + 1);
    }
  }

  // ---------------------------------------------------------------- moderation, in numbers

  /** Memberships of guests that voted for the entry, whatever was stored by accounts that are no members now. */
  ghost predicate VotesFor(r: Room, m: MembershipId, e: EntryId) {
    m in r.members && r.members[m].user != r.owner && (e, r.members[m].user) in r.votes
  }

  /** By majority an entry goes when more than half of the guests voted for it, with a fixed count when that many did. */
  lemma ModerationCounts(r: Room, e: EntryId, voters: set<MembershipId>, guests: set<MembershipId>)
    requires RoomInv(r) && r.closedAt.None?
    requires forall m :: m in voters <==> VotesFor(r, m, e)
    requires forall m :: m in guests <==> m in r.members && r.members[m].user != r.owner
    ensures Qualifies(r, e) <==>
            if r.policy.value.Majority? then 2 * |voters| > |guests| else |voters| >= r.policy.value.count
  {
    assert guests == Guests(r) && voters == Voters(r, e);
    if guests == {} { assert voters == {}; }
  }

  // ---------------------------------------------------------------- views

  /** What a view shows of the entry at one place of the order. */
  ghost predicate Tells(r: Room, user: UserId, v: EntryView, e: EntryId) {
    && v.id == e && e in r.entries && v.entry == r.entries[e]
    && (v.hasVoted <==> r.owner != user && (e, user) in r.votes)
    && (forall voters: set<MembershipId> :: (forall m :: m in voters <==> VotesFor(r, m, e)) ==> v.activeVoteCount == |voters|)
  }

  /** A view shows the lobby and membership it is of, the first entry as current and the rest in order, with their votes. */
  lemma ViewTellsTheLobby(r: Room, l: LobbyId, user: UserId, m: MembershipId, i: nat)
    requires RoomInv(r) && r.closedAt.None?
    ensures
      var v := Snapshot(r, l, user, m);
      && v.lobby == l && v.membership == m && v.revision == r.revision
      && (v.current.None? <==> r.queue == []) && (v.current.None? ==> v.upcoming == [])
      && (v.current.Some? ==> Tells(r, user, v.current.value, r.queue[0]) && |v.upcoming| == |r.queue| - 1)
      && (0 < i < |r.queue| ==> Tells(r, user, v.upcoming[i - 1], r.queue[i]))
      && Some(v.voting.policy) == r.policy
  {
    if r.queue != [] { EntryTells(r, user, r.queue[0]); }
    if i < |r.queue| { EntryTells(r, user, r.queue[i]); }
  }

  lemma EntryTells(r: Room, user: UserId, e: EntryId)
    requires e in r.entries
    ensures Tells(r, user, ViewEntry(r, e, user), e)
  {
    forall voters: set<MembershipId> | forall m :: m in voters <==> VotesFor(r, m, e)
      ensures ViewEntry(r, e, user).activeVoteCount == |voters|
    {
      assert voters == Voters(r, e);
    }
  }

  /** And how many guests there are, with the number of votes that removes an entry, where there is one. */
  lemma ViewTellsTheVoting(r: Room, l: LobbyId, user: UserId, m: MembershipId, guests: set<MembershipId>)
    requires RoomInv(r) && r.closedAt.None?
    requires forall k :: k in guests <==> k in r.members && r.members[k].user != r.owner
    ensures
      var v := Snapshot(r, l, user, m).voting;
      && v.activeGuestCount == |guests|
      && (if v.policy.Fixed? then v.effectiveThreshold == Some(v.policy.count)
          else if |guests| == 0 then v.effectiveThreshold == None
          else v.effectiveThreshold.Some? && 2 * v.effectiveThreshold.value - |guests| in {1, 2})
  {
    assert guests == Guests(r);
  }

  // ---------------------------------------------------------------- submissions

  /** The allocator answered the try, and its timestamp can be written. */
  predicate Served(supply: Supply, clock: Clock, j: nat)
    requires j < ATTEMPTS
  {
    supply[j].Some? && FIRST_SECOND <= clock[WRITE + j] <= LAST_SECOND
  }

  /** `supply[k]` is the first id that no lobby has recorded, every try before it having been served and timed. */
  ghost predicate FirstFree(s: Store, supply: Supply, clock: Clock, k: nat) {
    && k < ATTEMPTS && Served(supply, clock, k) && !EntryTaken(s, supply[k].value)
    && (forall j :: 0 <= j < k ==> Served(supply, clock, j) && EntryTaken(s, supply[j].value))
  }

  lemma {:induction false} FreshEntryIsFirst(s: Store, supply: Supply, clock: Clock, from: nat, k: nat)
    requires from <= k && FirstFree(s, supply, clock, k)
    ensures FreshEntry(s, supply, clock, from) == Some((supply[k].value, clock[WRITE + k]))
    decreases k - from
  {
    assert Served(supply, clock, from);
    if from < k {
      assert EntryTaken(s, supply[from].value);
      FreshEntryIsFirst(s, supply, clock, from + 1, k);
    }
  }

  /** The tries before `from` were served and timed, and each was taken. */
  ghost predicate Tried(s: Store, supply: Supply, clock: Clock, from: nat) {
    && from <= ATTEMPTS
    && (forall j :: 0 <= j < from ==> Served(supply, clock, j) && EntryTaken(s, supply[j].value))
  }

  lemma {:induction false} NoFreshEntry(s: Store, supply: Supply, clock: Clock, from: nat)
    requires Tried(s, supply, clock, from) && forall k :: !FirstFree(s, supply, clock, k)
    ensures FreshEntry(s, supply, clock, from).None?
    decreases ATTEMPTS - from
  {
    if from < ATTEMPTS && supply[from].Some? && Representable(clock[WRITE + from]) {
      assert !FirstFree(s, supply, clock, from);
      assert Served(supply, clock, from);
      assert EntryTaken(s, supply[from].value);
      NoFreshEntry(s, supply, clock, from + 1);
    }
  }

  /** A retry by any member finds its first submission: another video conflicts, the same is shown again. */
  lemma RepeatsFindTheirReceipt(s: Store, user: Account, m: MembershipId, l: LobbyId, request: RequestId, e: EntryId,
                                video: Video, supply: Supply, clock: Clock)
    requires StoreInv(s) && Admitted(s, user, m, l, clock) && Receipt(s.rooms[l], user.id, request, e)
    ensures
      var r, late := s.rooms[l], TooLate(s.rooms[l].expiresAt, user, clock[DEADLINE]);
      var reply := if r.entries[e].video.videoId != video.videoId then Err(IdempotencyConflict)
                   else if late.Some? then Err(late.value)
                   else Ok(Submission(false, e, e in r.queue, Snapshot(r, l, user.id, m)));
      && Submit(s, user, m, request, video, supply, clock, true) == Tx(s, reply)
      && ReadReceipt(s, user, m, request, video.videoId, clock, true) == (if reply.Ok? then Ok(Some(reply.value)) else Err(reply.error))
  {
    AdmittedPasses(s, user, m, l, clock);
    LateIsLate(s.rooms[l].expiresAt, user, clock[DEADLINE]);
    assert SameRequest(s.rooms[l].entries[e], s.rooms[l].entries[ReceiptOf(s.rooms[l], user.id, request).value]);
  }

  /** A first submission by any member: without a free id or a revision left it is unavailable. */
  lemma FirstSubmissionsFail(s: Store, user: Account, m: MembershipId, l: LobbyId, request: RequestId, video: Video,
                             supply: Supply, clock: Clock)
    requires StoreInv(s) && Admitted(s, user, m, l, clock) && forall e :: !Receipt(s.rooms[l], user.id, request, e)
    requires s.rooms[l].revision == MAX_REVISION || forall k :: !FirstFree(s, supply, clock, k)
    ensures Submit(s, user, m, request, video, supply, clock, true) == Tx(s, Err(Unavailable))
  {
    AdmittedPasses(s, user, m, l, clock);
    if forall k :: !FirstFree(s, supply, clock, k) { NoFreshEntry(s, supply, clock, 0); }
  }

  /** A lobby with one more submission at the end of its order. */
  function WithSubmission(r: Room, e: EntryId, entry: Entry): Room {
    r.(queue := r.queue + [e], entries := r.entries[e := entry], revision := r.revision + 1)
  }

  lemma SubmissionFits(s: Store, l: LobbyId, user: UserId, request: RequestId, e: EntryId, entry: Entry)
    requires StoreInv(s) && l in s.rooms && s.rooms[l].closedAt.None? && s.rooms[l].revision < MAX_REVISION
    requires (forall x :: !Receipt(s.rooms[l], user, request, x)) && !EntryTaken(s, e)
    requires entry.submitter == user && entry.request == request
    ensures WithSubmission(s.rooms[l], e, entry) == Bump(Append(s.rooms[l], e, entry))
    ensures RoomInv(WithSubmission(s.rooms[l], e, entry))
  {
    AppendKeeps(s, l, user, request, e, entry);
    BumpKeeps(Append(s.rooms[l], e, entry));
  }

  lemma InsertDecides(s: Store, l: LobbyId, user: Account, m: MembershipId, request: RequestId, video: Video,
                      supply: Supply, clock: Clock, e: EntryId, at: int)
    requires StoreInv(s) && l in s.rooms && s.rooms[l].closedAt.None? && s.rooms[l].revision < MAX_REVISION
    requires ReceiptOf(s.rooms[l], user.id, request).None? && FreshEntry(s, supply, clock, 0) == Some((e, at))
    requires RoomInv(WithSubmission(s.rooms[l], e, Entry(user.id, request, video, at)))
    requires WithSubmission(s.rooms[l], e, Entry(user.id, request, video, at))
             == Bump(Append(s.rooms[l], e, Entry(user.id, request, video, at)))
    ensures
      var r', late := WithSubmission(s.rooms[l], e, Entry(user.id, request, video, at)), TooLate(s.rooms[l].expiresAt, user, clock[DEADLINE]);
      Insert(s, l, user, m, request, video, supply, clock) ==
        if late.Some? then Tx(s, Err(late.value))
        else Tx(Put(s, l, r'), Ok(Submission(true, e, true, Snapshot(r', l, user.id, m))))
  {
    LateIsLate(s.rooms[l].expiresAt, user, clock[DEADLINE]);
  }

  /** Otherwise, its deadlines holding, its own record is stored under the first free id, at the end of the order. */
  lemma FirstSubmissionsStore(s: Store, user: Account, m: MembershipId, l: LobbyId, request: RequestId, video: Video,
                              supply: Supply, clock: Clock, k: nat)
    requires StoreInv(s) && Admitted(s, user, m, l, clock) && forall e :: !Receipt(s.rooms[l], user.id, request, e)
    requires s.rooms[l].revision < MAX_REVISION && FirstFree(s, supply, clock, k)
    ensures RoomInv(WithSubmission(s.rooms[l], supply[k].value, Entry(user.id, request, video, clock[WRITE + k])))
    ensures
      var r', late := WithSubmission(s.rooms[l], supply[k].value, Entry(user.id, request, video, clock[WRITE + k])),
                      TooLate(s.rooms[l].expiresAt, user, clock[DEADLINE]);
      Submit(s, user, m, request, video, supply, clock, true) ==
        if late.Some? then Tx(s, Err(late.value))
        else Tx(Put(s, l, r'), Ok(Submission(true, supply[k].value, true, Snapshot(r', l, user.id, m))))
  {
    var e, at := supply[k].value, clock[WRITE + k];
    SubmissionFits(s, l, user.id, request, e, Entry(user.id, request, video, at));
    AdmittedPasses(s, user, m, l, clock);
    FreshEntryIsFirst(s, supply, clock, 0, k);
    InsertDecides(s, l, user, m, request, video, supply, clock, e, at);
  }

  /** Looking for a submission that was never made finds none. */
  lemma NoReceiptIsFound(s: Store, user: Account, m: MembershipId, l: LobbyId, request: RequestId, video: string, clock: Clock)
    requires StoreInv(s) && Admitted(s, user, m, l, clock) && forall e :: !Receipt(s.rooms[l], user.id, request, e)
    ensures ReadReceipt(s, user, m, request, video, clock, true) ==
            match TooLate(s.rooms[l].expiresAt, user, clock[DEADLINE])
            case Some(e) => Err(e)
            case None => Ok(None)
  {
    AdmittedPasses(s, user, m, l, clock);
    LateIsLate(s.rooms[l].expiresAt, user, clock[DEADLINE]);
  }
}
