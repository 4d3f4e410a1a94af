/** Occurrence-exact progression: an advance names one occurrence, and takes that one or nothing. */
module Progression {
  import opened Prelude
  import opened Ordering
  import opened Rooms
  import opened Transactions
  import opened StoreLaws
  import opened Runs

  lemma AdvanceHead(r: Room, e: EntryId)
    requires RoomInv(r) && r.closedAt.None? && AdvanceEdit(r, e).Ok?
    ensures AdvanceEdit(r, e).value.Some?
    ensures var q := AdvanceEdit(r, e).value.value.queue;
      r.queue == [e] + q && e !in q && AdvanceEdit(r, e).value.value == r.(queue := q)
  {
    AdvanceKeeps(r, e);
    var q := AdvanceEdit(r, e).value.value.queue;
    assert forall i :: 0 <= i < |q| ==> r.queue[i + 1] == q[i];
  }

  /** A room after the occurrence `e` was taken from its head. */
  ghost predicate Taken(r: Room, r': Room, e: EntryId) {
    && r.queue == [e] + r'.queue && e !in r'.queue
    && r' == r.(queue := r'.queue, revision := r.revision + 1)
  }

  lemma AdvanceCommits(s: Store, l: LobbyId, user: Account, m: MembershipId, e: EntryId, clock: Clock)
    requires StoreInv(s) && Mutate(s, user, m, Advance(e), clock, true).reply.Ok?
    requires Authorize(s, user, m, Host, clock) == Ok(l)
    ensures AdvanceEdit(s.rooms[l], e).Ok? && AdvanceEdit(s.rooms[l], e).value.Some?
    ensures
      var tx := Mutate(s, user, m, Advance(e), clock, true);
      var r' := Bump(AdvanceEdit(s.rooms[l], e).value.value);
      tx.store == s.(rooms := s.rooms[l := r']) && Taken(s.rooms[l], r', e)
  {
    AdvanceHead(s.rooms[l], e);
  }

  /** A committed advance is the host's, removes exactly the head it names, and takes one revision. */
  lemma AdvanceTakesItsOccurrence(s: Store, user: Account, m: MembershipId, e: EntryId, clock: Clock)
    returns (l: LobbyId)
    requires StoreInv(s) && Mutate(s, user, m, Advance(e), clock, true).reply.Ok?
    ensures Authorize(s, user, m, Host, clock) == Ok(l) && s.rooms[l].owner == user.id
    ensures
      var tx := Mutate(s, user, m, Advance(e), clock, true);
      && l in tx.store.rooms && Taken(s.rooms[l], tx.store.rooms[l], e)
      && tx.store == s.(rooms := s.rooms[l := tx.store.rooms[l]])
  {
    l := Authorize(s, user, m, Host, clock).value;
    AdvanceCommits(s, l, user, m, e, clock);
  }

  /** If the named occurrence is not at the head, by whatever took it, nothing happens. */
  lemma LateAdvanceDoesNothing(s: Store, user: Account, m: MembershipId, e: EntryId, clock: Clock, storage: bool)
    requires StoreInv(s) && Authorize(s, user, m, Host, clock).Ok?
    requires var q := s.rooms[Authorize(s, user, m, Host, clock).value].queue; q == [] || q[0] != e
    ensures Mutate(s, user, m, Advance(e), clock, storage) ==
            Tx(s, Err(if storage then CurrentChanged else Storage))
  {
  }

  /** Once an occurrence has left the order, no later advance of it takes anything, however often it is sent. */
  lemma ConsumedOnce(ws: seq<World>, i: nat, j: nat, l: LobbyId, e: EntryId,
                     user: Account, m: MembershipId, clock: Clock, storage: bool)
    requires Run(ws) && i <= j < |ws| && StoreInv(ws[j].store)
    requires l in ws[i].store.rooms && e in ws[i].store.rooms[l].entries && e !in ws[i].store.rooms[l].queue
    requires Authorize(ws[j].store, user, m, Host, clock) == Ok(l)
    requires ws[j].store.rooms[l].expiresAt == ws[i].store.rooms[l].expiresAt
    ensures Mutate(ws[j].store, user, m, Advance(e), clock, storage) ==
            Tx(ws[j].store, Err(if storage then CurrentChanged else Storage))
  {
    RetiredNeverReturns(ws, i, j, l, e);
    if ws[j].store.rooms[l].queue != [] { assert ws[j].store.rooms[l].queue[0] in ws[j].store.rooms[l].queue; }
    LateAdvanceDoesNothing(ws[j].store, user, m, e, clock, storage);
  }

  /** Two committed advances of one lobby never took the same occurrence. */
  lemma NoOccurrenceTakenTwice(ws: seq<World>, i: nat, j: nat, k: nat, e: EntryId, user: Account, m: MembershipId,
                               at: Clock,
                               again: Account, n: MembershipId, clock: Clock)
    requires Run(ws) && k == i + 1 && k <= j < |ws| && StoreInv(ws[i].store) && StoreInv(ws[j].store)
    requires Mutate(ws[i].store, user, m, Advance(e), at, true).reply.Ok?
    requires ws[k].store == Mutate(ws[i].store, user, m, Advance(e), at, true).store
    requires Authorize(ws[j].store, again, n, Host, clock) == Authorize(ws[i].store, user, m, Host, at)
    requires var l := Authorize(ws[i].store, user, m, Host, at).value;
      l in ws[k].store.rooms && ws[j].store.rooms[l].expiresAt == ws[k].store.rooms[l].expiresAt
    ensures Mutate(ws[j].store, again, n, Advance(e), clock, true).reply == Err(CurrentChanged)
  {
    var l := AdvanceTakesItsOccurrence(ws[i].store, user, m, e, at);
    assert ws[i].store.rooms[l].queue[0] == e;
    ConsumedOnce(ws, k, j, l, e, again, n, clock, true);
  }

  lemma VetoDecides(r: Room, e: EntryId)
    ensures VetoEdit(r, e) == Ok(if e in r.queue then Some(r.(queue := Without(r.queue, {e}))) else None)
  {
    WithoutMembers(r.queue, {e});
    if e in r.queue { assert |Without(r.queue, {e})| < |r.queue|; }
  }

  lemma VetoFinishes(s: Store, l: LobbyId, user: Account, m: MembershipId, e: EntryId, clock: Clock)
    requires StoreInv(s) && Authorize(s, user, m, Host, clock) == Ok(l)
    ensures VetoEdit(s.rooms[l], e).Ok?
    ensures VetoEdit(s.rooms[l], e).value.Some? ==> EditSound(s.rooms[l], VetoEdit(s.rooms[l], e).value.value)
    ensures Mutate(s, user, m, Veto(e), clock, true) ==
            Finish(s, l, VetoEdit(s.rooms[l], e).value, user, m, clock)
  {
    MutateFinishes(s, l, user, m, Veto(e), clock);
  }

  lemma VetoCommits(s: Store, l: LobbyId, user: Account, m: MembershipId, e: EntryId, clock: Clock)
    requires StoreInv(s) && Mutate(s, user, m, Veto(e), clock, true).reply.Ok?
    requires Authorize(s, user, m, Host, clock) == Ok(l)
    ensures
      var tx := Mutate(s, user, m, Veto(e), clock, true);
      var r := s.rooms[l];
      && tx.reply.value.changed == (e in r.queue)
      && tx.store == if e in r.queue then Put(s, l, Bump(r.(queue := Without(r.queue, {e})))) else s
  {
    VetoFinishes(s, l, user, m, e, clock);
    VetoDecides(s.rooms[l], e);
  }

  /**
   A veto is exact in the same way: it takes the entry from the order and keeps the rest in their order, takes a
   revision exactly when the entry was queued, and touches nothing else of this or any other lobby.
   */
  lemma VetoTakesItsOccurrence(s: Store, user: Account, m: MembershipId, e: EntryId, clock: Clock)
    returns (l: LobbyId)
    requires StoreInv(s) && Mutate(s, user, m, Veto(e), clock, true).reply.Ok?
    ensures Authorize(s, user, m, Host, clock) == Ok(l) && s.rooms[l].owner == user.id
    ensures
      var tx := Mutate(s, user, m, Veto(e), clock, true);
      && tx.reply.value.changed == (e in s.rooms[l].queue)
      && (e !in s.rooms[l].queue ==> tx.store == s)
      && l in tx.store.rooms && tx.store == s.(rooms := s.rooms[l := tx.store.rooms[l]])
      && (e in s.rooms[l].queue ==>
            tx.store.rooms[l] == s.rooms[l].(queue := tx.store.rooms[l].queue, revision := s.rooms[l].revision + 1))
      && (forall x :: x in tx.store.rooms[l].queue <==> x in s.rooms[l].queue && x != e)
      && (forall x, y :: x != e && y != e && Before(s.rooms[l].queue, x, y) ==> Before(tx.store.rooms[l].queue, x, y))
  {
    l := Authorize(s, user, m, Host, clock).value;
    VetoCommits(s, l, user, m, e, clock);
    var q := s.rooms[l].queue;
    WithoutMembers(q, {e});
    forall x, y | x != e && y != e && Before(q, x, y) ensures Before(Without(q, {e}), x, y) {
      WithoutOrder(q, {e}, x, y);
    }
  }
}
