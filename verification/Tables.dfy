/**
 The relational tables of the store, and the map of lobbies they represent.
 The order table is keyed by (lobby, position); its foreign keys, and the
 positions being exactly 0..n-1, are what `Integrity` keeps.
 */
module Tables {
  import opened Prelude
  import opened Ordering
  import opened Rooms
  import opened Transactions
  import opened StoreLaws

  datatype LobbyRow = LobbyRow(code: JoinCode, owner: UserId, createdAt: int, expiresAt: int,
                               closedAt: Option<int>, revision: int)
  datatype MemberRow = MemberRow(user: UserId, lobby: LobbyId, joinedAt: int)
  datatype EntryRow = EntryRow(lobby: LobbyId, submitter: UserId, request: RequestId, video: Video, submittedAt: int)
  type OrderTable = map<(LobbyId, nat), EntryId>

  datatype Db = Db(
    users: set<UserId>,
    lobbies: map<LobbyId, LobbyRow>,
    members: map<MembershipId, MemberRow>,
    policies: map<LobbyId, Policy>,
    entries: map<EntryId, EntryRow>,
    order: OrderTable,
    votes: map<(EntryId, UserId), int>)

  // ---------------------------------------------------------------- ORDER BY position

  lemma LeastOf(s: set<nat>) returns (m: nat)
    requires s != {}
    ensures m in s && forall x :: x in s ==> m <= x
  {
    var first :| first in s;
    var rest := s - {first};
    m := first;
    assert forall x :: x in s ==> x == first || x in rest;
    if rest != {} {
      var n := LeastOf(rest);
      if n < first { m := n; }
    }
  }

  function Least(s: set<nat>): (m: nat)
    requires s != {}
    ensures m in s && forall x :: x in s ==> m <= x
  {
    assert exists m :: m in s && forall x :: x in s ==> m <= x by { var n := LeastOf(s); assert n in s; }
    var m :| m in s && forall x :: x in s ==> m <= x;
    m
  }

  ghost function Sorted(s: set<nat>): (ps: seq<nat>)
    ensures |ps| == |s| && forall x :: x in ps <==> x in s
  {
    if s == {} then [] else [Least(s)] + Sorted(s - {Least(s)})
  }

  ghost predicate IsRange(s: set<nat>, a: nat, n: nat) {
    forall x :: x in s <==> a <= x < n
  }

  lemma {:induction false} SortedRange(s: set<nat>, a: nat, n: nat, i: nat)
    requires IsRange(s, a, n) && a <= n && i < n - a
    ensures |Sorted(s)| == n - a == |s| && Sorted(s)[i] == a + i
    decreases n - a
  {
    assert a in s;
    assert Least(s) == a;
    var rest := s - {a};
    assert IsRange(rest, a + 1, n);
    if a + 1 == n {
      assert rest == {};
    } else {
      SortedRange(rest, a + 1, n, if i == 0 then 0 else i - 1);
    }
  }

  function Positions(order: OrderTable, l: LobbyId): set<nat> {
    set k | k in order && k.0 == l :: k.1
  }

  /** SELECT position, entry_id ... WHERE lobby_id = ? ORDER BY position. */
  ghost predicate OrderedRows(order: OrderTable, l: LobbyId, rows: seq<(nat, EntryId)>) {
    var ps := Sorted(Positions(order, l));
    |rows| == |ps| && forall i :: 0 <= i < |ps| ==> rows[i].0 == ps[i] && (l, ps[i]) in order && rows[i].1 == order[(l, ps[i])]
  }

  ghost predicate Dense(order: OrderTable, l: LobbyId, n: nat) {
    forall p: nat :: (l, p) in order <==> p < n
  }

  /** The rows of a lobby at positions 0, 1, 2, ... */
  ghost function QueueOf(order: OrderTable, l: LobbyId): seq<EntryId> {
    seq(|Positions(order, l)|, i requires i >= 0 => if (l, i) in order then order[(l, i)] else 0)
  }

  lemma DenseCount(order: OrderTable, l: LobbyId, n: nat)
    requires Dense(order, l, n)
    ensures |Positions(order, l)| == n == |QueueOf(order, l)|
    ensures forall i :: 0 <= i < n ==> (l, i) in order && QueueOf(order, l)[i] == order[(l, i)]
  {
    var s := Positions(order, l);
    forall p: nat ensures p in s <==> p < n {
      assert (l, p) in order <==> p < n;
    }
    if n > 0 { SortedRange(s, 0, n, 0); } else { assert s == {}; }
    forall i | 0 <= i < n ensures (l, i) in order {}
  }

  /** Over dense positions the ordered rows are numbered 0..n-1 and spell the queue. */
  lemma DenseRows(order: OrderTable, l: LobbyId, n: nat, rows: seq<(nat, EntryId)>)
    requires Dense(order, l, n) && OrderedRows(order, l, rows)
    ensures |rows| == n == |QueueOf(order, l)|
    ensures forall i :: 0 <= i < n ==> rows[i] == (i, QueueOf(order, l)[i])
  {
    var s := Positions(order, l);
    DenseCount(order, l, n);
    assert IsRange(s, 0, n) by {
      forall p: nat ensures p in s <==> p < n {
        assert (l, p) in order <==> p < n;
      }
    }
    forall i | 0 <= i < n ensures rows[i] == (i, QueueOf(order, l)[i]) {
      SortedRange(s, 0, n, i);
    }
  }

  lemma SameDense(a: OrderTable, b: OrderTable, l: LobbyId, n: nat)
    requires Dense(a, l, n) && Dense(b, l, n)
    requires forall i: nat :: i < n ==> a[(l, i)] == b[(l, i)]
    ensures QueueOf(a, l) == QueueOf(b, l)
  {
    DenseCount(a, l, n);
    DenseCount(b, l, n);
  }

  // ---------------------------------------------------------------- what the tables represent

  ghost function MembersOf(members: map<MembershipId, MemberRow>, l: LobbyId): map<MembershipId, Member> {
    map m | m in members && members[m].lobby == l :: Member(members[m].user, members[m].joinedAt)
  }

  function EntryOf(e: EntryRow): Entry {
    Entry(e.submitter, e.request, e.video, e.submittedAt)
  }

  ghost function EntriesOf(entries: map<EntryId, EntryRow>, l: LobbyId): map<EntryId, Entry> {
    map e | e in entries && entries[e].lobby == l :: EntryOf(entries[e])
  }

  ghost function VotesOf(votes: map<(EntryId, UserId), int>, entries: map<EntryId, EntryRow>,
                         l: LobbyId): map<(EntryId, UserId), int> {
    map v | v in votes && v.0 in entries && entries[v.0].lobby == l :: votes[v]
  }

  function PolicyOf(policies: map<LobbyId, Policy>, l: LobbyId): Option<Policy> {
    if l in policies then Some(policies[l]) else None
  }

  ghost function RoomOf(t: Db, l: LobbyId): Room
    requires l in t.lobbies
  {
    var w := t.lobbies[l];
    Room(w.code, w.owner, w.createdAt, w.expiresAt, w.closedAt, w.revision,
         MembersOf(t.members, l), PolicyOf(t.policies, l), QueueOf(t.order, l),
         EntriesOf(t.entries, l), VotesOf(t.votes, t.entries, l))
  }

  ghost function Abs(t: Db): Store {
    Store(t.users, map l | l in t.lobbies :: RoomOf(t, l))
  }

  ghost predicate ForeignKeys(t: Db) {
    && (forall m :: m in t.members ==> t.members[m].lobby in t.lobbies)
    && (forall l :: l in t.policies ==> l in t.lobbies)
    && (forall e :: e in t.entries ==> t.entries[e].lobby in t.lobbies)
    && (forall k :: k in t.order ==> t.order[k] in t.entries && t.entries[t.order[k]].lobby == k.0)
    && (forall v :: v in t.votes ==> v.0 in t.entries)
  }

  ghost predicate AllDense(order: OrderTable) {
    forall l :: Dense(order, l, |Positions(order, l)|)
  }

  ghost predicate Integrity(t: Db) {
    ForeignKeys(t) && AllDense(t.order)
  }

  /** Ordered rows of dense tables are numbered from zero and spell the queue. */
  lemma DenseLobby(order: OrderTable, l: LobbyId, rows: seq<(nat, EntryId)>)
    requires AllDense(order) && OrderedRows(order, l, rows)
    ensures |rows| == |QueueOf(order, l)|
    ensures forall i :: 0 <= i < |rows| ==> rows[i] == (i, QueueOf(order, l)[i])
  {
    assert Dense(order, l, |Positions(order, l)|);
    DenseRows(order, l, |Positions(order, l)|, rows);
  }

  /** A statement that changes what belongs to one lobby. */
  lemma OneRoomChanged(t: Db, t': Db, l: LobbyId, r: Room)
    requires t'.users == t.users && l in t'.lobbies && t'.lobbies.Keys == t.lobbies.Keys + {l}
    requires RoomOf(t', l) == r
    requires forall k :: k in t.lobbies && k != l ==> RoomOf(t', k) == RoomOf(t, k)
    ensures Abs(t') == Put(Abs(t), l, r)
  {
    var after, put := Abs(t').rooms, Put(Abs(t), l, r).rooms;
    assert after.Keys == t'.lobbies.Keys && put.Keys == t.lobbies.Keys + {l};
    forall k | k in after ensures after[k] == put[k] {
      if k != l { assert RoomOf(t', k) == RoomOf(t, k); }
    }
  }

  // ---------------------------------------------------------------- statements

  /** DELETE FROM queue_order for the lobby, then one INSERT per position. */
  function WithOrder(order: OrderTable, l: LobbyId, ids: seq<EntryId>): OrderTable {
    (map k | k in order && k.0 != l :: order[k]) + (map i: nat | i < |ids| :: (l, i) := ids[i])
  }

  lemma WithOrderOwn(order: OrderTable, l: LobbyId, ids: seq<EntryId>)
    ensures Dense(WithOrder(order, l, ids), l, |ids|) && QueueOf(WithOrder(order, l, ids), l) == ids
  {
    var order' := WithOrder(order, l, ids);
    forall p: nat ensures (l, p) in order' <==> p < |ids| {}
    DenseCount(order', l, |ids|);
  }

  lemma WithOrderOther(order: OrderTable, l: LobbyId, ids: seq<EntryId>, k: LobbyId, n: nat)
    requires k != l && Dense(order, k, n)
    ensures Dense(WithOrder(order, l, ids), k, n) && QueueOf(WithOrder(order, l, ids), k) == QueueOf(order, k)
  {
    var order' := WithOrder(order, l, ids);
    forall p: nat ensures (k, p) in order' <==> p < n {
      assert (k, p) in order' <==> (k, p) in order;
    }
    SameDense(order, order', k, n);
  }

  lemma WithOrderDense(order: OrderTable, l: LobbyId, ids: seq<EntryId>)
    requires AllDense(order)
    ensures AllDense(WithOrder(order, l, ids))
    ensures forall k :: QueueOf(WithOrder(order, l, ids), k) == if k == l then ids else QueueOf(order, k)
  {
    var order' := WithOrder(order, l, ids);
    forall k
      ensures Dense(order', k, |Positions(order', k)|)
      ensures QueueOf(order', k) == if k == l then ids else QueueOf(order, k)
    {
      if k == l {
        WithOrderOwn(order, l, ids);
        DenseCount(order', l, |ids|);
      } else {
        assert Dense(order, k, |Positions(order, k)|);
        WithOrderOther(order, l, ids, k, |Positions(order, k)|);
        DenseCount(order', k, |Positions(order, k)|);
      }
    }
  }

  ghost predicate RowsOf(entries: map<EntryId, EntryRow>, l: LobbyId, ids: seq<EntryId>) {
    forall e :: e in ids ==> e in entries && entries[e].lobby == l
  }

  lemma WithOrderKeys(t: Db, l: LobbyId, ids: seq<EntryId>)
    requires ForeignKeys(t) && RowsOf(t.entries, l, ids)
    ensures ForeignKeys(t.(order := WithOrder(t.order, l, ids)))
  {
    var t' := t.(order := WithOrder(t.order, l, ids));
    forall k | k in t'.order ensures t'.order[k] in t.entries && t.entries[t'.order[k]].lobby == k.0 {
      if k.0 == l { assert t'.order[k] == ids[k.1]; } else { assert t'.order[k] == t.order[k]; }
    }
  }

  /** replace_order rewrites one lobby's queue and nothing else. */
  lemma ReplaceOrderRefines(t: Db, l: LobbyId, ids: seq<EntryId>)
    requires Integrity(t) && l in t.lobbies && RowsOf(t.entries, l, ids)
    ensures
      var t' := t.(order := WithOrder(t.order, l, ids));
      Integrity(t') && Abs(t') == Put(Abs(t), l, RoomOf(t, l).(queue := ids))
  {
    WithOrderDense(t.order, l, ids);
    WithOrderKeys(t, l, ids);
    OneRoomChanged(t, t.(order := WithOrder(t.order, l, ids)), l, RoomOf(t, l).(queue := ids));
  }

  /** INSERT at position count(*) appends. */
  lemma AppendIsReplace(order: OrderTable, l: LobbyId, e: EntryId)
    requires AllDense(order)
    ensures order[(l, |Positions(order, l)|) := e] == WithOrder(order, l, QueueOf(order, l) + [e])
  {
    var n := |Positions(order, l)|;
    assert Dense(order, l, n);
    DenseCount(order, l, n);
    AppendRow(order, l, n, QueueOf(order, l), e);
  }

  lemma WithOrderAt(order: OrderTable, l: LobbyId, ids: seq<EntryId>, k: (LobbyId, nat))
    ensures k in WithOrder(order, l, ids) <==> if k.0 == l then k.1 < |ids| else k in order
    ensures k in WithOrder(order, l, ids) ==> WithOrder(order, l, ids)[k] == if k.0 == l then ids[k.1] else order[k]
  {
    assert k == (k.0, k.1);
  }

  lemma AppendRow(order: OrderTable, l: LobbyId, n: nat, q: seq<EntryId>, e: EntryId)
    requires |q| == n && (forall i :: 0 <= i < n ==> (l, i) in order && order[(l, i)] == q[i])
    requires forall k :: k in order && k.0 == l ==> k.1 < n
    ensures order[(l, n) := e] == WithOrder(order, l, q + [e])
  {
    var a, b := order[(l, n) := e], WithOrder(order, l, q + [e]);
    forall k: (LobbyId, nat) ensures k in a <==> k in b {
      if k.0 == l { assert k == (l, k.1); }
    }
    forall k | k in a ensures a[k] == b[k] {
      if k.0 == l { assert k == (l, k.1); }
    }
  }

  lemma InsertUserRefines(t: Db, id: UserId)
    requires Integrity(t)
    ensures
      var t' := t.(users := t.users + {id});
      Integrity(t') && Abs(t') == Abs(t).(users := t.users + {id})
  {
    var t' := t.(users := t.users + {id});
    forall l | l in t.lobbies ensures Abs(t').rooms[l] == Abs(t).rooms[l] {
      assert RoomOf(t', l) == RoomOf(t, l);
    }
    assert Abs(t').rooms == Abs(t).rooms;
  }

  lemma UpdateLobbyRefines(t: Db, l: LobbyId, row: LobbyRow)
    requires Integrity(t) && l in t.lobbies
    ensures
      var t' := t.(lobbies := t.lobbies[l := row]);
      Integrity(t') && Abs(t') == Put(Abs(t), l,
        RoomOf(t, l).(code := row.code, owner := row.owner, createdAt := row.createdAt,
                      expiresAt := row.expiresAt, closedAt := row.closedAt, revision := row.revision))
  {
    var t' := t.(lobbies := t.lobbies[l := row]);
    OneRoomChanged(t, t', l, RoomOf(t', l));
  }

  lemma InsertVoteRefines(t: Db, l: LobbyId, e: EntryId, user: UserId, at: int)
    requires Integrity(t) && l in t.lobbies && e in t.entries && t.entries[e].lobby == l
    ensures
      var t' := t.(votes := t.votes[(e, user) := at]);
      Integrity(t') && Abs(t') == Put(Abs(t), l, RoomOf(t, l).(votes := RoomOf(t, l).votes[(e, user) := at]))
  {
    var t' := t.(votes := t.votes[(e, user) := at]);
    forall k
      ensures VotesOf(t'.votes, t.entries, k) ==
              if k == l then VotesOf(t.votes, t.entries, l)[(e, user) := at] else VotesOf(t.votes, t.entries, k)
    {
    }
    OneRoomChanged(t, t', l, RoomOf(t, l).(votes := RoomOf(t, l).votes[(e, user) := at]));
  }

  lemma UpdatePolicyRefines(t: Db, l: LobbyId, p: Policy)
    requires Integrity(t) && l in t.lobbies
    ensures
      var t' := t.(policies := t.policies[l := p]);
      Integrity(t') && Abs(t') == Put(Abs(t), l, RoomOf(t, l).(policy := Some(p)))
  {
    OneRoomChanged(t, t.(policies := t.policies[l := p]), l, RoomOf(t, l).(policy := Some(p)));
  }

  lemma InsertEntryOf(t: Db, e: EntryId, row: EntryRow, k: LobbyId)
    requires ForeignKeys(t) && e !in t.entries
    ensures EntriesOf(t.entries[e := row], k) ==
            if k == row.lobby then EntriesOf(t.entries, k)[e := EntryOf(row)] else EntriesOf(t.entries, k)
    ensures VotesOf(t.votes, t.entries[e := row], k) == VotesOf(t.votes, t.entries, k)
  {
  }

  lemma InsertEntryRoom(t: Db, e: EntryId, row: EntryRow, k: LobbyId)
    requires ForeignKeys(t) && e !in t.entries && k in t.lobbies
    ensures
      RoomOf(t.(entries := t.entries[e := row]), k) ==
        if k == row.lobby then RoomOf(t, k).(entries := RoomOf(t, k).entries[e := EntryOf(row)]) else RoomOf(t, k)
  {
    InsertEntryOf(t, e, row, k);
  }

  lemma InsertEntryKeys(t: Db, e: EntryId, row: EntryRow)
    requires ForeignKeys(t) && row.lobby in t.lobbies && e !in t.entries
    ensures ForeignKeys(t.(entries := t.entries[e := row]))
  {
  }

  lemma InsertEntryRefines(t: Db, e: EntryId, row: EntryRow)
    requires Integrity(t) && row.lobby in t.lobbies && e !in t.entries
    ensures
      var t' := t.(entries := t.entries[e := row]);
      && Integrity(t')
      && Abs(t') == Put(Abs(t), row.lobby, RoomOf(t, row.lobby).(entries := RoomOf(t, row.lobby).entries[e := EntryOf(row)]))
  {
    var t' := t.(entries := t.entries[e := row]);
    InsertEntryKeys(t, e, row);
    forall k | k in t.lobbies && k != row.lobby ensures RoomOf(t', k) == RoomOf(t, k) {
      InsertEntryRoom(t, e, row, k);
    }
    InsertEntryRoom(t, e, row, row.lobby);
    OneRoomChanged(t, t', row.lobby, RoomOf(t', row.lobby));
  }

  lemma InsertMemberRefines(t: Db, m: MembershipId, row: MemberRow)
    requires Integrity(t) && row.lobby in t.lobbies && m !in t.members
    ensures
      var t' := t.(members := t.members[m := row]);
      && Integrity(t')
      && Abs(t') == Put(Abs(t), row.lobby,
                        RoomOf(t, row.lobby).(members := RoomOf(t, row.lobby).members[m := Member(row.user, row.joinedAt)]))
  {
    var t' := t.(members := t.members[m := row]);
    forall k
      ensures MembersOf(t'.members, k) ==
              if k == row.lobby then MembersOf(t.members, k)[m := Member(row.user, row.joinedAt)] else MembersOf(t.members, k)
    {
    }
    OneRoomChanged(t, t', row.lobby, RoomOf(t', row.lobby));
  }

  lemma DeleteMemberRefines(t: Db, m: MembershipId)
    requires Integrity(t) && m in t.members
    ensures
      var t' := t.(members := t.members - {m});
      var l := t.members[m].lobby;
      Integrity(t') && Abs(t') == Put(Abs(t), l, Unseat(RoomOf(t, l), m))
  {
    var t' := t.(members := t.members - {m});
    forall k
      ensures MembersOf(t'.members, k) == if k == t.members[m].lobby then MembersOf(t.members, k) - {m} else MembersOf(t.members, k)
    {
    }
    OneRoomChanged(t, t', t.members[m].lobby, RoomOf(t', t.members[m].lobby));
  }

  function EntryIdsOf(t: Db, ls: set<LobbyId>): set<EntryId> {
    set e | e in t.entries && t.entries[e].lobby in ls
  }

  function MembershipsOf(t: Db, ls: set<LobbyId>): set<MembershipId> {
    set m | m in t.members && t.members[m].lobby in ls
  }

  function OrderWithout(order: OrderTable, gone: set<EntryId>): OrderTable {
    map k | k in order && order[k] !in gone :: order[k]
  }

  function VotesWithout(votes: map<(EntryId, UserId), int>, gone: set<EntryId>): map<(EntryId, UserId), int> {
    map v | v in votes && v.0 !in gone :: votes[v]
  }

  /** Everything that belongs to the lobbies of `ls` goes, except their own rows; deleted entries cascade. */
  function Emptied(t: Db, ls: set<LobbyId>): Db {
    var gone := EntryIdsOf(t, ls);
    t.(members := t.members - MembershipsOf(t, ls), policies := t.policies - ls, entries := t.entries - gone,
       order := OrderWithout(t.order, gone), votes := VotesWithout(t.votes, gone))
  }

  lemma EmptiedOrder(t: Db, ls: set<LobbyId>)
    requires ForeignKeys(t)
    ensures forall k :: k in Emptied(t, ls).order <==> k in t.order && k.0 !in ls
    ensures forall k :: k in Emptied(t, ls).order ==> Emptied(t, ls).order[k] == t.order[k]
  {
    forall k | k in t.order ensures t.order[k] in EntryIdsOf(t, ls) <==> k.0 in ls {}
  }

  lemma EmptiedQueue(t: Db, ls: set<LobbyId>, k: LobbyId)
    requires Integrity(t)
    ensures QueueOf(Emptied(t, ls).order, k) == if k in ls then [] else QueueOf(t.order, k)
    ensures Dense(Emptied(t, ls).order, k, |Positions(Emptied(t, ls).order, k)|)
  {
    var order' := Emptied(t, ls).order;
    var n := |Positions(t.order, k)|;
    assert Dense(t.order, k, n);
    EmptiedOrder(t, ls);
    forall p: nat ensures (k, p) in order' <==> (k, p) in t.order && k !in ls {}
    if k in ls {
      assert Dense(order', k, 0);
      DenseCount(order', k, 0);
    } else {
      assert Dense(order', k, n);
      DenseCount(order', k, n);
      SameDense(t.order, order', k, n);
    }
  }

  lemma EmptiedParts(t: Db, ls: set<LobbyId>, k: LobbyId)
    requires ForeignKeys(t)
    ensures
      var t' := Emptied(t, ls);
      if k in ls then MembersOf(t'.members, k) == map[] && PolicyOf(t'.policies, k) == None
                      && EntriesOf(t'.entries, k) == map[] && VotesOf(t'.votes, t'.entries, k) == map[]
      else MembersOf(t'.members, k) == MembersOf(t.members, k) && PolicyOf(t'.policies, k) == PolicyOf(t.policies, k)
           && EntriesOf(t'.entries, k) == EntriesOf(t.entries, k)
  {
  }

  lemma EmptiedVotes(t: Db, ls: set<LobbyId>, k: LobbyId)
    requires ForeignKeys(t) && k !in ls
    ensures VotesOf(Emptied(t, ls).votes, Emptied(t, ls).entries, k) == VotesOf(t.votes, t.entries, k)
  {
  }

  lemma EmptiedRooms(t: Db, ls: set<LobbyId>, k: LobbyId)
    requires Integrity(t) && k in t.lobbies
    ensures
      RoomOf(Emptied(t, ls), k) ==
        if k in ls then RoomOf(t, k).(members := map[], policy := None, queue := [], entries := map[], votes := map[])
        else RoomOf(t, k)
  {
    EmptiedQueue(t, ls, k);
    EmptiedParts(t, ls, k);
    if k !in ls { EmptiedVotes(t, ls, k); }
  }

  lemma EmptiedIntegrity(t: Db, ls: set<LobbyId>)
    requires Integrity(t)
    ensures Integrity(Emptied(t, ls))
    ensures forall m :: m in Emptied(t, ls).members ==> t.members[m].lobby !in ls
    ensures forall e :: e in Emptied(t, ls).entries ==> t.entries[e].lobby !in ls
  {
    var t' := Emptied(t, ls);
    EmptiedOrder(t, ls);
    forall k ensures Dense(t'.order, k, |Positions(t'.order, k)|) {
      EmptiedQueue(t, ls, k);
    }
    forall k | k in t'.order ensures t'.order[k] in t'.entries && t'.entries[t'.order[k]].lobby == k.0 {}
  }

  function Tombstone(w: LobbyRow, now: int): LobbyRow {
    w.(closedAt := Some(now), revision := w.revision + 1)
  }

  lemma RowOnly(t: Db, l: LobbyId, w: LobbyRow, k: LobbyId)
    requires k in t.lobbies
    ensures
      var t' := t.(lobbies := t.lobbies[l := w]);
      RoomOf(t', k) == if k == l
                       then RoomOf(t, k).(code := w.code, owner := w.owner, createdAt := w.createdAt,
                                          expiresAt := w.expiresAt, closedAt := w.closedAt, revision := w.revision)
                       else RoomOf(t, k)
  {
  }

  lemma CloseRoom(t: Db, l: LobbyId, now: int, k: LobbyId)
    requires Integrity(t) && l in t.lobbies && k in t.lobbies
    ensures
      var t' := Emptied(t, {l}).(lobbies := t.lobbies[l := Tombstone(t.lobbies[l], now)]);
      RoomOf(t', k) == if k == l then Close(RoomOf(t, l), now) else RoomOf(t, k)
  {
    EmptiedRooms(t, {l}, k);
    RowOnly(Emptied(t, {l}), l, Tombstone(t.lobbies[l], now), k);
  }

  /** Closing: the row keeps a tombstone, everything else of the lobby goes. */
  lemma CloseRefines(t: Db, l: LobbyId, now: int)
    requires Integrity(t) && l in t.lobbies
    ensures
      var t' := Emptied(t, {l}).(lobbies := t.lobbies[l := Tombstone(t.lobbies[l], now)]);
      Integrity(t') && Abs(t') == Put(Abs(t), l, Close(RoomOf(t, l), now))
  {
    EmptiedIntegrity(t, {l});
    forall k | k in t.lobbies
      ensures RoomOf(Emptied(t, {l}).(lobbies := t.lobbies[l := Tombstone(t.lobbies[l], now)]), k) ==
              if k == l then Close(RoomOf(t, l), now) else RoomOf(t, k)
    {
      CloseRoom(t, l, now, k);
    }
    OneRoomChanged(t, Emptied(t, {l}).(lobbies := t.lobbies[l := Tombstone(t.lobbies[l], now)]), l, Close(RoomOf(t, l), now));
  }

  function Ended(t: Db, asOf: int): set<LobbyId> {
    set l | l in t.lobbies && t.lobbies[l].expiresAt <= asOf
  }

  function WithoutLobbies(t: Db, ls: set<LobbyId>): Db {
    Emptied(t, ls).(lobbies := t.lobbies - ls)
  }

  lemma WithoutLobbiesKeys(t: Db, ls: set<LobbyId>)
    requires Integrity(t)
    ensures Integrity(WithoutLobbies(t, ls))
  {
    EmptiedIntegrity(t, ls);
    var t1, t' := Emptied(t, ls), WithoutLobbies(t, ls);
    assert ForeignKeys(t1) && t'.members == t1.members && t'.entries == t1.entries;
    forall l | l in t'.policies ensures l in t'.lobbies { assert l in t.policies; }
  }

  lemma WithoutLobbiesRoom(t: Db, ls: set<LobbyId>, k: LobbyId)
    requires Integrity(t) && k in t.lobbies && k !in ls
    ensures RoomOf(WithoutLobbies(t, ls), k) == RoomOf(t, k)
  {
    EmptiedRooms(t, ls, k);
    assert RoomOf(WithoutLobbies(t, ls), k) == RoomOf(Emptied(t, ls), k);
  }

  /** Cleanup deletes whole lobbies. */
  lemma ExpireRefines(t: Db, asOf: int)
    requires Integrity(t)
    ensures Integrity(WithoutLobbies(t, Ended(t, asOf)))
    ensures Abs(WithoutLobbies(t, Ended(t, asOf))) == Expire(Abs(t), asOf)
  {
    var ls := Ended(t, asOf);
    WithoutLobbiesKeys(t, ls);
    forall k | k in t.lobbies && k !in ls ensures RoomOf(WithoutLobbies(t, ls), k) == RoomOf(t, k) {
      WithoutLobbiesRoom(t, ls, k);
    }
    SomeRoomsGone(t, WithoutLobbies(t, ls), asOf);
  }

  lemma SomeRoomsGone(t: Db, t': Db, asOf: int)
    requires t'.users == t.users && t'.lobbies == t.lobbies - Ended(t, asOf)
    requires forall k :: k in t'.lobbies ==> RoomOf(t', k) == RoomOf(t, k)
    ensures Abs(t') == Expire(Abs(t), asOf)
  {
  }

  function FoundRows(t: Db, c: Candidate, user: UserId, now: int): Db {
    t.(lobbies := t.lobbies[c.lobby := LobbyRow(c.code, user, now, now + LOBBY_SECONDS, None, 1)],
       members := t.members[c.membership := MemberRow(user, c.lobby, now)],
       policies := t.policies[c.lobby := Majority])
  }

  /** Nothing refers to a lobby that has no row. */
  lemma NothingBelongs(t: Db, l: LobbyId)
    requires Integrity(t) && l !in t.lobbies
    ensures MembersOf(t.members, l) == map[] && EntriesOf(t.entries, l) == map[] && VotesOf(t.votes, t.entries, l) == map[]
    ensures QueueOf(t.order, l) == []
  {
    assert forall k :: k in t.order ==> k.0 != l;
    assert Dense(t.order, l, 0);
    DenseCount(t.order, l, 0);
  }

  lemma FoundRoom(t: Db, c: Candidate, user: UserId, now: int, k: LobbyId)
    requires Integrity(t) && c.lobby !in t.lobbies && c.membership !in t.members && (k in t.lobbies || k == c.lobby)
    ensures RoomOf(FoundRows(t, c, user, now), k) == if k == c.lobby then Founded(c, user, now) else RoomOf(t, k)
  {
    var t' := FoundRows(t, c, user, now);
    NothingBelongs(t, c.lobby);
    assert MembersOf(t'.members, k) ==
           if k == c.lobby then MembersOf(t.members, k)[c.membership := Member(user, now)] else MembersOf(t.members, k);
  }

  lemma FoundKeys(t: Db, c: Candidate, user: UserId, now: int)
    requires Integrity(t) && c.lobby !in t.lobbies && c.membership !in t.members
    ensures Integrity(FoundRows(t, c, user, now))
  {
  }

  /** A new lobby row, its owner's membership and its policy. */
  lemma FoundRefines(t: Db, c: Candidate, user: UserId, now: int)
    requires Integrity(t) && c.lobby !in t.lobbies && c.membership !in t.members
    ensures Integrity(FoundRows(t, c, user, now))
    ensures Abs(FoundRows(t, c, user, now)) == Put(Abs(t), c.lobby, Founded(c, user, now))
  {
    FoundKeys(t, c, user, now);
    var t' := FoundRows(t, c, user, now);
    forall k | k in t.lobbies && k != c.lobby ensures RoomOf(t', k) == RoomOf(t, k) {
      FoundRoom(t, c, user, now, k);
    }
    FoundRoom(t, c, user, now, c.lobby);
    OneRoomChanged(t, t', c.lobby, Founded(c, user, now));
  }

  // ---------------------------------------------------------------- SELECTs

  lemma LocateRefines(t: Db, m: MembershipId)
    requires Integrity(t)
    ensures Locate(Abs(t), m) == if m in t.members then Some(t.members[m].lobby) else None
    ensures m in t.members ==>
              t.members[m].lobby in t.lobbies
              && m in RoomOf(t, t.members[m].lobby).members
              && RoomOf(t, t.members[m].lobby).members[m] == Member(t.members[m].user, t.members[m].joinedAt)
  {
    var s := Abs(t);
    assert forall l :: Seated(s, m, l) ==> m in t.members && t.members[m].lobby == l;
    if m in t.members { assert Seated(s, m, t.members[m].lobby); }
  }

  lemma SeatRefines(t: Db, user: UserId, m: MembershipId)
    requires Integrity(t) && UniqueUsers(Abs(t))
    ensures m in t.members && t.members[m].user == user ==> SeatOf(Abs(t), user) == Some(Seat(t.members[m].lobby, m))
  {
    if m in t.members && t.members[m].user == user {
      assert Holds(Abs(t), user, Seat(t.members[m].lobby, m));
    }
  }

  lemma NoSeatRefines(t: Db, user: UserId)
    requires Integrity(t) && forall m :: m in t.members ==> t.members[m].user != user
    ensures SeatOf(Abs(t), user) == None
  {
    assert forall at :: !Holds(Abs(t), user, at);
  }

  lemma TakenRefines(t: Db)
    requires Integrity(t)
    ensures forall m :: m in t.members <==> exists l :: Seated(Abs(t), m, l)
    ensures forall e :: e in t.entries <==> EntryTaken(Abs(t), e)
    ensures forall c :: CodeTaken(Abs(t), c) <==> exists l :: l in t.lobbies && t.lobbies[l].code == c
  {
    var s := Abs(t);
    forall m | m in t.members ensures exists l :: Seated(s, m, l) { assert Seated(s, m, t.members[m].lobby); }
    forall e | e in t.entries ensures EntryTaken(s, e) {
      assert t.entries[e].lobby in s.rooms && e in s.rooms[t.entries[e].lobby].entries;
    }
    forall c | exists l :: l in t.lobbies && t.lobbies[l].code == c ensures CodeTaken(s, c) {
      var l :| l in t.lobbies && t.lobbies[l].code == c;
      assert l in s.rooms && s.rooms[l].code == c;
    }
  }

  // ---------------------------------------------------------------- counts

  /** Guest memberships of a lobby, as both snapshot and reevaluate count them. */
  function GuestRows(t: Db, l: LobbyId, owner: UserId): set<MembershipId> {
    set m | m in t.members && t.members[m].lobby == l && t.members[m].user != owner
  }

  function VoterRows(t: Db, l: LobbyId, owner: UserId, e: EntryId): set<MembershipId> {
    set m | m in t.members && t.members[m].lobby == l && t.members[m].user != owner && (e, t.members[m].user) in t.votes
  }

  function QualifyingRows(t: Db, l: LobbyId, owner: UserId, threshold: int): set<EntryId> {
    set k | k in t.order && k.0 == l && |VoterRows(t, l, owner, t.order[k])| >= threshold :: t.order[k]
  }

  lemma GuestRowsRefine(t: Db, l: LobbyId)
    requires l in t.lobbies
    ensures GuestRows(t, l, t.lobbies[l].owner) == Guests(RoomOf(t, l))
  {
  }

  lemma VoterRowsRefine(t: Db, l: LobbyId, e: EntryId)
    requires l in t.lobbies && e in t.entries && t.entries[e].lobby == l
    ensures VoterRows(t, l, t.lobbies[l].owner, e) == Voters(RoomOf(t, l), e)
  {
    var votes := VotesOf(t.votes, t.entries, l);
    assert forall u :: (e, u) in votes <==> (e, u) in t.votes;
    GuestRowsRefine(t, l);
  }

  /** The entries of a lobby's queue belong to it, and are those its order rows name. */
  lemma QueueRows(t: Db, l: LobbyId)
    requires Integrity(t)
    ensures RowsOf(t.entries, l, QueueOf(t.order, l))
    ensures forall e :: e in QueueOf(t.order, l) <==> exists k :: k in t.order && k.0 == l && t.order[k] == e
  {
    var n := |Positions(t.order, l)|;
    var q := QueueOf(t.order, l);
    assert Dense(t.order, l, n);
    DenseCount(t.order, l, n);
    forall e | e in q ensures exists k :: k in t.order && k.0 == l && t.order[k] == e {
      var i :| 0 <= i < n && q[i] == e;
      assert (l, i) in t.order && t.order[(l, i)] == e;
    }
    forall e | exists k :: k in t.order && k.0 == l && t.order[k] == e ensures e in q {
      var k :| k in t.order && k.0 == l && t.order[k] == e;
      assert k == (l, k.1);
      assert q[k.1] == e;
    }
  }

  /** The qualifying rows of a lobby with guests are the entries its moderation removes. */
  lemma QualifyingRefines(t: Db, l: LobbyId)
    requires Integrity(t) && l in t.lobbies && l in t.policies && Guests(RoomOf(t, l)) != {}
    ensures QualifyingRows(t, l, t.lobbies[l].owner, Threshold(RoomOf(t, l))) == Qualifying(RoomOf(t, l))
  {
    var r, owner := RoomOf(t, l), t.lobbies[l].owner;
    QueueRows(t, l);
    forall e | e in r.queue
      ensures |VoterRows(t, l, owner, e)| >= Threshold(r) <==> Qualifies(r, e)
    {
      VoterRowsRefine(t, l, e);
    }
    forall e ensures e in QualifyingRows(t, l, owner, Threshold(r)) <==> e in Qualifying(r) {
      if e in Qualifying(r) {
        var k :| k in t.order && k.0 == l && t.order[k] == e;
      }
    }
  }

  function RowView(t: Db, l: LobbyId, owner: UserId, e: EntryId, user: UserId): EntryView
    requires e in t.entries
  {
    EntryView(e, EntryOf(t.entries[e]), |VoterRows(t, l, owner, e)|, user != owner && (e, user) in t.votes)
  }

  lemma RowViewRefines(t: Db, l: LobbyId, e: EntryId, user: UserId)
    requires l in t.lobbies && e in t.entries && t.entries[e].lobby == l
    ensures e in RoomOf(t, l).entries
    ensures RowView(t, l, t.lobbies[l].owner, e, user) == ViewEntry(RoomOf(t, l), e, user)
  {
    VoterRowsRefine(t, l, e);
    assert (e, user) in VotesOf(t.votes, t.entries, l) <==> (e, user) in t.votes;
  }

  lemma RowViewsRefine(t: Db, l: LobbyId, user: UserId, views: seq<EntryView>)
    requires Integrity(t) && l in t.lobbies && |views| == |QueueOf(t.order, l)|
    requires forall i :: 0 <= i < |views| ==>
      QueueOf(t.order, l)[i] in t.entries && views[i] == RowView(t, l, t.lobbies[l].owner, QueueOf(t.order, l)[i], user)
    ensures forall e :: e in RoomOf(t, l).queue ==> e in RoomOf(t, l).entries
    ensures views == ViewEntries(RoomOf(t, l), user)
  {
    QueueRows(t, l);
    var r := RoomOf(t, l);
    forall i | 0 <= i < |views| ensures r.queue[i] in r.entries && views[i] == ViewEntry(r, r.queue[i], user) {
      RowViewRefines(t, l, r.queue[i], user);
    }
  }

  /** reevaluate: without guests nothing; otherwise the order is rewritten when some entry qualifies. */
  ghost function Reevaluated(t: Db, l: LobbyId): Db
    requires l in t.lobbies && l in t.policies
  {
    var r := RoomOf(t, l);
    if Guests(r) == {} || Qualifying(r) == {} then t
    else t.(order := WithOrder(t.order, l, Without(r.queue, Qualifying(r))))
  }

  lemma ReevaluatedRefines(t: Db, l: LobbyId)
    requires Integrity(t) && l in t.lobbies && l in t.policies
    ensures Integrity(Reevaluated(t, l))
    ensures Abs(Reevaluated(t, l)) == Put(Abs(t), l, Reevaluate(RoomOf(t, l)))
  {
    var r := RoomOf(t, l);
    if Guests(r) == {} || Qualifying(r) == {} {
      assert forall e :: e in r.queue && Qualifies(r, e) ==> e in Qualifying(r);
      StableIsFixed(r);
      OneRoomChanged(t, t, l, r);
    } else {
      QueueRows(t, l);
      WithoutMembers(r.queue, Qualifying(r));
      ReplaceOrderRefines(t, l, Without(r.queue, Qualifying(r)));
    }
  }

  // ---------------------------------------------------------------- loops

  lemma WithOrderStep(order: OrderTable, l: LobbyId, ids: seq<EntryId>, i: nat)
    requires i < |ids|
    ensures WithOrder(order, l, ids[..i])[(l, i) := ids[i]] == WithOrder(order, l, ids[..i + 1])
  {
    var a, b := WithOrder(order, l, ids[..i])[(l, i) := ids[i]], WithOrder(order, l, ids[..i + 1]);
    forall k: (LobbyId, nat) ensures (k in a <==> k in b) && (k in a ==> a[k] == b[k]) {
      WithOrderAt(order, l, ids[..i], k);
      WithOrderAt(order, l, ids[..i + 1], k);
    }
    assert a.Keys == b.Keys;
  }

  // ---------------------------------------------------------------- whole transactions

  lemma UpdateRevisionRefines(t: Db, l: LobbyId)
    requires Integrity(t) && l in t.lobbies
    ensures
      var t' := t.(lobbies := t.lobbies[l := t.lobbies[l].(revision := t.lobbies[l].revision + 1)]);
      Integrity(t') && Abs(t') == Put(Abs(t), l, Bump(RoomOf(t, l)))
  {
    var row := t.lobbies[l].(revision := t.lobbies[l].revision + 1);
    UpdateLobbyRefines(t, l, row);
    BumpRow(RoomOf(t, l), t.lobbies[l], row);
  }

  lemma BumpRow(r: Room, row: LobbyRow, next: LobbyRow)
    requires next == row.(revision := row.revision + 1) && r.revision == row.revision
    requires r == r.(code := row.code, owner := row.owner,
                         createdAt := row.createdAt, expiresAt := row.expiresAt, closedAt := row.closedAt)
    ensures Bump(r) == r.(code := next.code, owner := next.owner, createdAt := next.createdAt,
                          expiresAt := next.expiresAt, closedAt := next.closedAt, revision := next.revision)
  {
  }

  lemma PutTwice(s: Store, l: LobbyId, a: Room, b: Room)
    ensures Put(Put(s, l, a), l, b) == Put(s, l, b)
  {
  }

  lemma RoomOfPut(t: Db, s: Store, l: LobbyId, r: Room)
    requires l in t.lobbies && Abs(t) == Put(s, l, r)
    ensures RoomOf(t, l) == r
  {
    assert Abs(t).rooms[l] == r;
  }
}
