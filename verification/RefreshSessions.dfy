/**
 Refresh sessions and their one-time tokens, in the style of section 4.14.2 of
 RFC 9700: what each transaction answers and leaves, and what whole runs keep.
 Tokens are known by their hashes, which are opaque here.
 */
module Refresh {
  import opened Prelude

  type SessionId = int
  type Hash = int

  const SESSION_SECONDS := 2592000
  const MAX_SECONDS := 0x7fff_ffff_ffff_ffff

  datatype RefreshSession = RefreshSession(user: int, createdAt: int, expiresAt: int, revoked: bool)
  datatype Token = Token(session: SessionId, consumed: bool)
  datatype Db = Db(users: set<int>, sessions: map<SessionId, RefreshSession>, tokens: map<Hash, Token>)

  datatype RefreshError = InvalidCredential | Internal
  datatype Grant = Grant(user: int, expiresAt: int, token: Hash)
  datatype Tx<T> = Tx(db: Db, reply: Result<T, RefreshError>)

  // ---------------------------------------------------------------- transactions

  /** create_refresh_session; the keys, the foreign key and the CHECK reject what they must. */
  function Create(db: Db, id: SessionId, user: int, createdAt: int, expiresAt: int, hash: Hash, storage: bool): Tx<()> {
    if !storage || id in db.sessions || user !in db.users || expiresAt != createdAt + SESSION_SECONDS || hash in db.tokens
    then Tx(db, Err(Internal))
    else Tx(db.(sessions := db.sessions[id := RefreshSession(user, createdAt, expiresAt, false)],
                tokens := db.tokens[hash := Token(id, false)]), Ok(()))
  }

  /** issue: the deadline is an addition that may not overflow. */
  function Issue(db: Db, id: SessionId, user: int, now: int, credential: Option<Hash>, storage: bool): Tx<Grant> {
    if now + SESSION_SECONDS > MAX_SECONDS || credential.None? then Tx(db, Err(Internal))
    else
      var tx := Create(db, id, user, now, now + SESSION_SECONDS, credential.value, storage);
      Tx(tx.db, if tx.reply.Ok? then Ok(Grant(user, now + SESSION_SECONDS, credential.value)) else Err(Internal))
  }

  /**
   rotate_refresh_session; `issued` is the replacement the callback makes, None when it fails.  Without `storage` some
   statement fails, the first read or a later one, or the commit.
   */
  function Rotate(db: Db, hash: Hash, now: int, issued: Option<Hash>, storage: bool): Tx<Grant> {
    if !storage then Tx(db, Err(Internal))
    else if hash !in db.tokens || db.tokens[hash].session !in db.sessions then Tx(db, Err(InvalidCredential))
    else
      var id := db.tokens[hash].session;
      var session := db.sessions[id];
      if session.revoked || session.expiresAt <= now then Tx(db, Err(InvalidCredential))
      else if db.tokens[hash].consumed then
        Tx(db.(sessions := db.sessions[id := session.(revoked := true)]), Err(InvalidCredential))
      else if issued.None? || issued.value in db.tokens then Tx(db, Err(Internal))
      else Tx(db.(tokens := db.tokens[hash := Token(id, true)][issued.value := Token(id, false)]),
              Ok(Grant(session.user, session.expiresAt, issued.value)))
  }

  /** A rotation goes on to write only for a known token of a live session. */
  predicate Writes(db: Db, hash: Hash, now: int) {
    && hash in db.tokens && db.tokens[hash].session in db.sessions
    && !db.sessions[db.tokens[hash].session].revoked && now < db.sessions[db.tokens[hash].session].expiresAt
  }

  function Revoke(db: Db, hash: Hash, storage: bool): Tx<()> {
    if !storage then Tx(db, Err(Internal))
    else if hash !in db.tokens || db.tokens[hash].session !in db.sessions then Tx(db, Ok(()))
    else
      var id := db.tokens[hash].session;
      Tx(db.(sessions := db.sessions[id := db.sessions[id].(revoked := true)]), Ok(()))
  }

  predicate Ended(db: Db, id: SessionId, now: int) {
    id in db.sessions && db.sessions[id].expiresAt <= now
  }

  function Sweep(db: Db, now: int, storage: bool): Tx<()> {
    if !storage then Tx(db, Err(Internal))
    else Tx(db.(tokens := map h | h in db.tokens && !Ended(db, db.tokens[h].session, now) :: db.tokens[h],
                sessions := map id | id in db.sessions && !Ended(db, id, now) :: db.sessions[id]), Ok(()))
  }

  // ---------------------------------------------------------------- the invariant

  predicate Unused(db: Db, id: SessionId, h: Hash) {
    h in db.tokens && db.tokens[h] == Token(id, false)
  }

  /** Exactly one token of the session has not been consumed. */
  ghost predicate OneUnused(db: Db, id: SessionId) {
    && (exists h :: Unused(db, id, h))
    && (forall g, h :: Unused(db, id, g) && Unused(db, id, h) ==> g == h)
  }

  ghost predicate DbInv(db: Db) {
    && (forall h :: h in db.tokens ==> db.tokens[h].session in db.sessions)
    && (forall id :: id in db.sessions ==> OneUnused(db, id) && db.sessions[id].expiresAt == db.sessions[id].createdAt + SESSION_SECONDS)
  }

  datatype Call =
    | Issuing(id: SessionId, user: int, now: int, credential: Option<Hash>, storage: bool)
    | Rotating(hash: Hash, now: int, issued: Option<Hash>, storage: bool)
    | Revoking(hash: Hash, storage: bool)
    | Sweeping(now: int, storage: bool)
    | Registering(user: int)

  function Apply(db: Db, c: Call): Db {
    match c
    case Issuing(id, user, now, credential, ok) => Issue(db, id, user, now, credential, ok).db
    case Rotating(hash, now, issued, ok) => Rotate(db, hash, now, issued, ok).db
    case Revoking(hash, ok) => Revoke(db, hash, ok).db
    case Sweeping(now, ok) => Sweep(db, now, ok).db
    case Registering(user) => db.(users := db.users + {user})
  }

  lemma IssueKeeps(db: Db, id: SessionId, user: int, now: int, credential: Option<Hash>, storage: bool)
    requires DbInv(db)
    ensures DbInv(Issue(db, id, user, now, credential, storage).db)
  {
    var tx := Issue(db, id, user, now, credential, storage);
    if tx.reply.Ok? {
      assert Unused(tx.db, id, credential.value);
      forall k | k in tx.db.sessions ensures OneUnused(tx.db, k) {
        if k != id {
          var h :| Unused(db, k, h);
          assert Unused(tx.db, k, h);
        }
        assert forall g :: Unused(tx.db, k, g) ==> (if k == id then g == credential.value else Unused(db, k, g));
      }
    }
  }

  /** A rotation consumes exactly the presented token and gives its session exactly one replacement. */
  lemma RotateKeeps(db: Db, hash: Hash, now: int, issued: Option<Hash>, storage: bool)
    requires DbInv(db)
    ensures DbInv(Rotate(db, hash, now, issued, storage).db)
  {
    var tx := Rotate(db, hash, now, issued, storage);
    if tx.reply.Ok? {
      var id := db.tokens[hash].session;
      assert Unused(db, id, hash) && Unused(tx.db, id, issued.value);
      forall k | k in tx.db.sessions ensures OneUnused(tx.db, k) {
        if k != id {
          var h :| Unused(db, k, h);
          assert Unused(tx.db, k, h);
        }
        assert forall g :: Unused(tx.db, k, g) ==> (if k == id then g == issued.value || (Unused(db, k, g) && g != hash) else Unused(db, k, g));
      }
    } else {
      SessionsOnly(db, tx.db);
    }
  }

  lemma SessionsOnly(db: Db, db': Db)
    requires DbInv(db) && db'.tokens == db.tokens && db'.sessions.Keys == db.sessions.Keys
    requires forall id :: id in db.sessions ==>
               db'.sessions[id].createdAt == db.sessions[id].createdAt && db'.sessions[id].expiresAt == db.sessions[id].expiresAt
    ensures DbInv(db')
  {
    forall id | id in db'.sessions ensures OneUnused(db', id) {
      assert OneUnused(db, id);
      var h :| Unused(db, id, h);
      assert Unused(db', id, h);
      assert forall g :: Unused(db', id, g) ==> Unused(db, id, g);
    }
  }

  lemma SweepKeeps(db: Db, now: int, storage: bool)
    requires DbInv(db)
    ensures DbInv(Sweep(db, now, storage).db)
  {
    var db' := Sweep(db, now, storage).db;
    forall id | id in db'.sessions ensures OneUnused(db', id) {
      assert OneUnused(db, id);
      var h :| Unused(db, id, h);
      assert Unused(db', id, h);
      assert forall g :: Unused(db', id, g) ==> Unused(db, id, g);
    }
  }

  lemma ApplyKeeps(db: Db, c: Call)
    requires DbInv(db)
    ensures DbInv(Apply(db, c))
  {
    match c
    case Issuing(id, user, now, credential, ok) => IssueKeeps(db, id, user, now, credential, ok);
    case Rotating(hash, now, issued, ok) => RotateKeeps(db, hash, now, issued, ok);
    case Revoking(hash, ok) => SessionsOnly(db, Revoke(db, hash, ok).db);
    case Sweeping(now, ok) => SweepKeeps(db, now, ok);
    case Registering(user) => SessionsOnly(db, db.(users := db.users + {user}));
  }

  // ---------------------------------------------------------------- what one call says

  /** Which calls rotate: the token is known, unused, its session neither revoked nor ended, and nothing fails. */
  lemma RotatesExactlyWhen(db: Db, hash: Hash, now: int, issued: Option<Hash>, storage: bool)
    requires DbInv(db)
    ensures Rotate(db, hash, now, issued, storage).reply.Ok? <==>
      && hash in db.tokens && !db.tokens[hash].consumed
      && !db.sessions[db.tokens[hash].session].revoked && now < db.sessions[db.tokens[hash].session].expiresAt
      && issued.Some? && issued.value !in db.tokens && storage
  {
  }

  /**
   A successful rotation grants access to the account of the presented token's session until that session's deadline,
   under the replacement; it consumes the presented token, adds the replacement to the same session, and that is all.
   */
  lemma RotationGrantsItsAccount(db: Db, hash: Hash, now: int, issued: Option<Hash>, storage: bool)
    requires DbInv(db) && Rotate(db, hash, now, issued, storage).reply.Ok?
    ensures hash in db.tokens && issued.Some?
    ensures
      var tx, id := Rotate(db, hash, now, issued, storage), db.tokens[hash].session;
      && tx.reply.value == Grant(db.sessions[id].user, db.sessions[id].expiresAt, issued.value)
      && tx.db.users == db.users && tx.db.sessions == db.sessions
      && tx.db.tokens.Keys == db.tokens.Keys + {issued.value} && issued.value !in db.tokens
      && tx.db.tokens[hash] == Token(id, true) && tx.db.tokens[issued.value] == Token(id, false)
      && (forall h :: h in db.tokens && h != hash ==> tx.db.tokens[h] == db.tokens[h])
  {
  }

  /** Why a rotation is refused, and what a refusal changes: a reused token revokes its session, nothing else is touched. */
  lemma RotationRefusals(db: Db, hash: Hash, now: int, issued: Option<Hash>)
    requires DbInv(db)
    ensures
      var tx := Rotate(db, hash, now, issued, true);
      if hash !in db.tokens then tx == Tx(db, Err(InvalidCredential))
      else
        var id := db.tokens[hash].session;
        var session := db.sessions[id];
        if session.revoked || session.expiresAt <= now then tx == Tx(db, Err(InvalidCredential))
        else if db.tokens[hash].consumed then
          && tx.reply == Err(InvalidCredential) && tx.db.users == db.users && tx.db.tokens == db.tokens
          && tx.db.sessions == db.sessions[id := RefreshSession(session.user, session.createdAt, session.expiresAt, true)]
        else if issued.None? || issued.value in db.tokens then tx == Tx(db, Err(Internal))
        else tx.reply.Ok?
  {
  }

  /** Issuing makes one session of the account, thirty days long, with its one unconsumed token; a failure makes nothing. */
  lemma IssuingIsExact(db: Db, id: SessionId, user: int, now: int, credential: Option<Hash>, storage: bool)
    ensures
      var tx := Issue(db, id, user, now, credential, storage);
      if tx.reply.Ok? then
        && credential.Some? && user in db.users && id !in db.sessions && credential.value !in db.tokens
        && tx.reply.value == Grant(user, now + 2592000, credential.value)
        && tx.db == Db(db.users, db.sessions[id := RefreshSession(user, now, now + 2592000, false)],
                       db.tokens[credential.value := Token(id, false)])
      else tx == Tx(db, Err(Internal))
    ensures Issue(db, id, user, now, credential, storage).reply.Ok? <==>
            && storage && credential.Some? && user in db.users && id !in db.sessions && credential.value !in db.tokens
            && now + 2592000 <= 0x7fff_ffff_ffff_ffff
  {
  }

  /** Cleanup removes exactly the sessions whose thirty days are over, with their tokens, and keeps all others as they are. */
  lemma EndedSessionsGo(db: Db, now: int)
    requires DbInv(db)
    ensures Sweep(db, now, false) == Tx(db, Err(Internal)) && Sweep(db, now, true).reply == Ok(())
    ensures
      var db' := Sweep(db, now, true).db;
      && db'.users == db.users
      && (forall id :: id in db'.sessions <==> id in db.sessions && now < db.sessions[id].createdAt + 2592000)
      && (forall id :: id in db'.sessions ==> db'.sessions[id] == db.sessions[id])
      && (forall h :: h in db'.tokens <==> h in db.tokens && now < db.sessions[db.tokens[h].session].createdAt + 2592000)
      && (forall h :: h in db'.tokens ==> db'.tokens[h] == db.tokens[h])
  {
    assert forall id :: id in db.sessions ==> db.sessions[id].expiresAt == db.sessions[id].createdAt + SESSION_SECONDS;
  }

  /** Revoking by any known token of a session, used or not, revokes that session and nothing else; an unknown one is no error. */
  lemma RevokingIsExact(db: Db, hash: Hash)
    requires DbInv(db)
    ensures
      var tx := Revoke(db, hash, true);
      && tx.reply == Ok(()) && tx.db.users == db.users && tx.db.tokens == db.tokens && tx.db.sessions.Keys == db.sessions.Keys
      && (forall id :: id in db.sessions ==>
            tx.db.sessions[id] == if hash in db.tokens && db.tokens[hash].session == id then db.sessions[id].(revoked := true)
                                  else db.sessions[id])
    ensures Revoke(db, hash, false) == Tx(db, Err(Internal))
  {
  }

  /** A live session can be rotated by one token and no other, whatever history of it is kept. */
  lemma LiveSessionHasOneKey(db: Db, id: SessionId, now: int, issued: Hash)
    returns (key: Hash)
    requires DbInv(db) && id in db.sessions && !db.sessions[id].revoked && now < db.sessions[id].expiresAt
    requires issued !in db.tokens
    ensures key in db.tokens && db.tokens[key].session == id
    ensures forall h :: h in db.tokens && db.tokens[h].session == id ==>
              (Rotate(db, h, now, Some(issued), true).reply.Ok? <==> h == key)
    ensures forall h :: h in db.tokens && db.tokens[h].session == id && h != key ==>
              Rotate(db, h, now, Some(issued), true).db.sessions[id].revoked
  {
    assert OneUnused(db, id);
    var k :| Unused(db, id, k);
    key := k;
    forall h | h in db.tokens && db.tokens[h].session == id
      ensures Rotate(db, h, now, Some(issued), true).reply.Ok? <==> h == key
    {
      RotatesExactlyWhen(db, h, now, Some(issued), true);
      assert !db.tokens[h].consumed ==> Unused(db, id, h);
    }
    forall h | h in db.tokens && db.tokens[h].session == id && h != key ensures db.tokens[h].consumed {
      assert !db.tokens[h].consumed ==> Unused(db, id, h);
    }
  }

  /** A call that fails internally leaves the store as it was; a rejected one revokes at most the presented session. */
  lemma FailureRestores(db: Db, hash: Hash, now: int, issued: Option<Hash>, storage: bool)
    requires DbInv(db)
    ensures
      var tx := Rotate(db, hash, now, issued, storage);
      && (tx.reply == Err(Internal) ==> tx.db == db)
      && tx.db.tokens.Keys >= db.tokens.Keys && tx.db.sessions.Keys == db.sessions.Keys
      && (forall id :: id in db.sessions && tx.db.sessions[id] != db.sessions[id] ==>
            tx.db.sessions[id] == db.sessions[id].(revoked := true) && hash in db.tokens && db.tokens[hash] == Token(id, true))
      && (tx.reply.Ok? ==> tx.db.sessions == db.sessions && tx.reply.value.expiresAt == db.sessions[db.tokens[hash].session].expiresAt)
  {
  }

  /** Whether a call reports success. */
  predicate Succeeds(db: Db, c: Call) {
    match c
    case Issuing(id, user, now, credential, ok) => Issue(db, id, user, now, credential, ok).reply.Ok?
    case Rotating(hash, now, issued, ok) => Rotate(db, hash, now, issued, ok).reply.Ok?
    case Revoking(hash, ok) => Revoke(db, hash, ok).reply.Ok?
    case Sweeping(now, ok) => Sweep(db, now, ok).reply.Ok?
    case Registering(_) => true
  }

  /** The only call that changes anything without succeeding is the reuse of a consumed token in a live session. */
  lemma FailedCallsRestore(db: Db, c: Call)
    requires DbInv(db) && !Succeeds(db, c)
    ensures Apply(db, c) != db ==>
      && c.Rotating? && c.storage && c.hash in db.tokens && db.tokens[c.hash].consumed
      && var id := db.tokens[c.hash].session;
         !db.sessions[id].revoked && c.now < db.sessions[id].expiresAt
         && Apply(db, c) == db.(sessions := db.sessions[id := db.sessions[id].(revoked := true)])
  {
  }

  // ---------------------------------------------------------------- whole runs

  predicate Steps(db: Db, c: Call, db': Db) {
    db' == Apply(db, c)
  }

  ghost predicate Run(dbs: seq<Db>, calls: seq<Call>) {
    && |dbs| == |calls| + 1 && DbInv(dbs[0])
    && (forall i :: 0 <= i < |calls| ==> Steps(dbs[i], calls[i], dbs[i + 1]))
  }

  lemma {:induction false} RunInv(dbs: seq<Db>, calls: seq<Call>, n: nat)
    requires Run(dbs, calls) && n <= |calls|
    ensures DbInv(dbs[n])
  {
    if n > 0 {
      RunInv(dbs, calls, n - 1);
      assert Steps(dbs[n - 1], calls[n - 1], dbs[n]);
      ApplyKeeps(dbs[n - 1], calls[n - 1]);
    }
  }

  /** What no call undoes: a token keeps its session and stays consumed; a session keeps its deadline and stays revoked. */
  ghost predicate Persists(db: Db, db': Db) {
    && (forall h :: h in db.tokens && h in db'.tokens ==>
          db'.tokens[h].session == db.tokens[h].session && (db.tokens[h].consumed ==> db'.tokens[h].consumed))
    && (forall id :: id in db.sessions && id in db'.sessions ==>
          && db'.sessions[id].user == db.sessions[id].user && db'.sessions[id].expiresAt == db.sessions[id].expiresAt
          && (db.sessions[id].revoked ==> db'.sessions[id].revoked))
  }

  lemma ApplyPersists(db: Db, c: Call)
    ensures Persists(db, Apply(db, c))
  {
  }

  ghost predicate KeptToken(dbs: seq<Db>, i: nat, j: nat, h: Hash) {
    j < |dbs| && forall k :: i <= k <= j ==> h in dbs[k].tokens
  }

  ghost predicate KeptSession(dbs: seq<Db>, i: nat, j: nat, id: SessionId) {
    j < |dbs| && forall k :: i <= k <= j ==> id in dbs[k].sessions
  }

  lemma {:induction false} TokenPersists(dbs: seq<Db>, calls: seq<Call>, i: nat, j: nat, h: Hash)
    requires Run(dbs, calls) && i <= j && KeptToken(dbs, i, j, h)
    ensures dbs[j].tokens[h].session == dbs[i].tokens[h].session
    ensures dbs[i].tokens[h].consumed ==> dbs[j].tokens[h].consumed
    decreases j
  {
    if i < j {
      TokenPersists(dbs, calls, i, j - 1, h);
      assert Steps(dbs[j - 1], calls[j - 1], dbs[j]);
      ApplyPersists(dbs[j - 1], calls[j - 1]);
    }
  }

  lemma {:induction false} SessionPersists(dbs: seq<Db>, calls: seq<Call>, i: nat, j: nat, id: SessionId)
    requires Run(dbs, calls) && i <= j && KeptSession(dbs, i, j, id)
    ensures dbs[j].sessions[id].expiresAt == dbs[i].sessions[id].expiresAt
    ensures dbs[i].sessions[id].revoked ==> dbs[j].sessions[id].revoked
    decreases j
  {
    if i < j {
      SessionPersists(dbs, calls, i, j - 1, id);
      assert Steps(dbs[j - 1], calls[j - 1], dbs[j]);
      ApplyPersists(dbs[j - 1], calls[j - 1]);
    }
  }

  lemma {:induction false} SessionKeepsItsAccount(dbs: seq<Db>, calls: seq<Call>, i: nat, j: nat, id: SessionId)
    requires Run(dbs, calls) && i <= j && KeptSession(dbs, i, j, id)
    ensures dbs[j].sessions[id].user == dbs[i].sessions[id].user
    ensures dbs[j].sessions[id].expiresAt == dbs[i].sessions[id].expiresAt
    decreases j
  {
    if i < j {
      SessionKeepsItsAccount(dbs, calls, i, j - 1, id);
      assert Steps(dbs[j - 1], calls[j - 1], dbs[j]);
      ApplyPersists(dbs[j - 1], calls[j - 1]);
    }
  }

  /** Over any run every grant of a session names the account the session was issued to, and ends when it was to end. */
  lemma GrantsNameTheIssuedAccount(dbs: seq<Db>, calls: seq<Call>, i: nat, k: nat, j: nat, issuing: Call, rotating: Call)
    requires Run(dbs, calls) && i < |calls| && k == i + 1 && issuing == calls[i] && issuing.Issuing?
    requires Issue(dbs[i], issuing.id, issuing.user, issuing.now, issuing.credential, issuing.storage).reply.Ok?
    requires k <= j && KeptSession(dbs, k, j, issuing.id) && rotating.Rotating?
    requires Rotate(dbs[j], rotating.hash, rotating.now, rotating.issued, rotating.storage).reply.Ok?
    requires rotating.hash in dbs[j].tokens && dbs[j].tokens[rotating.hash].session == issuing.id
    ensures
      var grant := Rotate(dbs[j], rotating.hash, rotating.now, rotating.issued, rotating.storage).reply.value;
      grant.user == issuing.user && grant.expiresAt == issuing.now + 2592000 && Some(grant.token) == rotating.issued
  {
    RunInv(dbs, calls, j);
    assert Steps(dbs[i], calls[i], dbs[k]);
    IssuingIsExact(dbs[i], issuing.id, issuing.user, issuing.now, issuing.credential, issuing.storage);
    SessionKeepsItsAccount(dbs, calls, k, j, issuing.id);
    RotationGrantsItsAccount(dbs[j], rotating.hash, rotating.now, rotating.issued, rotating.storage);
  }

  /** A token that is kept rotates at most once: after a success, presenting it again never succeeds. */
  lemma RotatesAtMostOnce(dbs: seq<Db>, calls: seq<Call>, i: nat, k: nat, j: nat, h: Hash, first: Call, again: Call)
    requires Run(dbs, calls) && k == i + 1 && k <= j && KeptToken(dbs, i, j, h) && i < |calls|
    requires first == calls[i] && first.Rotating? && first.hash == h && again.Rotating? && again.hash == h
    requires Rotate(dbs[i], h, first.now, first.issued, first.storage).reply.Ok?
    ensures !Rotate(dbs[j], h, again.now, again.issued, again.storage).reply.Ok?
    ensures dbs[j].tokens[h].consumed
  {
    assert Steps(dbs[i], calls[i], dbs[k]);
    assert KeptToken(dbs, k, j, h);
    TokenPersists(dbs, calls, k, j, h);
  }

  /**
   Presenting a consumed token of a live session revokes that session and no other; from then on, as long as the
   session is kept, no token of it ever rotates.
   */
  lemma ReuseRevokesForever(dbs: seq<Db>, calls: seq<Call>, i: nat, k: nat, j: nat, h: Hash, reuse: Call, g: Hash,
                            later: Call)
    requires Run(dbs, calls) && k == i + 1 && k <= j && i < |calls| && reuse == calls[i]
    requires reuse.Rotating? && reuse.hash == h && reuse.storage
    requires h in dbs[i].tokens && dbs[i].tokens[h].consumed
    requires KeptSession(dbs, i, j, dbs[i].tokens[h].session) && dbs[i].tokens[h].session in dbs[i].sessions
    requires !dbs[i].sessions[dbs[i].tokens[h].session].revoked && reuse.now < dbs[i].sessions[dbs[i].tokens[h].session].expiresAt
    requires later.Rotating? && later.hash == g && g in dbs[j].tokens && dbs[j].tokens[g].session == dbs[i].tokens[h].session
    ensures Rotate(dbs[i], h, reuse.now, reuse.issued, reuse.storage).reply == Err(InvalidCredential)
    ensures forall id :: id in dbs[i].sessions && id != dbs[i].tokens[h].session ==> id in dbs[k].sessions && dbs[k].sessions[id] == dbs[i].sessions[id]
    ensures dbs[k].tokens == dbs[i].tokens && dbs[j].sessions[dbs[i].tokens[h].session].revoked
    ensures Rotate(dbs[j], g, later.now, later.issued, later.storage) ==
            Tx(dbs[j], Err(if later.storage then InvalidCredential else Internal))
  {
    RunInv(dbs, calls, i);
    var id := dbs[i].tokens[h].session;
    assert Steps(dbs[i], calls[i], dbs[k]);
    assert KeptSession(dbs, k, j, id);
    SessionPersists(dbs, calls, k, j, id);
  }

  /** Token history is kept exactly until the session's deadline. */
  lemma SweepIsExact(db: Db, now: int)
    requires DbInv(db)
    ensures var db' := Sweep(db, now, true).db;
      && (forall id :: id in db'.sessions <==> id in db.sessions && now < db.sessions[id].expiresAt)
      && (forall h :: h in db'.tokens <==> h in db.tokens && now < db.sessions[db.tokens[h].session].expiresAt)
      && Persists(db, db')
  {
  }

  lemma SweepsTheSame(db: Db, left: Db, right: Db, now: int)
    requires DbInv(db) && left.users == right.users && left.sessions.Keys == db.sessions.Keys
    requires forall id :: id in db.sessions ==> left.sessions[id].expiresAt == db.sessions[id].expiresAt
    requires forall h :: h in left.tokens ==> left.tokens[h].session in db.sessions
    requires forall id :: id in right.sessions <==> id in db.sessions && !Ended(db, id, now)
    requires forall id :: id in right.sessions ==> right.sessions[id] == left.sessions[id]
    requires forall h :: h in right.tokens <==> h in left.tokens && !Ended(db, left.tokens[h].session, now)
    requires forall h :: h in right.tokens ==> right.tokens[h] == left.tokens[h]
    ensures right == Sweep(left, now, true).db
  {
    assert forall id :: id in db.sessions ==> id in left.sessions && Ended(left, id, now) == Ended(db, id, now);
    var swept := Sweep(left, now, true).db;
    assert forall h :: h in right.tokens <==> h in swept.tokens;
    assert forall h :: h in right.tokens ==> right.tokens[h] == left.tokens[h] == swept.tokens[h];
    assert right.tokens == swept.tokens;
    assert forall id :: id in left.sessions <==> id in db.sessions;
    assert forall id :: id in right.sessions <==> id in swept.sessions;
    assert right.sessions == swept.sessions;
  }

  lemma SweptRevocation(db: Db, now: int, id: SessionId)
    requires DbInv(db) && id in db.sessions && now < db.sessions[id].expiresAt
    ensures var swept := Sweep(db, now, true).db; id in swept.sessions
    ensures var swept, gone := Sweep(db, now, true).db, db.sessions[id].(revoked := true);
      swept.(sessions := swept.sessions[id := gone]) == Sweep(db.(sessions := db.sessions[id := gone]), now, true).db
  {
    SweepIsExact(db, now);
    var swept, gone := Sweep(db, now, true).db, db.sessions[id].(revoked := true);
    SweepsTheSame(db, db.(sessions := db.sessions[id := gone]), swept.(sessions := swept.sessions[id := gone]), now);
  }

  lemma SweptReplacement(db: Db, now: int, h: Hash, g: Hash)
    requires DbInv(db) && h in db.tokens && now < db.sessions[db.tokens[h].session].expiresAt && g !in db.tokens
    ensures var swept, id := Sweep(db, now, true).db, db.tokens[h].session;
      swept.(tokens := swept.tokens[h := Token(id, true)][g := Token(id, false)]) ==
      Sweep(db.(tokens := db.tokens[h := Token(id, true)][g := Token(id, false)]), now, true).db
  {
    SweepIsExact(db, now);
    var swept, id := Sweep(db, now, true).db, db.tokens[h].session;
    SweepsTheSame(db, db.(tokens := db.tokens[h := Token(id, true)][g := Token(id, false)]),
                  swept.(tokens := swept.tokens[h := Token(id, true)][g := Token(id, false)]), now);
  }

  /**
   Sweeping is unseen: from then on every rotation of every token, reuse included, is answered as it would have been,
   and leaves what it would have left, swept.
   */
  lemma SweepIsUnseen(db: Db, now: int, h: Hash, later: int, issued: Option<Hash>, storage: bool)
    requires DbInv(db) && now <= later && (issued.Some? ==> issued.value !in db.tokens)
    ensures var swept := Sweep(db, now, true).db;
      && Rotate(swept, h, later, issued, storage).reply == Rotate(db, h, later, issued, storage).reply
      && Rotate(swept, h, later, issued, storage).db == Sweep(Rotate(db, h, later, issued, storage).db, now, true).db
  {
    SweepIsExact(db, now);
    if h in Sweep(db, now, true).db.tokens {
      SweptRevocation(db, now, db.tokens[h].session);
      if issued.Some? { SweptReplacement(db, now, h, issued.value); }
    }
  }
}

/** The two tables as the object the transactions update, statement by statement. */
module RefreshStores {
  import opened Prelude
  import opened Refresh

  class RefreshStore {
    var users: set<int>
    var sessions: map<SessionId, RefreshSession>
    var tokens: map<Hash, Token>

    ghost function Contents(): Db
      reads this
    {
      Db(users, sessions, tokens)
    }

    constructor ()
      ensures DbInv(Contents())
      ensures Contents() == Db({}, map[], map[])
    {
      users, sessions, tokens := {}, map[], map[];
    }

    method CreateSession(id: SessionId, user: int, createdAt: int, expiresAt: int, hash: Hash, storage: bool)
      returns (r: Result<(), RefreshError>)
      modifies this
      ensures Create(old(Contents()), id, user, createdAt, expiresAt, hash, storage) == Tx(Contents(), r)
    {
      if id in sessions || user !in users || expiresAt != createdAt + SESSION_SECONDS { return Err(Internal); }
      var saved := sessions;
      sessions := sessions[id := RefreshSession(user, createdAt, expiresAt, false)];
      if hash in tokens || !storage {
        sessions := saved;
        return Err(Internal);
      }
      tokens := tokens[hash := Token(id, false)];
      return Ok(());
    }

    method IssueSession(id: SessionId, user: int, now: int, credential: Option<Hash>, storage: bool)
      returns (r: Result<Grant, RefreshError>)
      requires DbInv(Contents())
      modifies this
      ensures Issue(old(Contents()), id, user, now, credential, storage) == Tx(Contents(), r) && DbInv(Contents())
    {
      IssueKeeps(Contents(), id, user, now, credential, storage);
      if now + SESSION_SECONDS > MAX_SECONDS { return Err(Internal); }
      if credential.None? { return Err(Internal); }
      var created := CreateSession(id, user, now, now + SESSION_SECONDS, credential.value, storage);
      if created.Err? { return Err(Internal); }
      return Ok(Grant(user, now + SESSION_SECONDS, credential.value));
    }

    /** The first read may fail, or a write that is reached. */
    method RotateSession(hash: Hash, now: int, issued: Option<Hash>, readable: bool, writable: bool)
      returns (r: Result<Grant, RefreshError>)
      requires DbInv(Contents())
      modifies this
      ensures var storage := readable && (writable || !Writes(old(Contents()), hash, now));
        Rotate(old(Contents()), hash, now, issued, storage) == Tx(Contents(), r) && DbInv(Contents())
    {
      RotateKeeps(Contents(), hash, now, issued, readable && writable);
      if !readable { return Err(Internal); }
      if hash !in tokens { return Err(InvalidCredential); }
      var id := tokens[hash].session;
      var session := sessions[id];
      if session.revoked || session.expiresAt <= now { return Err(InvalidCredential); }
      if tokens[hash].consumed {
        if !writable { return Err(Internal); }
        sessions := sessions[id := session.(revoked := true)];
        return Err(InvalidCredential);
      }
      var saved := tokens;
      tokens := tokens[hash := Token(id, true)];
      if issued.None? || issued.value in tokens || !writable {
        tokens := saved;
        return Err(Internal);
      }
      tokens := tokens[issued.value := Token(id, false)];
      return Ok(Grant(session.user, session.expiresAt, issued.value));
    }

    method RevokeSession(hash: Hash, storage: bool) returns (r: Result<(), RefreshError>)
      requires DbInv(Contents())
      modifies this
      ensures Revoke(old(Contents()), hash, storage) == Tx(Contents(), r) && DbInv(Contents())
    {
      SessionsOnly(Contents(), Revoke(Contents(), hash, storage).db);
      if !storage { return Err(Internal); }
      if hash in tokens {
        var id := tokens[hash].session;
        sessions := sessions[id := sessions[id].(revoked := true)];
      }
      return Ok(());
    }

    /** Child tokens go before their sessions; both or neither. */
    method DeleteExpired(now: int, storage: bool) returns (r: Result<nat, RefreshError>)
      requires DbInv(Contents())
      modifies this
      ensures Contents() == Sweep(old(Contents()), now, storage).db && DbInv(Contents())
      ensures r.Ok? <==> storage
      ensures r.Ok? ==> r.value == |old(sessions)| - |sessions|
    {
      SweepKeeps(Contents(), now, storage);
      var kept := map id | id in sessions && !Ended(Db(users, sessions, tokens), id, now) :: sessions[id];
      if !storage { return Err(Internal); }
      FewerKeys(sessions, kept);
      var removed := |sessions| - |kept|;
      tokens := map h | h in tokens && !Ended(Db(users, sessions, tokens), tokens[h].session, now) :: tokens[h];
      sessions := kept;
      return Ok(removed);
    }
  }

  lemma FewerKeys<K, V>(m: map<K, V>, kept: map<K, V>)
    requires kept.Keys <= m.Keys
    ensures |kept| <= |m|
  {
    assert |kept| == |kept.Keys| && |m| == |m.Keys|;
    assert m.Keys == kept.Keys + (m.Keys - kept.Keys);
  }
}
