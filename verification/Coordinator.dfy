/**
 The browser's side of token rotation: any number of tabs, each with its own
 coordinator, sharing one cookie, one stop flag and one origin-wide lock, over a
 network that may lose, delay or fail any response.
 */
module Coordinator {
  import opened Prelude
  import opened Refresh

  type TabId = nat

  /** `refreshing` is the tab's shared refresh promise; `access` its token in memory. */
  datatype Tab = Tab(stopped: bool, epoch: nat, access: Option<int>, refreshing: Option<nat>)

  datatype Kind = Refreshing | LoggingOut

  /** What the server answers: a replacement cookie, a cleared one (401, and 204 of a logout), or neither. */
  datatype Reply = Renewed(token: Hash) | Cleared | Unchanged
  datatype Body = NoJson | NoToken | Holding(access: int)
  datatype Stage = Queued | Sent | Arrived(answer: Reply) | Parsing | Over

  /** One callback given to the lock; a request that was sent may be served even after its task gave up. */
  datatype Task = Task(tab: TabId, kind: Kind, epoch: nat, stage: Stage,
                       presented: Option<Option<Hash>>, reply: Option<Reply>)

  /** `stop` is the flag in local storage, which may refuse to take it (`saves`); `told`: it was also broadcast. */
  datatype Browser = Browser(cookie: Option<Hash>, saves: bool, stop: bool, told: bool, holder: Option<nat>,
                             tabs: map<TabId, Tab>, tasks: map<nat, Task>, serial: nat)

  // ---------------------------------------------------------------- one coordinator

  function StopTab(t: Tab): Tab {
    t.(stopped := true, epoch := t.epoch + 1, access := None)
  }

  /** allowed(): a tab that sees the stop flag stops itself first. */
  function Noticed(b: Browser, i: TabId): Browser
    requires i in b.tabs
  {
    if b.stop && !b.tabs[i].stopped then b.(tabs := b.tabs[i := StopTab(b.tabs[i])]) else b
  }

  /** stop(reason, true): the flag is set for every tab if it can be, and the other tabs are told. */
  function StopAll(b: Browser, i: TabId): Browser
    requires i in b.tabs
  {
    b.(stop := b.stop || b.saves, told := true, tabs := b.tabs[i := StopTab(b.tabs[i])])
  }

  predicate Proceeds(b: Browser, k: nat)
    requires k in b.tasks && b.tasks[k].tab in b.tabs
  {
    !b.tabs[b.tasks[k].tab].stopped && b.tasks[k].epoch == b.tabs[b.tasks[k].tab].epoch
  }

  /** The callback is over: the lock is released and the shared promise cleared. */
  function Finish(b: Browser, k: nat): Browser
    requires k in b.tasks && b.tasks[k].tab in b.tabs
  {
    var i := b.tasks[k].tab;
    b.(holder := if b.holder == Some(k) then None else b.holder,
       tasks := b.tasks[k := b.tasks[k].(stage := Over)],
       tabs := if b.tabs[i].refreshing == Some(k) then b.tabs[i := b.tabs[i].(refreshing := None)] else b.tabs)
  }

  /** The catch of refresh(): uncertain whether the cookie was consumed, so nobody may replay it. */
  function Caught(b: Browser, k: nat): Browser
    requires k in b.tasks && b.tasks[k].tab in b.tabs
  {
    var i := b.tasks[k].tab;
    Finish(if b.tasks[k].kind == Refreshing && b.tasks[k].epoch == b.tabs[i].epoch then StopAll(b, i) else b, k)
  }

  function CallRefresh(b: Browser, i: TabId): Browser
    requires i in b.tabs
  {
    var b1 := Noticed(b, i);
    if b1.tabs[i].stopped || b1.tabs[i].refreshing.Some? then b1
    else b1.(tasks := b1.tasks[b.serial := Task(i, Refreshing, b1.tabs[i].epoch, Queued, None, None)],
             tabs := b1.tabs[i := b1.tabs[i].(refreshing := Some(b.serial))], serial := b.serial + 1)
  }

  function CallLogout(b: Browser, i: TabId): Browser
    requires i in b.tabs
  {
    var b1 := StopAll(b, i);
    b1.(tasks := b1.tasks[b.serial := Task(i, LoggingOut, b1.tabs[i].epoch, Queued, None, None)], serial := b.serial + 1)
  }

  /** The lock is granted: a refresh checks again and sends the cookie; a logout just sends it. */
  function Granted(b: Browser, k: nat): Browser
    requires k in b.tasks && b.tasks[k].tab in b.tabs
  {
    if b.tasks[k].kind == LoggingOut
    then b.(holder := Some(k), tasks := b.tasks[k := b.tasks[k].(stage := Sent, presented := Some(b.cookie))])
    else
      var b1 := Noticed(b, b.tasks[k].tab);
      if !Proceeds(b1, k) then Finish(b1, k)
      else b1.(holder := Some(k), tasks := b1.tasks[k := b1.tasks[k].(stage := Sent, presented := Some(b1.cookie))])
  }

  /** The response's headers reach the browser, cookie and all. */
  function Arrive(b: Browser, k: nat): Browser
    requires k in b.tasks && b.tasks[k].reply.Some?
  {
    var r := b.tasks[k].reply.value;
    b.(cookie := (match r case Renewed(h) => Some(h) case Cleared => None case Unchanged => b.cookie),
       tasks := b.tasks[k := b.tasks[k].(stage := Arrived(r))])
  }

  /** The code after `await fetch`. */
  function Continue(b: Browser, k: nat): Browser
    requires k in b.tasks && b.tasks[k].tab in b.tabs && b.tasks[k].stage.Arrived?
  {
    var b1 := Noticed(b, b.tasks[k].tab);
    if b.tasks[k].kind == LoggingOut then Finish(b, k)
    else if !Proceeds(b1, k) then Finish(b1, k)
    else match b.tasks[k].stage.answer
      case Cleared => Finish(StopAll(b1, b.tasks[k].tab), k)
      case Unchanged => Caught(b1, k)
      case Renewed(_) => b1.(tasks := b1.tasks[k := b1.tasks[k].(stage := Parsing)])
  }

  /** The code after `await response.json()`: a body that is no JSON throws before the flag is looked at again. */
  function Parsed(b: Browser, k: nat, body: Body): Browser
    requires k in b.tasks && b.tasks[k].tab in b.tabs
  {
    if body.NoJson? then Caught(b, k)
    else
      var b1 := Noticed(b, b.tasks[k].tab);
      if !Proceeds(b1, k) then Finish(b1, k)
      else if body.NoToken? then Caught(b1, k)
      else Finish(b1.(tabs := b1.tabs[b1.tasks[k].tab := b1.tabs[b1.tasks[k].tab].(access := Some(body.access))]), k)
  }

  // ---------------------------------------------------------------- the whole origin and its server

  datatype World = World(db: Db, b: Browser)

  /** The server's part of a refresh: no cookie is 401; a failed check changes nothing; the new cookie may itself fail. */
  function ServeRefresh(db: Db, presented: Option<Hash>, checked: bool, now: int, issued: Option<Hash>, storage: bool,
                        sent: int, representable: bool): (Db, Reply)
  {
    if !checked then (db, Unchanged)
    else if presented.None? then (db, Cleared)
    else
      var tx := Rotate(db, presented.value, now, issued, storage);
      (tx.db,
       match tx.reply
       case Err(InvalidCredential) => Cleared
       case Err(Internal) => Unchanged
       case Ok(grant) =>
         if grant.expiresAt <= sent then Cleared else if !representable then Unchanged else Renewed(grant.token))
  }

  function ServeLogout(db: Db, presented: Option<Hash>, checked: bool, storage: bool): (Db, Reply) {
    if !checked then (db, Unchanged)
    else if presented.None? then (db, Cleared)
    else
      var tx := Revoke(db, presented.value, storage);
      (tx.db, if tx.reply.Ok? then Cleared else Unchanged)
  }

  datatype Action =
    | OpenTab(tab: TabId)
    | CloseTab(tab: TabId)
    | StartRefresh(tab: TabId)
    | StartLogout(tab: TabId)
    | Notified(tab: TabId)
    | GiveUp(tab: TabId)
    | LockGranted(task: nat)
    | LockFailed(task: nat)
    | Served(task: nat, checked: bool, now: int, issued: Option<Hash>, storage: bool, sent: int, representable: bool)
    | ResponseArrived(task: nat)
    | RequestFailed(task: nat)
    | Continued(task: nat)
    | BodyRead(task: nat, body: Body)
    | LoggedIn(id: SessionId, user: int, now: int, token: Hash)
    | OtherClients(db: Db)
    | StorageTurns(saves: bool)

  predicate Active(t: Task) {
    t.stage.Sent? || t.stage.Arrived? || t.stage.Parsing?
  }

  /** The tokens this browser knows of: in its cookie, in its requests, and in their answers. */
  predicate Ours(b: Browser, h: Hash) {
    || b.cookie == Some(h)
    || (exists k :: k in b.tasks && b.tasks[k].presented == Some(Some(h)))
    || (exists k :: k in b.tasks && b.tasks[k].reply == Some(Renewed(h)))
  }

  /** Other browsers' requests neither present nor are issued this browser's tokens. */
  ghost predicate LeavesOurs(b: Browser, db: Db, db': Db) {
    forall h :: Ours(b, h) && h in db'.tokens ==> h in db.tokens && db'.tokens[h].consumed == db.tokens[h].consumed
  }

  ghost predicate Enabled(w: World, a: Action) {
    var b := w.b;
    match a
    case OpenTab(i) => i !in b.tabs && forall k :: k in b.tasks ==> b.tasks[k].tab != i
    case CloseTab(i) => i in b.tabs && forall k :: k in b.tasks && Active(b.tasks[k]) ==> b.tasks[k].tab != i
    case StartRefresh(i) => i in b.tabs
    case StartLogout(i) => i in b.tabs
    case Notified(i) => i in b.tabs && b.told
    case GiveUp(i) => i in b.tabs
    case LockGranted(k) => b.holder.None? && k in b.tasks && b.tasks[k].stage.Queued? && b.tasks[k].tab in b.tabs
    case LockFailed(k) => k in b.tasks && b.tasks[k].stage.Queued? && b.tasks[k].tab in b.tabs
    case Served(k, _, _, issued, _, _, _) =>
      k in b.tasks && b.tasks[k].presented.Some? && b.tasks[k].reply.None? && (issued.Some? ==> !Ours(b, issued.value))
    case ResponseArrived(k) => k in b.tasks && b.tasks[k].stage.Sent? && b.tasks[k].reply.Some?
    case RequestFailed(k) => k in b.tasks && (b.tasks[k].stage.Sent? || b.tasks[k].stage.Arrived?) && b.tasks[k].tab in b.tabs
    case Continued(k) => k in b.tasks && b.tasks[k].stage.Arrived? && b.tasks[k].tab in b.tabs
    case BodyRead(k, _) => k in b.tasks && b.tasks[k].stage.Parsing? && b.tasks[k].tab in b.tabs
    case LoggedIn(_, _, _, h) => !b.stop && !Ours(b, h)
    case OtherClients(db) => LeavesOurs(b, w.db, db)
    case StorageTurns(_) => true
  }

  function ServeTask(w: World, a: Action): World
    requires a.Served? && a.task in w.b.tasks && w.b.tasks[a.task].presented.Some?
  {
    var t := w.b.tasks[a.task];
    var served := if t.kind == Refreshing
                  then ServeRefresh(w.db, t.presented.value, a.checked, a.now, a.issued, a.storage, a.sent, a.representable)
                  else ServeLogout(w.db, t.presented.value, a.checked, a.storage);
    World(served.0, w.b.(tasks := w.b.tasks[a.task := t.(reply := Some(served.1))]))
  }

  function LogIn(w: World, id: SessionId, user: int, now: int, h: Hash): World {
    var tx := Issue(w.db, id, user, now, Some(h), true);
    World(tx.db, if tx.reply.Ok? then w.b.(cookie := Some(h)) else w.b)
  }

  ghost function Act(w: World, a: Action): World
    requires Enabled(w, a)
  {
    var b := w.b;
    match a
    case OpenTab(i) => w.(b := b.(tabs := b.tabs[i := Tab(false, 0, None, None)]))
    case CloseTab(i) => w.(b := b.(tabs := b.tabs - {i}))
    case StartRefresh(i) => w.(b := CallRefresh(b, i))
    case StartLogout(i) => w.(b := CallLogout(b, i))
    case Notified(i) => w.(b := b.(tabs := b.tabs[i := StopTab(b.tabs[i])]))
    case GiveUp(i) => w.(b := StopAll(b, i))
    case LockGranted(k) => w.(b := Granted(b, k))
    case LockFailed(k) => w.(b := Finish(b, k))
    case Served(_, _, _, _, _, _, _) => ServeTask(w, a)
    case ResponseArrived(k) => w.(b := Arrive(b, k))
    case RequestFailed(k) => w.(b := Caught(b, k))
    case Continued(k) => w.(b := Continue(b, k))
    case BodyRead(k, body) => w.(b := Parsed(b, k, body))
    case LoggedIn(id, user, now, h) => LogIn(w, id, user, now, h)
    case OtherClients(db) => w.(db := db)
    case StorageTurns(saves) => w.(b := b.(saves := saves))
  }
}
