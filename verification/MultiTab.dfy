/**
 Multi-tab refresh safety: whatever the tabs do, whatever the network loses, and
 however failures and logouts interleave, no refresh request ever presents a
 consumed token, so this browser never triggers its own revocation.
 */
module MultiTab {
  import opened Prelude
  import opened Refresh
  import opened Coordinator

  /** Presenting `h` cannot be a replay. */
  predicate Clean(db: Db, h: Hash) {
    h in db.tokens ==> !db.tokens[h].consumed
  }

  /** A stopped tab holds no token and has the flag behind it; without the flag no epoch has moved and nobody was told. */
  ghost predicate TabsOk(b: Browser) {
    && (b.told ==> b.stop)
    && (forall i :: i in b.tabs && b.tabs[i].stopped ==> b.stop && b.tabs[i].access.None?)
    && (forall k :: k in b.tasks && b.tasks[k].tab in b.tabs && b.tasks[k].kind == Refreshing && !b.stop ==>
          b.tasks[k].epoch == b.tabs[b.tasks[k].tab].epoch)
  }

  predicate Shaped(t: Task) {
    && (t.stage.Queued? ==> t.presented.None?)
    && (t.stage.Sent? ==> t.presented.Some?)
    && (t.stage.Arrived? ==> t.reply == Some(t.stage.answer))
    && (t.stage.Parsing? ==> t.kind == Refreshing && t.reply.Some?)
    && (t.presented.None? ==> t.reply.None?)
  }

  predicate Unserved(t: Task) {
    t.presented.Some? && t.reply.None?
  }

  predicate Underway(t: Task) {
    Unserved(t) && t.kind == Refreshing
  }

  /** Only the holder of the lock is between sending and finishing; without the flag nothing is left behind. */
  ghost predicate TasksOk(b: Browser) {
    && (forall k :: k in b.tasks ==> k < b.serial && Shaped(b.tasks[k]))
    && (b.holder.Some? ==> b.holder.value in b.tasks && Active(b.tasks[b.holder.value]))
    && (forall k :: k in b.tasks && Active(b.tasks[k]) ==> b.holder == Some(k) && b.tasks[k].tab in b.tabs)
    && (forall k :: k in b.tasks && !b.stop ==> b.tasks[k].kind == Refreshing)
    && (forall k :: k in b.tasks && !b.stop && Unserved(b.tasks[k]) ==> b.tasks[k].stage.Sent?)
    && (forall j, k :: j in b.tasks && k in b.tasks && Underway(b.tasks[j]) && Underway(b.tasks[k]) ==> j == k)
  }

  /** The holder's request has been served but its answer has not settled what the cookie is. */
  predicate Pending(b: Browser) {
    && b.holder.Some? && b.holder.value in b.tasks
    && var t := b.tasks[b.holder.value]; (t.stage.Sent? && t.reply.Some?) || t.stage == Arrived(Unchanged)
  }

  ghost predicate TokensOk(w: World) {
    && (forall k :: k in w.b.tasks && Unserved(w.b.tasks[k]) && w.b.tasks[k].kind == Refreshing && w.b.tasks[k].presented.value.Some? ==>
          Clean(w.db, w.b.tasks[k].presented.value.value))
    && (!w.b.stop && !Pending(w.b) && w.b.cookie.Some? ==> Clean(w.db, w.b.cookie.value))
    && (forall k :: k in w.b.tasks && !w.b.stop && w.b.tasks[k].stage.Sent? && w.b.tasks[k].reply.Some? && w.b.tasks[k].reply.value.Renewed? ==>
          Clean(w.db, w.b.tasks[k].reply.value.token))
  }

  ghost predicate OriginInv(w: World) {
    TabsOk(w.b) && TasksOk(w.b) && TokensOk(w)
  }

  // ---------------------------------------------------------------- tab steps

  /** Stopping a tab while the flag is set changes nothing the invariant looks at. */
  lemma StopTabKeeps(w: World, i: TabId)
    requires OriginInv(w) && w.b.stop && i in w.b.tabs
    ensures OriginInv(w.(b := w.b.(tabs := w.b.tabs[i := StopTab(w.b.tabs[i])])))
  {
  }

  lemma NoticedKeeps(w: World, i: TabId)
    requires OriginInv(w) && i in w.b.tabs
    ensures OriginInv(w.(b := Noticed(w.b, i)))
    ensures Noticed(w.b, i).stop == w.b.stop && Noticed(w.b, i).tasks == w.b.tasks && Noticed(w.b, i).holder == w.b.holder
    ensures w.b.stop <==> Noticed(w.b, i).tabs[i].stopped
    ensures Noticed(w.b, i).cookie == w.b.cookie && Noticed(w.b, i).tabs.Keys == w.b.tabs.Keys
            && Noticed(w.b, i).serial == w.b.serial
  {
  }

  lemma StopAllKeeps(w: World, i: TabId)
    requires OriginInv(w) && w.b.saves && i in w.b.tabs
    ensures OriginInv(w.(b := StopAll(w.b, i))) && StopAll(w.b, i).stop
  {
  }

  lemma StartRefreshKeeps(w: World, i: TabId)
    requires OriginInv(w) && i in w.b.tabs
    ensures OriginInv(w.(b := CallRefresh(w.b, i)))
  {
    NoticedKeeps(w, i);
    var b1 := Noticed(w.b, i);
    if !b1.tabs[i].stopped && b1.tabs[i].refreshing.None? { PromisedKeeps(w.(b := b1), i); }
  }

  lemma PromisedKeeps(w: World, i: TabId)
    requires OriginInv(w) && i in w.b.tabs
    ensures var b := w.b;
      OriginInv(w.(b := b.(tasks := b.tasks[b.serial := Task(i, Refreshing, b.tabs[i].epoch, Queued, None, None)],
                           tabs := b.tabs[i := b.tabs[i].(refreshing := Some(b.serial))], serial := b.serial + 1)))
  {
    var b, t := w.b, Task(i, Refreshing, w.b.tabs[i].epoch, Queued, None, None);
    QueueKeeps(w, i, t);
    PromiseKeeps(w.(b := b.(tasks := b.tasks[b.serial := t], serial := b.serial + 1)), i, Some(b.serial));
  }

  lemma QueueKeeps(w: World, i: TabId, t: Task)
    requires OriginInv(w) && i in w.b.tabs && t.tab == i && t.stage.Queued? && t.presented.None? && t.reply.None?
    requires t.kind == LoggingOut ==> w.b.stop
    requires t.epoch == w.b.tabs[i].epoch
    ensures OriginInv(w.(b := w.b.(tasks := w.b.tasks[w.b.serial := t], serial := w.b.serial + 1)))
  {
  }

  lemma PromiseKeeps(w: World, i: TabId, p: Option<nat>)
    requires OriginInv(w) && i in w.b.tabs
    ensures OriginInv(w.(b := w.b.(tabs := w.b.tabs[i := w.b.tabs[i].(refreshing := p)])))
  {
  }

  lemma StartLogoutKeeps(w: World, i: TabId)
    requires OriginInv(w) && w.b.saves && i in w.b.tabs
    ensures OriginInv(w.(b := CallLogout(w.b, i)))
  {
    StopAllKeeps(w, i);
    var b1 := StopAll(w.b, i);
    QueueKeeps(w.(b := b1), i, Task(i, LoggingOut, b1.tabs[i].epoch, Queued, None, None));
  }

  // ---------------------------------------------------------------- task steps

  /** A task may finish once the cookie is settled, or once the flag is set. */
  lemma FinishKeeps(w: World, k: nat)
    requires OriginInv(w) && k in w.b.tasks && w.b.tasks[k].tab in w.b.tabs && !w.b.tasks[k].stage.Over?
    requires !w.b.stop ==> !Unserved(w.b.tasks[k]) && (w.b.holder == Some(k) ==> !Pending(w.b))
    ensures OriginInv(w.(b := Finish(w.b, k)))
  {
    var b1 := w.b.(holder := if w.b.holder == Some(k) then None else w.b.holder,
                   tasks := w.b.tasks[k := w.b.tasks[k].(stage := Over)]);
    OverKeeps(w, k);
    if b1.tabs[b1.tasks[k].tab].refreshing == Some(k) {
      PromiseKeeps(w.(b := b1), b1.tasks[k].tab, None);
    }
  }

  lemma OverKeeps(w: World, k: nat)
    requires OriginInv(w) && k in w.b.tasks && w.b.tasks[k].tab in w.b.tabs && !w.b.tasks[k].stage.Over?
    requires !w.b.stop ==> !Unserved(w.b.tasks[k]) && (w.b.holder == Some(k) ==> !Pending(w.b))
    ensures OriginInv(w.(b := w.b.(holder := if w.b.holder == Some(k) then None else w.b.holder,
                                   tasks := w.b.tasks[k := w.b.tasks[k].(stage := Over)])))
  {
  }

  lemma CaughtKeeps(w: World, k: nat)
    requires OriginInv(w) && w.b.saves && k in w.b.tasks && w.b.tasks[k].tab in w.b.tabs && !w.b.tasks[k].stage.Over?
    ensures OriginInv(w.(b := Caught(w.b, k)))
  {
    var i := w.b.tasks[k].tab;
    if w.b.tasks[k].kind == Refreshing && w.b.tasks[k].epoch == w.b.tabs[i].epoch {
      StopAllKeeps(w, i);
      FinishKeeps(w.(b := StopAll(w.b, i)), k);
    } else {
      FinishKeeps(w, k);
    }
  }

  /** With the lock free and the flag clear, the cookie may be sent: nothing else is outstanding and it is unused. */
  lemma SendKeeps(w: World, k: nat)
    requires OriginInv(w) && w.b.holder.None? && k in w.b.tasks && w.b.tasks[k].stage.Queued? && w.b.tasks[k].tab in w.b.tabs
    requires w.b.tasks[k].kind == Refreshing ==> !w.b.stop
    ensures OriginInv(w.(b := w.b.(holder := Some(k),
                                   tasks := w.b.tasks[k := w.b.tasks[k].(stage := Sent, presented := Some(w.b.cookie))])))
  {
    if !w.b.stop {
      assert forall j :: j in w.b.tasks ==> !Unserved(w.b.tasks[j]);
    }
  }

  lemma GrantedKeeps(w: World, k: nat)
    requires OriginInv(w) && Enabled(w, LockGranted(k))
    ensures OriginInv(w.(b := Granted(w.b, k)))
  {
    if w.b.tasks[k].kind == LoggingOut {
      SendKeeps(w, k);
    } else {
      NoticedKeeps(w, w.b.tasks[k].tab);
      var b1 := Noticed(w.b, w.b.tasks[k].tab);
      if Proceeds(b1, k) { SendKeeps(w.(b := b1), k); } else { FinishKeeps(w.(b := b1), k); }
    }
  }

  lemma ArriveKeeps(w: World, k: nat)
    requires OriginInv(w) && Enabled(w, ResponseArrived(k))
    ensures OriginInv(w.(b := Arrive(w.b, k)))
  {
    assert w.b.holder == Some(k);
  }

  lemma ParsingKeeps(w: World, k: nat)
    requires OriginInv(w) && k in w.b.tasks && w.b.tasks[k].stage.Arrived? && w.b.tasks[k].stage.answer.Renewed?
    requires w.b.tasks[k].kind == Refreshing
    ensures OriginInv(w.(b := w.b.(tasks := w.b.tasks[k := w.b.tasks[k].(stage := Parsing)])))
  {
  }

  lemma ContinueKeeps(w: World, k: nat)
    requires OriginInv(w) && w.b.saves && Enabled(w, Continued(k))
    ensures OriginInv(w.(b := Continue(w.b, k)))
  {
    var i := w.b.tasks[k].tab;
    NoticedKeeps(w, i);
    var w1 := w.(b := Noticed(w.b, i));
    if w.b.tasks[k].kind == LoggingOut {
      FinishKeeps(w, k);
    } else if !Proceeds(w1.b, k) {
      FinishKeeps(w1, k);
    } else {
      match w.b.tasks[k].stage.answer
      case Cleared =>
        StopAllKeeps(w1, i);
        FinishKeeps(w1.(b := StopAll(w1.b, i)), k);
      case Unchanged => CaughtKeeps(w1, k);
      case Renewed(_) => ParsingKeeps(w1, k);
    }
  }

  lemma AccessKeeps(w: World, i: TabId, access: Option<int>)
    requires OriginInv(w) && i in w.b.tabs && !w.b.tabs[i].stopped
    ensures OriginInv(w.(b := w.b.(tabs := w.b.tabs[i := w.b.tabs[i].(access := access)])))
  {
  }

  lemma ParsedKeeps(w: World, k: nat, body: Body)
    requires OriginInv(w) && w.b.saves && Enabled(w, BodyRead(k, body))
    ensures OriginInv(w.(b := Parsed(w.b, k, body)))
  {
    var i := w.b.tasks[k].tab;
    if body.NoJson? {
      CaughtKeeps(w, k);
    } else {
      NoticedKeeps(w, i);
      var w1 := w.(b := Noticed(w.b, i));
      if Proceeds(w1.b, k) && body.NoToken? {
        CaughtKeeps(w1, k);
      } else if Proceeds(w1.b, k) {
        AccessKeeps(w1, i, Some(body.access));
        FinishKeeps(w1.(b := w1.b.(tabs := w1.b.tabs[i := w1.b.tabs[i].(access := Some(body.access))])), k);
      } else {
        FinishKeeps(w1, k);
      }
    }
  }

  // ---------------------------------------------------------------- server steps

  /** Serving a refresh consumes at most the token it presents; the replacement it may answer with is unused. */
  lemma ServeRefreshTokens(db: Db, presented: Option<Hash>, checked: bool, now: int, issued: Option<Hash>, storage: bool,
                           sent: int, representable: bool)
    ensures var served := ServeRefresh(db, presented, checked, now, issued, storage, sent, representable);
      && (forall h :: Some(h) != presented && Clean(db, h) ==> Clean(served.0, h))
      && (served.1.Renewed? ==> Clean(served.0, served.1.token))
      && (presented.Some? && Clean(db, presented.value) ==> served.0.sessions == db.sessions)
  {
  }

  lemma RepliedKeeps(b: Browser, k: nat, r: Reply)
    requires TabsOk(b) && TasksOk(b) && k in b.tasks && Unserved(b.tasks[k])
    ensures TabsOk(b.(tasks := b.tasks[k := b.tasks[k].(reply := Some(r))]))
    ensures TasksOk(b.(tasks := b.tasks[k := b.tasks[k].(reply := Some(r))]))
  {
  }

  lemma ServeRefreshKeeps(w: World, a: Action)
    requires OriginInv(w) && a.Served? && Enabled(w, a) && w.b.tasks[a.task].kind == Refreshing
    ensures TokensOk(ServeTask(w, a))
  {
    var t := w.b.tasks[a.task];
    ServeRefreshTokens(w.db, t.presented.value, a.checked, a.now, a.issued, a.storage, a.sent, a.representable);
    assert !w.b.stop ==> Pending(ServeTask(w, a).b);
  }

  lemma ServeLogoutKeeps(w: World, a: Action)
    requires OriginInv(w) && a.Served? && Enabled(w, a) && w.b.tasks[a.task].kind == LoggingOut
    ensures TokensOk(ServeTask(w, a))
  {
    assert ServeTask(w, a).db.tokens == w.db.tokens;
  }

  lemma ServeKeeps(w: World, a: Action)
    requires OriginInv(w) && a.Served? && Enabled(w, a)
    ensures OriginInv(ServeTask(w, a))
  {
    RepliedKeeps(w.b, a.task, ServeTask(w, a).b.tasks[a.task].reply.value);
    if w.b.tasks[a.task].kind == Refreshing { ServeRefreshKeeps(w, a); } else { ServeLogoutKeeps(w, a); }
  }

  lemma LogInKeeps(w: World, a: Action)
    requires OriginInv(w) && a.LoggedIn? && Enabled(w, a)
    ensures OriginInv(Act(w, a))
  {
    var w' := Act(w, a);
    forall k | k in w.b.tasks && Unserved(w.b.tasks[k]) && w.b.tasks[k].kind == Refreshing && w.b.tasks[k].presented.value.Some?
      ensures Clean(w'.db, w.b.tasks[k].presented.value.value)
    {
      assert Ours(w.b, w.b.tasks[k].presented.value.value);
    }
    forall k | k in w.b.tasks && w.b.tasks[k].stage.Sent? && w.b.tasks[k].reply.Some? && w.b.tasks[k].reply.value.Renewed?
      ensures Clean(w'.db, w.b.tasks[k].reply.value.token)
    {
      assert Ours(w.b, w.b.tasks[k].reply.value.token);
    }
  }

  lemma OthersKeep(w: World, a: Action)
    requires OriginInv(w) && a.OtherClients? && Enabled(w, a)
    ensures OriginInv(Act(w, a))
  {
    forall k | k in w.b.tasks && Unserved(w.b.tasks[k]) && w.b.tasks[k].kind == Refreshing && w.b.tasks[k].presented.value.Some?
      ensures Clean(a.db, w.b.tasks[k].presented.value.value)
    {
      assert Ours(w.b, w.b.tasks[k].presented.value.value);
    }
    forall k | k in w.b.tasks && !w.b.stop && w.b.tasks[k].stage.Sent? && w.b.tasks[k].reply.Some? && w.b.tasks[k].reply.value.Renewed?
      ensures Clean(a.db, w.b.tasks[k].reply.value.token)
    {
      assert Ours(w.b, w.b.tasks[k].reply.value.token);
    }
  }

  // ---------------------------------------------------------------- theorems

  lemma OpenCloseKeep(w: World, a: Action)
    requires OriginInv(w) && (a.OpenTab? || a.CloseTab?) && Enabled(w, a)
    ensures OriginInv(Act(w, a))
  {
  }

  lemma TurnKeeps(w: World, saves: bool)
    requires OriginInv(w)
    ensures OriginInv(w.(b := w.b.(saves := saves)))
  {
  }

  lemma ActKeeps(w: World, a: Action)
    requires OriginInv(w) && Enabled(w, a) && w.b.saves
    ensures OriginInv(Act(w, a))
  {
    match a
    case OpenTab(_) => OpenCloseKeep(w, a);
    case CloseTab(_) => OpenCloseKeep(w, a);
    case StartRefresh(i) => StartRefreshKeeps(w, i);
    case StartLogout(i) => StartLogoutKeeps(w, i);
    case Notified(i) => StopTabKeeps(w, i);
    case GiveUp(i) => StopAllKeeps(w, i);
    case LockGranted(k) => GrantedKeeps(w, k);
    case LockFailed(k) => FinishKeeps(w, k);
    case Served(_, _, _, _, _, _, _) => ServeKeeps(w, a);
    case ResponseArrived(k) => ArriveKeeps(w, k);
    case RequestFailed(k) => CaughtKeeps(w, k);
    case Continued(k) => ContinueKeeps(w, k);
    case BodyRead(k, body) => ParsedKeeps(w, k, body);
    case LoggedIn(_, _, _, _) => LogInKeeps(w, a);
    case OtherClients(_) => OthersKeep(w, a);
    case StorageTurns(saves) => TurnKeeps(w, saves);
  }

  ghost predicate Steps(w: World, a: Action, w': World) {
    Enabled(w, a) && w' == Act(w, a)
  }

  /** Any interleaving, from a browser with no tab yet and a cookie that is unused or absent. */
  ghost predicate Run(ws: seq<World>, acts: seq<Action>) {
    && |ws| == |acts| + 1
    && ws[0].b.tabs == map[] && ws[0].b.tasks == map[] && ws[0].b.holder.None? && !ws[0].b.told
    && (ws[0].b.cookie.Some? ==> Clean(ws[0].db, ws[0].b.cookie.value))
    && (forall i :: 0 <= i < |acts| ==> Steps(ws[i], acts[i], ws[i + 1]))
  }

  /** Local storage takes the stop flag at every moment before `n`. */
  ghost predicate Saving(ws: seq<World>, n: nat) {
    n <= |ws| && forall i :: 0 <= i < n ==> ws[i].b.saves
  }

  lemma {:induction false} RunInv(ws: seq<World>, acts: seq<Action>, n: nat)
    requires Run(ws, acts) && n <= |acts| && Saving(ws, n)
    ensures OriginInv(ws[n])
  {
    if n > 0 {
      RunInv(ws, acts, n - 1);
      assert Steps(ws[n - 1], acts[n - 1], ws[n]);
      ActKeeps(ws[n - 1], acts[n - 1]);
    }
  }

  /** The token a refresh request presents, when the server comes to look at it, has not been consumed. */
  lemma NoRequestReplays(ws: seq<World>, acts: seq<Action>, n: nat, k: nat)
    requires Run(ws, acts) && n <= |acts| && Saving(ws, n)
    requires k in ws[n].b.tasks && ws[n].b.tasks[k].kind == Refreshing
    requires Unserved(ws[n].b.tasks[k]) && ws[n].b.tasks[k].presented.value.Some?
    ensures Clean(ws[n].db, ws[n].b.tasks[k].presented.value.value)
  {
    RunInv(ws, acts, n);
  }

  /** So serving this browser's refreshes never revokes a session: reuse revocation is left to whoever stole a token. */
  lemma RefreshNeverRevokes(ws: seq<World>, acts: seq<Action>, n: nat)
    requires Run(ws, acts) && n < |acts| && Saving(ws, n) && acts[n].Served? && acts[n].task in ws[n].b.tasks
    requires ws[n].b.tasks[acts[n].task].kind == Refreshing
    ensures ws[n + 1].db.sessions == ws[n].db.sessions
  {
    RunInv(ws, acts, n);
    assert Steps(ws[n], acts[n], ws[n + 1]);
    var a, t := acts[n], ws[n].b.tasks[acts[n].task];
    ServeRefreshTokens(ws[n].db, t.presented.value, a.checked, a.now, a.issued, a.storage, a.sent, a.representable);
  }

  /** What the lock and the tabs alone keep, whether or not the flag can be set. */
  ghost predicate Orderly(b: Browser) {
    && (forall k :: k in b.tasks ==> k < b.serial)
    && (b.holder.Some? ==> b.holder.value in b.tasks && Active(b.tasks[b.holder.value]))
    && (forall k :: k in b.tasks && Active(b.tasks[k]) ==> b.holder == Some(k) && b.tasks[k].tab in b.tabs)
    && (forall i :: i in b.tabs && b.tabs[i].stopped ==> b.tabs[i].access.None?)
  }

  lemma FinishOrderly(b: Browser, k: nat)
    requires Orderly(b) && k in b.tasks && b.tasks[k].tab in b.tabs
    ensures Orderly(Finish(b, k)) && Orderly(Caught(b, k))
  {
  }

  lemma TabsOrderly(b: Browser, i: TabId)
    requires Orderly(b) && i in b.tabs
    ensures Orderly(Noticed(b, i)) && Orderly(StopAll(b, i))
    ensures Noticed(b, i).tasks == StopAll(b, i).tasks == b.tasks && Noticed(b, i).holder == StopAll(b, i).holder == b.holder
    ensures Noticed(b, i).tabs.Keys == StopAll(b, i).tabs.Keys == b.tabs.Keys
  {
  }

  lemma SentOrderly(b: Browser, k: nat)
    requires Orderly(b) && b.holder.None? && k in b.tasks && b.tasks[k].tab in b.tabs
    ensures Orderly(b.(holder := Some(k), tasks := b.tasks[k := b.tasks[k].(stage := Sent, presented := Some(b.cookie))]))
  {
  }

  lemma GrantedOrderly(b: Browser, k: nat)
    requires Orderly(b) && b.holder.None? && k in b.tasks && b.tasks[k].tab in b.tabs
    ensures Orderly(Granted(b, k))
  {
    var b1 := Noticed(b, b.tasks[k].tab);
    TabsOrderly(b, b.tasks[k].tab);
    if b.tasks[k].kind == LoggingOut { SentOrderly(b, k); }
    else if Proceeds(b1, k) { SentOrderly(b1, k); }
    else { FinishOrderly(b1, k); }
  }

  lemma ContinueOrderly(b: Browser, k: nat)
    requires Orderly(b) && k in b.tasks && b.tasks[k].tab in b.tabs && b.tasks[k].stage.Arrived?
    ensures Orderly(Continue(b, k))
  {
    var i, b1 := b.tasks[k].tab, Noticed(b, b.tasks[k].tab);
    TabsOrderly(b, i);
    if b.tasks[k].kind == LoggingOut {
      FinishOrderly(b, k);
    } else if b.tasks[k].stage.answer.Cleared? && Proceeds(b1, k) {
      TabsOrderly(b1, i);
      FinishOrderly(StopAll(b1, i), k);
    } else {
      FinishOrderly(b1, k);
    }
  }

  lemma ParsedOrderly(b: Browser, k: nat, body: Body)
    requires Orderly(b) && k in b.tasks && b.tasks[k].tab in b.tabs
    ensures Orderly(Parsed(b, k, body))
  {
    var i, b1 := b.tasks[k].tab, Noticed(b, b.tasks[k].tab);
    TabsOrderly(b, i);
    FinishOrderly(b, k);
    FinishOrderly(b1, k);
    if Proceeds(b1, k) && body.Holding? {
      FinishOrderly(b1.(tabs := b1.tabs[i := b1.tabs[i].(access := Some(body.access))]), k);
    }
  }

  lemma QueuedOrderly(b: Browser, i: TabId, t: Task, p: Option<nat>)
    requires Orderly(b) && i in b.tabs && t.stage.Queued?
    ensures Orderly(b.(tasks := b.tasks[b.serial := t], tabs := b.tabs[i := b.tabs[i].(refreshing := p)], serial := b.serial + 1))
    ensures Orderly(b.(tasks := b.tasks[b.serial := t], serial := b.serial + 1))
  {
  }

  lemma CallsOrderly(b: Browser, i: TabId)
    requires Orderly(b) && i in b.tabs
    ensures Orderly(CallRefresh(b, i)) && Orderly(CallLogout(b, i)) && Orderly(StopAll(b, i))
  {
    TabsOrderly(b, i);
    var b1, b2 := Noticed(b, i), StopAll(b, i);
    QueuedOrderly(b1, i, Task(i, Refreshing, b1.tabs[i].epoch, Queued, None, None), Some(b.serial));
    QueuedOrderly(b2, i, Task(i, LoggingOut, b2.tabs[i].epoch, Queued, None, None), None);
  }

  lemma ActOrderly(w: World, a: Action)
    requires Orderly(w.b) && Enabled(w, a)
    ensures Orderly(Act(w, a).b)
  {
    if a.StartRefresh? || a.StartLogout? || a.GiveUp? { CallsOrderly(w.b, a.tab); }
    else if a.LockGranted? { GrantedOrderly(w.b, a.task); }
    else if a.LockFailed? || a.RequestFailed? { FinishOrderly(w.b, a.task); }
    else if a.Continued? { ContinueOrderly(w.b, a.task); }
    else if a.BodyRead? { ParsedOrderly(w.b, a.task, a.body); }
  }

  lemma {:induction false} RunOrderly(ws: seq<World>, acts: seq<Action>, n: nat)
    requires Run(ws, acts) && n <= |acts|
    ensures Orderly(ws[n].b)
  {
    if n > 0 {
      RunOrderly(ws, acts, n - 1);
      assert Steps(ws[n - 1], acts[n - 1], ws[n]);
      ActOrderly(ws[n - 1], acts[n - 1]);
    }
  }

  /** Two tabs never hold the lock, and never have requests under way, at once. */
  lemma OneRequestUnderWay(ws: seq<World>, acts: seq<Action>, n: nat, j: nat, k: nat)
    requires Run(ws, acts) && n <= |acts| && j in ws[n].b.tasks && k in ws[n].b.tasks
    requires Active(ws[n].b.tasks[j]) && Active(ws[n].b.tasks[k])
    ensures j == k && ws[n].b.holder == Some(j)
  {
    RunOrderly(ws, acts, n);
  }

  /** Every task presents what it did, and the stop flag has not been taken back. */
  predicate AsksTheSame(b: Browser, b': Browser) {
    && b'.tasks.Keys == b.tasks.Keys && (b.stop ==> b'.stop)
    && forall k :: k in b.tasks ==> b'.tasks[k].presented == b.tasks[k].presented && b'.tasks[k].kind == b.tasks[k].kind
  }

  lemma FinishingSendsNothing(b: Browser, k: nat)
    requires k in b.tasks && b.tasks[k].tab in b.tabs
    ensures AsksTheSame(b, Finish(b, k)) && AsksTheSame(b, Caught(b, k))
  {
  }

  lemma ContinuingSendsNothing(b: Browser, k: nat)
    requires k in b.tasks && b.tasks[k].tab in b.tabs && b.tasks[k].stage.Arrived?
    ensures AsksTheSame(b, Continue(b, k))
  {
    var b1 := Noticed(b, b.tasks[k].tab);
    if b.tasks[k].kind == LoggingOut {
      FinishingSendsNothing(b, k);
    } else {
      FinishingSendsNothing(b1, k);
      FinishingSendsNothing(StopAll(b1, b.tasks[k].tab), k);
    }
  }

  lemma ParsingSendsNothing(b: Browser, k: nat, body: Body)
    requires k in b.tasks && b.tasks[k].tab in b.tabs
    ensures AsksTheSame(b, Parsed(b, k, body))
  {
    var i, b1 := b.tasks[k].tab, Noticed(b, b.tasks[k].tab);
    if body.NoJson? {
      FinishingSendsNothing(b, k);
    } else {
      FinishingSendsNothing(b1, k);
      if body.Holding? { FinishingSendsNothing(b1.(tabs := b1.tabs[i := b1.tabs[i].(access := Some(body.access))]), k); }
    }
  }

  /** Once the stop flag is set no tab sends another refresh. */
  lemma StoppedSendsNothing(w: World, a: Action, k: nat)
    requires Enabled(w, a) && w.b.stop && k in Act(w, a).b.tasks
    requires Act(w, a).b.tasks[k].kind == Refreshing && Act(w, a).b.tasks[k].presented.Some?
    ensures Act(w, a).b.stop && k in w.b.tasks && w.b.tasks[k].presented == Act(w, a).b.tasks[k].presented
  {
    if a.Continued? { ContinuingSendsNothing(w.b, a.task); }
    else if a.BodyRead? { ParsingSendsNothing(w.b, a.task, a.body); }
    else if a.LockFailed? || a.RequestFailed? { FinishingSendsNothing(w.b, a.task); }
  }

  /** A tab that has stopped holds no access token, and without the stop flag, if it can be set, no tab has stopped. */
  lemma StoppedTabsHoldNothing(ws: seq<World>, acts: seq<Action>, n: nat, i: TabId)
    requires Run(ws, acts) && n <= |acts| && i in ws[n].b.tabs && ws[n].b.tabs[i].stopped
    ensures ws[n].b.tabs[i].access.None? && (Saving(ws, n) ==> ws[n].b.stop)
  {
    RunOrderly(ws, acts, n);
    if Saving(ws, n) { RunInv(ws, acts, n); }
  }

  // ---------------------------------------------------------------- when the flag cannot be set

  /** A request that presents a consumed token, before the server has looked at it. */
  ghost predicate Replays(w: World, k: nat) {
    && k in w.b.tasks && Underway(w.b.tasks[k]) && w.b.tasks[k].presented.value.Some?
    && !Clean(w.db, w.b.tasks[k].presented.value.value)
  }

  const FIRST := 7
  const SECOND := 8
  const THIRD := 9

  /** One session, its first token in the cookie, and local storage that refuses the flag. */
  const UNSAVED := World(
    Db({0}, map[0 := RefreshSession(0, 0, SESSION_SECONDS, false)], map[FIRST := Token(0, false)]),
    Browser(Some(FIRST), false, false, false, None, map[], map[], 0))

  /** Both tabs wait for the lock. */
  const WAITING := UNSAVED.(b := UNSAVED.b.(
    tabs := map[0 := Tab(false, 0, None, Some(0)), 1 := Tab(false, 0, None, Some(1))], serial := 2,
    tasks := map[0 := Task(0, Refreshing, 0, Queued, None, None), 1 := Task(1, Refreshing, 0, Queued, None, None)]))

  ghost predicate Path(ws: seq<World>, acts: seq<Action>) {
    && |ws| == |acts| + 1
    && (forall i :: 0 <= i < |acts| ==> Steps(ws[i], acts[i], ws[i + 1]))
  }

  ghost predicate SavesAlways(ws: seq<World>, saves: bool) {
    forall i :: 0 <= i < |ws| ==> ws[i].b.saves == saves
  }

  lemma BothWait()
    returns (ws: seq<World>, acts: seq<Action>)
    ensures |acts| == 4 && Path(ws, acts) && SavesAlways(ws, false) && ws[0] == UNSAVED && ws[4] == WAITING
  {
    acts := [OpenTab(0), OpenTab(1), StartRefresh(0), StartRefresh(1)];
    var w1 := Act(UNSAVED, acts[0]);
    var w2 := Act(w1, acts[1]);
    var w3 := Act(w2, acts[2]);
    var w4 := Act(w3, acts[3]);
    assert w4.b.tabs == WAITING.b.tabs && w4.b.tasks == WAITING.b.tasks;
    ws := [UNSAVED, w1, w2, w3, w4];
  }

  lemma FirstGivesUp()
    returns (ws: seq<World>, acts: seq<Action>)
    ensures |acts| == 3 && Path(ws, acts) && SavesAlways(ws, false) && ws[0] == WAITING
    ensures var w := ws[3];
      && w.b.holder.None? && w.b.cookie == Some(FIRST) && w.b.tabs.Keys == {0, 1} && w.b.tabs[1] == WAITING.b.tabs[1]
      && 1 in w.b.tasks && w.b.tasks[1] == WAITING.b.tasks[1] && !w.b.stop && !Ours(w.b, THIRD)
      && w.db.sessions == WAITING.db.sessions && FIRST in w.db.tokens && w.db.tokens[FIRST] == Token(0, true)
  {
    acts := [LockGranted(0), Served(0, true, 0, Some(SECOND), true, 0, true), RequestFailed(0)];
    var w1 := Act(WAITING, acts[0]);
    var w2 := Act(w1, acts[1]);
    var w3 := Act(w2, acts[2]);
    ws := [WAITING, w1, w2, w3];
  }

  lemma SecondReplays(w: World)
    returns (ws: seq<World>, acts: seq<Action>)
    requires w.b.holder.None? && w.b.cookie == Some(FIRST) && w.b.tabs.Keys == {0, 1} && w.b.tabs[1] == WAITING.b.tabs[1]
    requires 1 in w.b.tasks && w.b.tasks[1] == WAITING.b.tasks[1] && !w.b.stop && !w.b.saves && !Ours(w.b, THIRD)
    requires w.db.sessions == WAITING.db.sessions && FIRST in w.db.tokens && w.db.tokens[FIRST] == Token(0, true)
    ensures |acts| == 2 && Path(ws, acts) && SavesAlways(ws, false) && ws[0] == w
    ensures Replays(ws[1], 1) && 0 in ws[2].db.sessions && ws[2].db.sessions[0].revoked
  {
    acts := [LockGranted(1), Served(1, true, 0, Some(THIRD), true, 0, true)];
    var w1 := Act(w, acts[0]);
    assert w1.b.cookie == w.b.cookie && w1.b.tasks[1].presented == Some(Some(FIRST)) && w1.b.tasks[1].reply.None?;
    assert forall k :: k in w1.b.tasks && k != 1 ==> k in w.b.tasks && w.b.tasks[k] == w1.b.tasks[k];
    assert !Ours(w1.b, THIRD);
    var w2 := Act(w1, acts[1]);
    ws := [w, w1, w2];
  }

  lemma Joined(ws: seq<World>, acts: seq<Action>, more: seq<World>, rest: seq<Action>)
    requires Path(ws, acts) && Path(more, rest) && ws[|acts|] == more[0]
    ensures Path(ws + more[1..], acts + rest)
    ensures SavesAlways(ws, false) && SavesAlways(more, false) ==> SavesAlways(ws + more[1..], false)
  {
  }

  /**
   The failing input: two tabs ask; the first's answer is lost after the server consumed the token, and it gives up; its
   flag is not stored, so the second, which has not heard the broadcast yet, gets the lock and sends the consumed token,
   which revokes the session.
   */
  lemma UnsavedFlagReplays()
    returns (ws: seq<World>, acts: seq<Action>)
    ensures Run(ws, acts) && |acts| == 9 && ws[0] == UNSAVED && SavesAlways(ws, false)
    ensures Replays(ws[8], 1) && 0 in ws[9].db.sessions && ws[9].db.sessions[0].revoked
  {
    var a, x := BothWait();
    var b, y := FirstGivesUp();
    var c, z := SecondReplays(b[3]);
    Joined(b, y, c, z);
    Joined(a, x, b + c[1..], y + z);
    ws, acts := a + (b + c[1..])[1..], x + (y + z);
    assert ws[8] == c[1] && ws[9] == c[2];
  }

  /** Where local storage always answers alike, no request of any run replays if and only if it takes the flag. */
  lemma SafeExactlyWhenSaved(saves: bool)
    ensures (forall ws, acts, n, k :: Run(ws, acts) && SavesAlways(ws, saves) && 0 <= n < |ws| ==> !Replays(ws[n], k)) <==> saves
  {
    if saves {
      forall ws, acts, n, k | Run(ws, acts) && SavesAlways(ws, saves) && 0 <= n < |ws| ensures !Replays(ws[n], k) {
        if Replays(ws[n], k) { NoRequestReplays(ws, acts, n, k); }
      }
    } else {
      var ws, acts := UnsavedFlagReplays();
      assert SavesAlways(ws, false) && Replays(ws[8], 1);
    }
  }
}
