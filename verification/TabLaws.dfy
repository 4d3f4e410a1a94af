/**
 What each callback of a tab's coordinator leaves behind: who may send, what an
 answer does to the tab, the stop flag and the lock, and whose token a tab holds.
 */
module TabLaws {
  import opened Prelude
  import opened Coordinator
  import opened MultiTab
  import Server = Refresh

  /** The tab may still act for the task: nobody has stopped it since the task was made. */
  predicate Current(b: Browser, k: nat)
    requires k in b.tasks && b.tasks[k].tab in b.tabs
  {
    var t := b.tabs[b.tasks[k].tab];
    !b.stop && !t.stopped && b.tasks[k].epoch == t.epoch
  }

  predicate OthersSame(b: Browser, b': Browser, i: TabId) {
    && b'.cookie == b.cookie && b'.saves == b.saves && b'.tabs.Keys == b.tabs.Keys
    && forall j :: j in b.tabs && j != i ==> b'.tabs[j] == b.tabs[j]
  }

  predicate FlagsSame(b: Browser, b': Browser) {
    b'.stop == b.stop && b'.told == b.told
  }

  /** The callback is over: it holds the lock no longer, and its tab can refresh again. */
  predicate Ended(b: Browser, b': Browser, k: nat)
    requires k in b.tasks && b.tasks[k].tab in b.tabs && b.tasks[k].tab in b'.tabs
  {
    && b'.tasks == b.tasks[k := b.tasks[k].(stage := Over)] && b'.serial == b.serial
    && b'.holder == (if b.holder == Some(k) then None else b.holder)
    && b'.tabs[b.tasks[k].tab].refreshing ==
       (if b.tabs[b.tasks[k].tab].refreshing == Some(k) then None else b.tabs[b.tasks[k].tab].refreshing)
  }

  /** The tab has stopped with no token, and every other tab has been told. */
  predicate AllStopped(b: Browser, b': Browser, i: TabId) {
    && i in b'.tabs && b'.tabs[i].stopped && b'.tabs[i].access.None?
    && b'.told && (b'.stop <==> b.stop || b.saves)
  }

  /** The tab kept its token or lost it, and gained none. */
  predicate GainsNothing(b: Browser, b': Browser, i: TabId) {
    i in b.tabs && i in b'.tabs && b'.tabs[i].access in {None, b.tabs[i].access}
  }

  // ---------------------------------------------------------------- calls

  /** A refresh is refused to a stopped tab, shares the refresh under way, or else queues exactly one request. */
  lemma RefreshIsSharedOrQueued(b: Browser, i: TabId)
    requires i in b.tabs && b.serial !in b.tasks
    ensures var b' := CallRefresh(b, i);
      && OthersSame(b, b', i) && FlagsSame(b, b') && b'.holder == b.holder
      && (b.stop || b.tabs[i].stopped ==> b'.tasks == b.tasks && b'.tabs[i].stopped)
      && (!b.stop && !b.tabs[i].stopped && b.tabs[i].refreshing.Some? ==> b' == b)
      && (!b.stop && !b.tabs[i].stopped && b.tabs[i].refreshing.None? ==>
            && b'.tasks.Keys == b.tasks.Keys + {b.serial} && (forall k :: k in b.tasks ==> b'.tasks[k] == b.tasks[k])
            && b'.tabs[i].refreshing == Some(b.serial)
            && var t := b'.tasks[b.serial];
               t.tab == i && t.kind == Refreshing && t.stage.Queued? && t.epoch == b.tabs[i].epoch && t.presented.None?)
  {
  }

  /** Logging out stops every tab at once, whatever becomes of its request. */
  lemma LogoutStopsFirst(b: Browser, i: TabId)
    requires i in b.tabs && b.serial !in b.tasks
    ensures var b' := CallLogout(b, i);
      && OthersSame(b, b', i) && AllStopped(b, b', i) && b'.holder == b.holder
      && b'.tasks.Keys == b.tasks.Keys + {b.serial} && (forall k :: k in b.tasks ==> b'.tasks[k] == b.tasks[k])
      && b'.tasks[b.serial].kind == LoggingOut && b'.tasks[b.serial].stage.Queued?
  {
  }

  // ---------------------------------------------------------------- callbacks

  /** With the lock a logout sends the cookie, and a refresh does exactly when its tab may still act for it. */
  lemma GrantSendsTheCookie(b: Browser, k: nat)
    requires k in b.tasks && b.tasks[k].tab in b.tabs && b.holder.None? && b.tasks[k].stage.Queued?
    ensures var b' := Granted(b, k);
      && OthersSame(b, b', b.tasks[k].tab) && FlagsSame(b, b')
      && (if b.tasks[k].kind == LoggingOut || Current(b, k)
          then b' == b.(holder := Some(k), tasks := b.tasks[k := b.tasks[k].(stage := Sent, presented := Some(b.cookie))])
          else Ended(b, b', k) && b'.holder.None? && GainsNothing(b, b', b.tasks[k].tab))
  {
  }

  lemma FinishEnds(b: Browser, k: nat)
    requires k in b.tasks && b.tasks[k].tab in b.tabs
    ensures var b' := Finish(b, k);
      && Ended(b, b', k) && OthersSame(b, b', b.tasks[k].tab) && FlagsSame(b, b')
      && b'.tabs[b.tasks[k].tab].(refreshing := None) == b.tabs[b.tasks[k].tab].(refreshing := None)
  {
  }

  lemma StoppingIs(b: Browser, i: TabId)
    requires i in b.tabs
    ensures var b' := StopAll(b, i);
      && AllStopped(b, b', i) && OthersSame(b, b', i) && b'.tabs[i].refreshing == b.tabs[i].refreshing
      && b'.tasks == b.tasks && b'.serial == b.serial && b'.holder == b.holder
  {
  }

  /** A failure in the epoch of the refresh stops every tab; any other is let go. */
  lemma FailureIsCaught(b: Browser, k: nat)
    requires k in b.tasks && b.tasks[k].tab in b.tabs
    ensures var b' := Caught(b, k);
      var i := b.tasks[k].tab;
      && OthersSame(b, b', i) && Ended(b, b', k)
      && (if b.tasks[k].kind == Refreshing && b.tasks[k].epoch == b.tabs[i].epoch then AllStopped(b, b', i)
          else FlagsSame(b, b') && GainsNothing(b, b', i))
  {
    var i := b.tasks[k].tab;
    StoppingIs(b, i);
    FinishEnds(StopAll(b, i), k);
    FinishEnds(b, k);
  }

  lemma NoticedIs(b: Browser, i: TabId)
    requires i in b.tabs
    ensures var b' := Noticed(b, i);
      && OthersSame(b, b', i) && FlagsSame(b, b') && b'.tabs[i].refreshing == b.tabs[i].refreshing
      && b'.tasks == b.tasks && b'.serial == b.serial && b'.holder == b.holder
      && GainsNothing(b, b', i) && (!b.stop || b.tabs[i].stopped ==> b' == b) && (b.stop ==> b'.tabs[i].stopped)
  {
  }

  /**
   While the tab may act: a renewed cookie's body is awaited under the lock, and any other answer (signed out, or
   uncertain) stops every tab.  Otherwise the answer is dropped.
   */
  lemma AnswerDecides(b: Browser, k: nat)
    requires k in b.tasks && b.tasks[k].tab in b.tabs && b.tasks[k].stage.Arrived? && b.tasks[k].kind == Refreshing
    ensures var b' := Continue(b, k);
      var i := b.tasks[k].tab;
      && OthersSame(b, b', i)
      && (if !Current(b, k) then Ended(b, b', k) && FlagsSame(b, b') && GainsNothing(b, b', i)
          else if b.tasks[k].stage.answer.Renewed? then b' == b.(tasks := b.tasks[k := b.tasks[k].(stage := Parsing)])
          else Ended(b, b', k) && AllStopped(b, b', i))
  {
    var i := b.tasks[k].tab;
    var b1 := Noticed(b, i);
    NoticedIs(b, i);
    FinishEnds(b1, k);
    StoppingIs(b1, i);
    FinishEnds(StopAll(b1, i), k);
    FailureIsCaught(b1, k);
  }

  /**
   A good body leaves its access token with the tab, exactly while the tab may act for it.  A bad one in the same epoch
   stops every tab, and neither leaves a token otherwise.
   */
  lemma BodyDecides(b: Browser, k: nat, body: Body)
    requires k in b.tasks && b.tasks[k].tab in b.tabs && b.tasks[k].kind == Refreshing
    ensures var b' := Parsed(b, k, body);
      var i := b.tasks[k].tab;
      && OthersSame(b, b', i) && Ended(b, b', k)
      && (if Current(b, k) && body.Holding?
          then b'.tabs[i].access == Some(body.access) && !b'.tabs[i].stopped && FlagsSame(b, b') && b'.tabs[i].epoch == b.tabs[i].epoch
          else if (Current(b, k) && body.NoToken?) || (b.tasks[k].epoch == b.tabs[i].epoch && body.NoJson?)
          then AllStopped(b, b', i)
          else FlagsSame(b, b') && GainsNothing(b, b', i))
  {
    var i := b.tasks[k].tab;
    var b1 := Noticed(b, i);
    NoticedIs(b, i);
    FailureIsCaught(b, k);
    FailureIsCaught(b1, k);
    FinishEnds(b1, k);
    if body.Holding? { FinishEnds(b1.(tabs := b1.tabs[i := b1.tabs[i].(access := Some(body.access))]), k); }
  }

  /** The cookie follows the answers as they arrive: replaced, cleared, or left. */
  lemma CookieFollowsAnswers(b: Browser, k: nat)
    requires k in b.tasks && b.tasks[k].stage.Sent? && b.tasks[k].reply.Some?
    ensures var b' := Arrive(b, k);
      && b'.tabs == b.tabs && FlagsSame(b, b') && b'.holder == b.holder
      && b'.tasks == b.tasks[k := b.tasks[k].(stage := Arrived(b.tasks[k].reply.value))]
      && (b.tasks[k].reply.value.Renewed? ==> b'.cookie == Some(b.tasks[k].reply.value.token))
      && (b.tasks[k].reply.value.Cleared? ==> b'.cookie.None?)
      && (b.tasks[k].reply.value.Unchanged? ==> b'.cookie == b.cookie)
  {
  }

  // ---------------------------------------------------------------- the server's answers

  /** A presented token of a session neither revoked nor over. */
  predicate Sound(db: Server.Db, presented: Option<Server.Hash>, now: int) {
    presented.Some? && Server.Writes(db, presented.value, now)
  }

  /**
   A refresh is answered by its status: the cookie is left when a check or the server itself fails, cleared when there is
   none, it is no good or was used before, or its session ends meanwhile, and else renewed with the token just issued.
   */
  lemma RefreshIsAnswered(db: Server.Db, presented: Option<Server.Hash>, checked: bool, now: int, issued: Option<Server.Hash>,
                          storage: bool, sent: int, representable: bool)
    requires Server.DbInv(db)
    ensures
      var answer := ServeRefresh(db, presented, checked, now, issued, storage, sent, representable).1;
      if !checked then answer.Unchanged?
      else if presented.None? then answer.Cleared?
      else if !storage then answer.Unchanged?
      else if !Sound(db, presented, now) || db.tokens[presented.value].consumed then answer.Cleared?
      else if issued.None? || issued.value in db.tokens then answer.Unchanged?
      else if db.sessions[db.tokens[presented.value].session].expiresAt <= sent then answer.Cleared?
      else answer == if representable then Renewed(issued.value) else Unchanged
  {
    if presented.Some? {
      Server.RotationRefusals(db, presented.value, now, issued);
      if Server.Rotate(db, presented.value, now, issued, true).reply.Ok? {
        Server.RotationGrantsItsAccount(db, presented.value, now, issued, true);
      }
    }
  }

  /** A logout leaves the cookie exactly when it failed, and otherwise the presented token's session is revoked. */
  lemma LogoutIsAnswered(db: Server.Db, presented: Option<Server.Hash>, checked: bool, storage: bool)
    requires Server.DbInv(db)
    ensures
      var served := ServeLogout(db, presented, checked, storage);
      && (served.1.Unchanged? <==> !checked || (presented.Some? && !storage)) && !served.1.Renewed?
      && (served.1.Unchanged? || presented.None? ==> served.0 == db)
      && (served.1.Cleared? && presented.Some? && presented.value in db.tokens ==>
            served.0.sessions[db.tokens[presented.value].session].revoked)
  {
    if presented.Some? { Server.RevokingIsExact(db, presented.value); }
  }

  // ---------------------------------------------------------------- one refresh per tab

  predicate Refreshes(b: Browser, k: nat, i: TabId) {
    k in b.tasks && b.tasks[k].tab == i && b.tasks[k].kind == Refreshing && !b.tasks[k].stage.Over?
  }

  /** A tab's promise is the one refresh of it that is not over. */
  ghost predicate Shares(b: Browser) {
    forall i: TabId, k: nat :: i in b.tabs ==> (Refreshes(b, k, i) <==> b.tabs[i].refreshing == Some(k))
  }

  /** Tabs may stop and tasks move on, but no refresh ends and no promise is settled. */
  predicate AlikeTask(t: Task, t': Task) {
    t'.tab == t.tab && t'.kind == t.kind && (t'.stage.Over? <==> t.stage.Over?)
  }

  ghost predicate Alike(b: Browser, b': Browser) {
    && b'.tasks.Keys == b.tasks.Keys && (forall k :: k in b.tasks ==> AlikeTask(b.tasks[k], b'.tasks[k]))
    && (forall i :: i in b'.tabs ==> i in b.tabs && b'.tabs[i].refreshing == b.tabs[i].refreshing)
  }

  lemma AlikeShares(b: Browser, b': Browser)
    requires Shares(b) && Alike(b, b')
    ensures Shares(b')
  {
    forall i: TabId, k: nat | i in b'.tabs ensures Refreshes(b', k, i) <==> b'.tabs[i].refreshing == Some(k) {
      assert Refreshes(b, k, i) <==> b.tabs[i].refreshing == Some(k);
    }
  }

  /** Ending a callback settles its tab's promise if it was that one's. */
  lemma EndedShares(b: Browser, b': Browser, k: nat)
    requires Shares(b) && k in b.tasks && b.tasks[k].tab in b.tabs
    requires OthersSame(b, b', b.tasks[k].tab) && Ended(b, b', k)
    ensures Shares(b')
  {
    forall i: TabId, j: nat | i in b'.tabs ensures Refreshes(b', j, i) <==> b'.tabs[i].refreshing == Some(j) {
      assert Refreshes(b, j, i) <==> b.tabs[i].refreshing == Some(j);
      assert Refreshes(b, k, i) <==> b.tabs[i].refreshing == Some(k);
    }
  }

  lemma CallsShare(b: Browser, i: TabId)
    requires Shares(b) && i in b.tabs && b.serial !in b.tasks
    ensures Shares(CallRefresh(b, i)) && Shares(CallLogout(b, i))
  {
    RefreshIsSharedOrQueued(b, i);
    LogoutStopsFirst(b, i);
    forall j: TabId, k: nat | j in b.tabs
      ensures Refreshes(CallRefresh(b, i), k, j) <==> CallRefresh(b, i).tabs[j].refreshing == Some(k)
      ensures Refreshes(CallLogout(b, i), k, j) <==> CallLogout(b, i).tabs[j].refreshing == Some(k)
    {
      assert Refreshes(b, k, j) <==> b.tabs[j].refreshing == Some(k);
      assert Refreshes(b, b.serial, j) <==> b.tabs[j].refreshing == Some(b.serial);
    }
  }

  lemma CallbacksShare(w: World, a: Action)
    requires Shares(w.b) && Enabled(w, a)
    requires a.LockGranted? || a.LockFailed? || a.RequestFailed? || a.Continued? || a.BodyRead?
    ensures Shares(Act(w, a).b)
  {
    var b, k := w.b, a.task;
    match a
    case LockGranted(_) =>
      GrantSendsTheCookie(b, k);
      if b.tasks[k].kind == LoggingOut || Current(b, k) { AlikeShares(b, Granted(b, k)); } else { EndedShares(b, Granted(b, k), k); }
    case LockFailed(_) =>
      FinishEnds(b, k);
      EndedShares(b, Finish(b, k), k);
    case RequestFailed(_) =>
      FailureIsCaught(b, k);
      EndedShares(b, Caught(b, k), k);
    case Continued(_) => ContinueShares(b, k);
    case BodyRead(_, body) => ParsedShares(w, k, body);
  }

  lemma ContinueShares(b: Browser, k: nat)
    requires Shares(b) && k in b.tasks && b.tasks[k].tab in b.tabs && b.tasks[k].stage.Arrived?
    ensures Shares(Continue(b, k))
  {
    if b.tasks[k].kind == LoggingOut {
      FinishEnds(b, k);
      EndedShares(b, Finish(b, k), k);
    } else {
      AnswerDecides(b, k);
      if Current(b, k) && b.tasks[k].stage.answer.Renewed? { AlikeShares(b, Continue(b, k)); }
      else { EndedShares(b, Continue(b, k), k); }
    }
  }

  lemma ParsedShares(w: World, k: nat, body: Body)
    requires Shares(w.b) && Enabled(w, BodyRead(k, body))
    ensures Shares(Parsed(w.b, k, body))
  {
    var b := w.b;
    if b.tasks[k].kind == Refreshing {
      BodyDecides(b, k, body);
      EndedShares(b, Parsed(b, k, body), k);
    } else {
      LogoutBody(b, k, body);
      EndedShares(b, Parsed(b, k, body), k);
    }
  }

  /** A logout reads no body; were it to, its callback would end all the same. */
  lemma LogoutBody(b: Browser, k: nat, body: Body)
    requires k in b.tasks && b.tasks[k].tab in b.tabs && b.tasks[k].kind == LoggingOut
    ensures OthersSame(b, Parsed(b, k, body), b.tasks[k].tab) && Ended(b, Parsed(b, k, body), k)
  {
    var i := b.tasks[k].tab;
    var b1 := Noticed(b, i);
    NoticedIs(b, i);
    FailureIsCaught(b, k);
    FailureIsCaught(b1, k);
    FinishEnds(b1, k);
    if body.Holding? { FinishEnds(b1.(tabs := b1.tabs[i := b1.tabs[i].(access := Some(body.access))]), k); }
  }

  lemma OpeningShares(b: Browser, i: TabId)
    requires Shares(b) && i !in b.tabs && forall k :: k in b.tasks ==> b.tasks[k].tab != i
    ensures Shares(b.(tabs := b.tabs[i := Tab(false, 0, None, None)]))
  {
    var b' := b.(tabs := b.tabs[i := Tab(false, 0, None, None)]);
    forall j: TabId, k: nat | j in b'.tabs ensures Refreshes(b', k, j) <==> b'.tabs[j].refreshing == Some(k) {
      if j != i { assert Refreshes(b, k, j) <==> b.tabs[j].refreshing == Some(k); }
    }
  }

  lemma ActShares(w: World, a: Action)
    requires Shares(w.b) && Orderly(w.b) && Enabled(w, a)
    ensures Shares(Act(w, a).b)
  {
    match a
    case StartRefresh(i) => CallsShare(w.b, i);
    case StartLogout(i) => CallsShare(w.b, i);
    case LockGranted(_) => CallbacksShare(w, a);
    case LockFailed(_) => CallbacksShare(w, a);
    case RequestFailed(_) => CallbacksShare(w, a);
    case Continued(_) => CallbacksShare(w, a);
    case BodyRead(_, _) => CallbacksShare(w, a);
    case OpenTab(i) => OpeningShares(w.b, i);
    case _ => AlikeShares(w.b, Act(w, a).b);
  }

  lemma NoTabsShare(b: Browser)
    requires b.tabs == map[]
    ensures Shares(b)
  {
  }

  lemma {:induction false} RunShares(ws: seq<World>, acts: seq<Action>, n: nat)
    requires Run(ws, acts) && n <= |acts|
    ensures Shares(ws[n].b)
  {
    if n == 0 {
      NoTabsShare(ws[0].b);
    } else {
      RunShares(ws, acts, n - 1);
      RunOrderly(ws, acts, n - 1);
      assert Steps(ws[n - 1], acts[n - 1], ws[n]);
      ActShares(ws[n - 1], acts[n - 1]);
    }
  }

  /** Over any run a tab's shared promise is its only refresh that is not over, so it has at most one, and none is left behind. */
  lemma OneRefreshPerTab(ws: seq<World>, acts: seq<Action>, n: nat, i: TabId, j: nat)
    requires Run(ws, acts) && n <= |acts| && i in ws[n].b.tabs
    ensures Refreshes(ws[n].b, j, i) ==> forall k: nat :: Refreshes(ws[n].b, k, i) ==> j == k
    ensures ws[n].b.tabs[i].refreshing.None? <==> forall k: nat :: !Refreshes(ws[n].b, k, i)
  {
    RunShares(ws, acts, n);
    if ws[n].b.tabs[i].refreshing.Some? { assert Refreshes(ws[n].b, ws[n].b.tabs[i].refreshing.value, i); }
  }

  // ---------------------------------------------------------------- whose token a tab holds

  /** This step reads a body with this token for a refresh of this tab. */
  predicate Reads(w: World, a: Action, i: TabId, access: int) {
    a.BodyRead? && a.body == Holding(access) && a.task in w.b.tasks && w.b.tasks[a.task].tab == i
  }

  predicate HeldBefore(b: Browser, b': Browser, i: TabId) {
    i in b'.tabs && b'.tabs[i].access.Some? ==>
      i in b.tabs && b.tabs[i].access == b'.tabs[i].access && b'.tabs[i].epoch == b.tabs[i].epoch
  }

  lemma EndingHolds(b: Browser, k: nat, i: TabId)
    requires k in b.tasks && b.tasks[k].tab in b.tabs
    ensures HeldBefore(b, Finish(b, k), i) && HeldBefore(b, Caught(b, k), i)
  {
  }

  lemma CallsHold(b: Browser, j: TabId, i: TabId)
    requires j in b.tabs
    ensures HeldBefore(b, CallRefresh(b, j), i) && HeldBefore(b, CallLogout(b, j), i) && HeldBefore(b, StopAll(b, j), i)
    ensures HeldBefore(b, Noticed(b, j), i)
  {
  }

  lemma GrantHolds(b: Browser, k: nat, i: TabId)
    requires k in b.tasks && b.tasks[k].tab in b.tabs
    ensures HeldBefore(b, Granted(b, k), i)
  {
    CallsHold(b, b.tasks[k].tab, i);
    EndingHolds(Noticed(b, b.tasks[k].tab), k, i);
  }

  lemma ContinueHolds(b: Browser, k: nat, i: TabId)
    requires k in b.tasks && b.tasks[k].tab in b.tabs && b.tasks[k].stage.Arrived?
    ensures HeldBefore(b, Continue(b, k), i)
  {
    var j := b.tasks[k].tab;
    var b1 := Noticed(b, j);
    CallsHold(b, j, i);
    EndingHolds(b, k, i);
    EndingHolds(b1, k, i);
    CallsHold(b1, j, i);
    EndingHolds(StopAll(b1, j), k, i);
  }

  lemma ParsedHolds(w: World, k: nat, body: Body, i: TabId)
    requires Enabled(w, BodyRead(k, body)) && i in Parsed(w.b, k, body).tabs && Parsed(w.b, k, body).tabs[i].access.Some?
    ensures HeldBefore(w.b, Parsed(w.b, k, body), i)
            || Reads(w, BodyRead(k, body), i, Parsed(w.b, k, body).tabs[i].access.value)
  {
    var b := w.b;
    var j := b.tasks[k].tab;
    var b1 := Noticed(b, j);
    CallsHold(b, j, i);
    EndingHolds(b, k, i);
    EndingHolds(b1, k, i);
  }

  /** A token a tab holds after a step it held before it, in the same epoch, or the step read it. */
  lemma TokensAreReadOrKept(w: World, a: Action, i: TabId)
    requires Enabled(w, a) && i in Act(w, a).b.tabs && Act(w, a).b.tabs[i].access.Some?
    ensures HeldBefore(w.b, Act(w, a).b, i) || Reads(w, a, i, Act(w, a).b.tabs[i].access.value)
  {
    match a
    case StartRefresh(j) => CallsHold(w.b, j, i);
    case StartLogout(j) => CallsHold(w.b, j, i);
    case GiveUp(j) => CallsHold(w.b, j, i);
    case LockGranted(k) => GrantHolds(w.b, k, i);
    case LockFailed(k) => EndingHolds(w.b, k, i);
    case RequestFailed(k) => EndingHolds(w.b, k, i);
    case Continued(k) => ContinueHolds(w.b, k, i);
    case BodyRead(k, body) => ParsedHolds(w, k, body, i);
    case _ =>
  }

  /** Over any run a token a tab holds is the one a body last gave it, and the tab has not been stopped since. */
  lemma {:induction false} HeldTokensWereRead(ws: seq<World>, acts: seq<Action>, n: nat, i: TabId)
    returns (m: nat)
    requires Run(ws, acts) && n <= |acts| && i in ws[n].b.tabs && ws[n].b.tabs[i].access.Some?
    ensures m < n && Reads(ws[m], acts[m], i, ws[n].b.tabs[i].access.value)
    ensures forall j :: m < j <= n ==>
              i in ws[j].b.tabs && ws[j].b.tabs[i].access == ws[n].b.tabs[i].access && ws[j].b.tabs[i].epoch == ws[n].b.tabs[i].epoch
  {
    assert n > 0;
    assert Steps(ws[n - 1], acts[n - 1], ws[n]);
    TokensAreReadOrKept(ws[n - 1], acts[n - 1], i);
    if HeldBefore(ws[n - 1].b, ws[n].b, i) {
      m := HeldTokensWereRead(ws, acts, n - 1, i);
    } else {
      m := n - 1;
    }
  }
}
