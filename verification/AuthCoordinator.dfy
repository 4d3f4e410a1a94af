/**
 One tab's coordinator as the object its page holds, beside what its origin
 shares: the cookie, the stop flag, the lock, and the callbacks given to it.
 */
module AuthCoordinators {
  import opened Prelude
  import opened Refresh
  import C = Coordinator

  class Origin {
    var cookie: Option<Hash>
    var saves: bool
    var stop: bool
    var told: bool
    var holder: Option<nat>
    var tasks: map<nat, C.Task>
    var serial: nat

    constructor (cookie: Option<Hash>, saves: bool)
      ensures this.cookie == cookie && this.saves == saves && !stop && !told && holder.None? && tasks == map[] && serial == 0
    {
      this.cookie, this.saves, stop, told, holder, tasks, serial := cookie, saves, false, false, None, map[], 0;
    }
  }

  class AuthCoordinator {
    const id: C.TabId
    const origin: Origin
    var accessToken: Option<int>
    var refreshing: Option<nat>
    var stopped: bool
    var epoch: nat

    /** The origin as this tab sees it. */
    ghost function View(): C.Browser
      reads this, origin
    {
      C.Browser(origin.cookie, origin.saves, origin.stop, origin.told, origin.holder,
                map[id := C.Tab(stopped, epoch, accessToken, refreshing)], origin.tasks, origin.serial)
    }

    constructor (id: C.TabId, origin: Origin)
      ensures this.origin == origin && this.id == id
      ensures View().tabs == map[id := C.Tab(false, 0, None, None)]
    {
      this.id, this.origin := id, origin;
      accessToken, refreshing, stopped, epoch := None, None, false, 0;
    }

    method Stop(broadcast: bool)
      modifies this, origin
      ensures broadcast ==> View() == C.StopAll(old(View()), id)
      ensures !broadcast ==> View() == old(View()).(tabs := map[id := C.StopTab(old(View()).tabs[id])])
    {
      stopped := true;
      epoch := epoch + 1;
      accessToken := None;
      if broadcast {
        if origin.saves { origin.stop := true; }
        origin.told := true;
      }
    }

    method Allowed() returns (ok: bool)
      modifies this, origin
      ensures View() == C.Noticed(old(View()), id) && ok == !stopped
    {
      if origin.stop && !stopped { Stop(false); }
      ok := !stopped;
    }

    method Refresh()
      modifies this, origin
      ensures View() == C.CallRefresh(old(View()), id)
    {
      var ok := Allowed();
      if !ok || refreshing.Some? { return; }
      origin.tasks := origin.tasks[origin.serial := C.Task(id, C.Refreshing, epoch, C.Queued, None, None)];
      refreshing := Some(origin.serial);
      origin.serial := origin.serial + 1;
    }

    method Logout()
      modifies this, origin
      ensures View() == C.CallLogout(old(View()), id)
    {
      Stop(true);
      origin.tasks := origin.tasks[origin.serial := C.Task(id, C.LoggingOut, epoch, C.Queued, None, None)];
      origin.serial := origin.serial + 1;
    }

    /** The callback has returned or thrown: the lock is free and the promise settled. */
    method Finish(k: nat)
      requires k in origin.tasks && origin.tasks[k].tab == id
      modifies this, origin
      ensures View() == C.Finish(old(View()), k)
    {
      if origin.holder == Some(k) { origin.holder := None; }
      origin.tasks := origin.tasks[k := origin.tasks[k].(stage := C.Over)];
      if refreshing == Some(k) { refreshing := None; }
    }

    method Catch(k: nat)
      requires k in origin.tasks && origin.tasks[k].tab == id
      modifies this, origin
      ensures View() == C.Caught(old(View()), k)
    {
      if origin.tasks[k].kind == C.Refreshing && origin.tasks[k].epoch == epoch { Stop(true); }
      Finish(k);
    }

    method OnLock(k: nat)
      requires k in origin.tasks && origin.tasks[k].tab == id && origin.holder.None?
      modifies this, origin
      ensures View() == C.Granted(old(View()), k)
    {
      if origin.tasks[k].kind == C.Refreshing {
        var ok := Allowed();
        if !ok || origin.tasks[k].epoch != epoch {
          Finish(k);
          return;
        }
      }
      origin.holder := Some(k);
      origin.tasks := origin.tasks[k := origin.tasks[k].(stage := C.Sent, presented := Some(origin.cookie))];
    }

    method OnResponse(k: nat)
      requires k in origin.tasks && origin.tasks[k].tab == id && origin.tasks[k].stage.Arrived?
      modifies this, origin
      ensures View() == C.Continue(old(View()), k)
    {
      if origin.tasks[k].kind == C.LoggingOut {
        Finish(k);
        return;
      }
      var ok := Allowed();
      if !ok || origin.tasks[k].epoch != epoch {
        Finish(k);
      } else if origin.tasks[k].stage.answer.Cleared? {
        Stop(true);
        Finish(k);
      } else if origin.tasks[k].stage.answer.Unchanged? {
        Catch(k);
      } else {
        origin.tasks := origin.tasks[k := origin.tasks[k].(stage := C.Parsing)];
      }
    }

    method OnBody(k: nat, body: C.Body)
      requires k in origin.tasks && origin.tasks[k].tab == id
      modifies this, origin
      ensures View() == C.Parsed(old(View()), k, body)
    {
      if body.NoJson? {
        Catch(k);
        return;
      }
      var ok := Allowed();
      if ok && origin.tasks[k].epoch == epoch {
        if body.NoToken? {
          Catch(k);
          return;
        }
        accessToken := Some(body.access);
      }
      Finish(k);
    }
  }
}
