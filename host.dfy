/** The native side the app shell calls through: Capacitor plugins, Ionic
    controllers and the DOM, seen only through what they are asked to do. */
module Capabilities {
  import opened Effects

  class Host {
    /** Every call issued so far, in order. */
    ghost var log: seq<Effect>
    /** The calls whose promise the host rejects (or that throw). */
    const rejects: set<Effect>
    /** The permission status `checkPermissions` reports. */
    var permission: PermissionState
    /** What the user answers when `requestPermissions` shows the system prompt. */
    const answer: PermissionState
    /** The notifications currently in the notification centre. */
    var delivered: seq<Notification>
    /** The next overlay handle a controller's `create` mints. */
    var nextHandle: Handle

    /** Every handle in the log was minted already, so a handle minted
        later occurs nowhere in it. */
    ghost predicate Valid()
      reads this
    {
      HandleBound(log) <= nextHandle
    }

    constructor (rejects: set<Effect>, permission: PermissionState, answer: PermissionState, delivered: seq<Notification>)
      ensures log == [] && nextHandle == 0 && Valid()
      ensures this.rejects == rejects && this.permission == permission
      ensures this.answer == answer && this.delivered == delivered
    {
      this.rejects := rejects;
      this.permission := permission;
      this.answer := answer;
      this.delivered := delivered;
      log := [];
      nextHandle := 0;
    }

    /** A synchronous effect with no failure path (a DOM class-list update). */
    method Apply(e: Effect)
      modifies this`log
      ensures log == old(log) + [e]
    {
      log := log + [e];
    }

    /** An awaited host call that carries no result: it resolves or rejects. */
    method Call(e: Effect) returns (ok: bool)
      modifies this`log
      ensures log == old(log) + [e]
      ensures ok <==> e !in rejects
    {
      log := log + [e];
      ok := e !in rejects;
    }

    /** An awaited call on an overlay handle already minted: the log keeps
        holding only minted handles. */
    method CallWithHandle(e: Effect) returns (ok: bool)
      requires Valid() && HasHandle(e) && e.handle < nextHandle
      modifies this`log
      ensures Valid() && log == old(log) + [e]
      ensures ok <==> e !in rejects
    {
      HandleBoundAppend(log, e);
      log := log + [e];
      ok := e !in rejects;
    }

    /** The element a controller's `create` builds, before the call is issued. */
    method Allocate() returns (h: Handle)
      requires Valid()
      modifies this`nextHandle
      ensures Valid() && h == old(nextHandle) && nextHandle == h + 1
      ensures HandleBound(log) <= h
    {
      h := nextHandle;
      nextHandle := nextHandle + 1;
    }

    method CheckPermissions() returns (r: Result<PermissionState>)
      modifies this`log
      ensures log == old(log) + [Effect.CheckPermissions]
      ensures r == if Effect.CheckPermissions in rejects then Err(Rejected(Effect.CheckPermissions)) else Ok(permission)
    {
      var ok := Call(Effect.CheckPermissions);
      r := if ok then Ok(permission) else Err(Rejected(Effect.CheckPermissions));
    }

    /** Shows the system prompt; the user's answer becomes the permission status. */
    method RequestPermissions() returns (r: Result<PermissionState>)
      modifies this`log, this`permission
      ensures log == old(log) + [Effect.RequestPermissions]
      ensures Effect.RequestPermissions in rejects ==>
        r == Err(Rejected(Effect.RequestPermissions)) && permission == old(permission)
      ensures Effect.RequestPermissions !in rejects ==> r == Ok(answer) && permission == answer
    {
      var ok := Call(Effect.RequestPermissions);
      if ok {
        permission := answer;
        r := Ok(answer);
      } else {
        r := Err(Rejected(Effect.RequestPermissions));
      }
    }

    method GetDeliveredNotifications() returns (r: Result<seq<Notification>>)
      modifies this`log
      ensures log == old(log) + [Effect.GetDeliveredNotifications]
      ensures r == if Effect.GetDeliveredNotifications in rejects
                   then Err(Rejected(Effect.GetDeliveredNotifications)) else Ok(delivered)
    {
      var ok := Call(Effect.GetDeliveredNotifications);
      r := if ok then Ok(delivered) else Err(Rejected(Effect.GetDeliveredNotifications));
    }

    method RemoveAllDeliveredNotifications() returns (o: Outcome)
      modifies this`log, this`delivered
      ensures log == old(log) + [Effect.RemoveAllDeliveredNotifications]
      ensures Effect.RemoveAllDeliveredNotifications in rejects ==>
        o == Failed(Rejected(Effect.RemoveAllDeliveredNotifications)) && delivered == old(delivered)
      ensures Effect.RemoveAllDeliveredNotifications !in rejects ==> o == Done && delivered == []
    {
      var ok := Call(Effect.RemoveAllDeliveredNotifications);
      if ok {
        delivered := [];
        o := Done;
      } else {
        o := Failed(Rejected(Effect.RemoveAllDeliveredNotifications));
      }
    }
  }
}
