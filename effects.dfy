/** The vocabulary shared by the app shell's three pieces of control logic.

    Every call into a host capability (Capacitor's StatusBar, EdgeToEdge and
    PushNotifications plugins, Ionic's overlay controllers, the DOM, and the
    app's own UtilsService, RouterService and NetworkService) is an opaque
    `Effect`. A run of async code is described by the ordered list of effects
    it issues and by how it settles. */
module Effects {

  /** An opaque reference to an overlay element minted by an Ionic controller. */
  type Handle = nat

  datatype Option<T> = None | Some(value: T)

  /** The argument of an optional parameter: the default when it is omitted. */
  function OrDefault<T>(arg: Option<T>, default: T): (v: T)
    ensures arg.None? ==> v == default
    ensures arg.Some? ==> v == arg.value
  {
    match arg
    case None => default
    case Some(x) => x
  }

  /** Capacitor status-bar styles. */
  datatype Style = Dark | Light | Default

  /** The four push-notification events the app listens to. */
  datatype ListenerName =
    | Registration
    | RegistrationError
    | PushNotificationReceived
    | PushNotificationActionPerformed

  /** Capacitor's permission states: 'prompt', 'prompt-with-rationale', 'granted', 'denied'. */
  datatype PermissionState = Prompt | PromptWithRationale | Granted | Denied

  /** The colours `showToast` accepts: 'success', 'danger', 'warning'. */
  datatype ToastColor = Success | Danger | Warning

  /** An alert button: a bare label, or an opaque Ionic `AlertButton` object. */
  datatype AlertButton = Label(text: string) | ButtonObject(id: nat)

  /** A notification as the host reports it in its delivered list. */
  datatype Notification = Notification(id: string, title: string, body: string)

  datatype Effect =
    | DarkPaletteAdded                      // classList.add('ion-palette-dark')
    | SetOverlaysWebView(overlay: bool)     // StatusBar.setOverlaysWebView
    | SetStyle(style: Style)                // StatusBar.setStyle
    | EdgeToEdgeDisable                     // EdgeToEdge.disable
    | AddListener(name: ListenerName)       // PushNotifications.addListener
    | BackButtonReview                      // UtilsService.backButtonReview
    | GetRouterChanges                      // RouterService.getRouterChanges
    | InitializeNetworkEvents               // NetworkService.initializeNetworkEvents
    | CheckPermissions                      // PushNotifications.checkPermissions
    | RequestPermissions                    // PushNotifications.requestPermissions
    | Register                              // PushNotifications.register
    | GetDeliveredNotifications             // PushNotifications.getDeliveredNotifications
    | RemoveAllDeliveredNotifications       // PushNotifications.removeAllDeliveredNotifications
    | CreateLoading(handle: Handle, message: string, cssClass: string)
    | CreateToast(handle: Handle, message: string, color: ToastColor, duration: int, position: string)
    | CreateAlert(handle: Handle, message: string, buttons: seq<AlertButton>, mode: string)
    | Present(handle: Handle)
    | Dismiss(handle: Handle)

  /** Whether an effect is a call on an overlay handle (its `handle`). */
  predicate HasHandle(e: Effect)
  {
    e.CreateLoading? || e.CreateToast? || e.CreateAlert? || e.Present? || e.Dismiss?
  }

  /** One past the largest overlay handle occurring in `t`; 0 when there is none. */
  function HandleBound(t: seq<Effect>): (b: nat)
  {
    if t == [] then 0
    else
      var rest, e := HandleBound(t[..|t| - 1]), t[|t| - 1];
      if HasHandle(e) && rest <= e.handle then e.handle + 1 else rest
  }

  /** Appending one call raises the bound only to cover that call's handle. */
  lemma HandleBoundAppend(t: seq<Effect>, e: Effect)
    ensures HandleBound(t + [e]) ==
      if HasHandle(e) && HandleBound(t) <= e.handle then e.handle + 1 else HandleBound(t)
  {
    assert (t + [e])[..|t|] == t;
  }

  /** A call that carries no handle leaves the bound where it was. */
  lemma NoHandleKeepsBound(t: seq<Effect>, e: Effect)
    requires !HasHandle(e)
    ensures HandleBound(t + [e]) == HandleBound(t)
  {
    HandleBoundAppend(t, e);
  }

  /** Calls that carry no handle, however many, leave the bound where it was. */
  lemma {:induction false} NoHandlesKeepBound(t: seq<Effect>, s: seq<Effect>)
    requires forall e :: e in s ==> !HasHandle(e)
    ensures HandleBound(t + s) == HandleBound(t)
  {
    if s != [] {
      var init := s[..|s| - 1];
      assert forall e :: e in init ==> e in s;
      NoHandlesKeepBound(t, init);
      assert t + s == (t + init) + [s[|s| - 1]];
      NoHandleKeepsBound(t + init, s[|s| - 1]);
    } else {
      assert t + s == t;
    }
  }

  /** A handle at or above the bound is presented and dismissed nowhere in `t`. */
  lemma {:induction false} AboveBoundAbsent(t: seq<Effect>, h: Handle)
    requires HandleBound(t) <= h
    ensures Present(h) !in t && Dismiss(h) !in t
  {
    if t != [] {
      var init := t[..|t| - 1];
      assert HandleBound(init) <= HandleBound(t);
      AboveBoundAbsent(init, h);
      assert t == init + [t[|t| - 1]];
    }
  }

  /** Why a run failed: a host call rejected, or the code threw an `Error` itself. */
  datatype Error = Rejected(call: Effect) | Thrown(message: string)

  /** How an async method settles: it resolves, or it rejects with an error. */
  datatype Outcome = Done | Failed(error: Error)

  datatype Result<T> = Ok(value: T) | Err(error: Error)

  /** The effects a run issued, in order, and how it settled. */
  datatype Run = Run(trace: seq<Effect>, outcome: Outcome)

  /** How many times `e` was issued in `t`. */
  function Count(t: seq<Effect>, e: Effect): (n: nat)
    ensures n <= |t|
    ensures n == 0 <==> e !in t
  {
    if t == [] then 0 else (if t[0] == e then 1 else 0) + Count(t[1..], e)
  }

  lemma {:induction false} CountAppend(s: seq<Effect>, t: seq<Effect>, e: Effect)
    ensures Count(s + t, e) == Count(s, e) + Count(t, e)
  {
    if s == [] {
      assert s + t == t;
    } else {
      assert (s + t)[1..] == s[1..] + t;
      CountAppend(s[1..], t, e);
    }
  }

  /** One step of counting: the first call, then the rest. */
  lemma CountStep(t: seq<Effect>, e: Effect)
    requires t != []
    ensures Count(t, e) == (if t[0] == e then 1 else 0) + Count(t[1..], e)
  {
  }

  lemma CountSingle(x: Effect, e: Effect)
    ensures Count([x], e) == if x == e then 1 else 0
  {
    assert [x][1..] == [];
  }

  /** A prefix issues a call no more often than the whole sequence does. */
  lemma CountPrefix(s: seq<Effect>, k: nat, e: Effect)
    requires k <= |s|
    ensures Count(s[..k], e) <= Count(s, e)
  {
    assert s == s[..k] + s[k..];
    CountAppend(s[..k], s[k..], e);
  }

  /** The semantics of a straight run of `await`ed host calls with no
      try/catch: the calls are issued in order until the host rejects one. */
  function AwaitInOrder(calls: seq<Effect>, rejects: set<Effect>): (r: Run)
    ensures |r.trace| <= |calls|
    ensures calls != [] ==> r.trace != []
  {
    if calls == [] then Run([], Done)
    else if calls[0] in rejects then Run([calls[0]], Failed(Rejected(calls[0])))
    else
      var rest := AwaitInOrder(calls[1..], rejects);
      Run([calls[0]] + rest.trace, rest.outcome)
  }

  /** What `AwaitInOrder` means: the trace is a prefix of the calls; every
      call but the last one issued resolved; the run resolves exactly when
      every call was issued and none was rejected, and otherwise rejects
      with the error of the last call issued, which the host rejected. */
  lemma {:induction false} AwaitShape(calls: seq<Effect>, rejects: set<Effect>)
    ensures var r := AwaitInOrder(calls, rejects);
      |r.trace| <= |calls| && r.trace == calls[..|r.trace|] &&
      (forall i :: 0 <= i < |r.trace| - 1 ==> r.trace[i] !in rejects) &&
      (r.outcome == Done <==> r.trace == calls && forall c :: c in calls ==> c !in rejects) &&
      (r.outcome.Failed? ==>
        0 < |r.trace| && r.trace[|r.trace| - 1] in rejects && r.outcome == Failed(Rejected(r.trace[|r.trace| - 1])))
  {
    if calls != [] && calls[0] !in rejects {
      AwaitShape(calls[1..], rejects);
      assert calls == [calls[0]] + calls[1..];
    }
  }

  /** Awaiting calls that carry no handle leaves the log's handle bound where it was. */
  lemma AwaitKeepsBound(t: seq<Effect>, calls: seq<Effect>, rejects: set<Effect>)
    requires forall e :: e in calls ==> !HasHandle(e)
    ensures HandleBound(t + AwaitInOrder(calls, rejects).trace) == HandleBound(t)
  {
    var trace := AwaitInOrder(calls, rejects).trace;
    AwaitShape(calls, rejects);
    assert forall e :: e in trace ==> e in calls;
    NoHandlesKeepBound(t, trace);
  }

  /** One step of a run: the first call is issued; the rest follow only if it resolved. */
  lemma AwaitStep(calls: seq<Effect>, rejects: set<Effect>)
    requires calls != []
    ensures AwaitInOrder(calls, rejects) ==
      if calls[0] in rejects then Run([calls[0]], Failed(Rejected(calls[0])))
      else Run([calls[0]] + AwaitInOrder(calls[1..], rejects).trace, AwaitInOrder(calls[1..], rejects).outcome)
  {
  }

  /** With no rejection, every call is issued and the run resolves. */
  lemma AwaitAllResolve(calls: seq<Effect>, rejects: set<Effect>)
    requires forall c :: c in calls ==> c !in rejects
    ensures AwaitInOrder(calls, rejects) == Run(calls, Done)
  {
    AwaitShape(calls, rejects);
  }

  /** Runs one after the other: the second starts only if the first resolved. */
  function Then(first: Run, second: Run): (r: Run)
    ensures first.outcome != Done ==> r == first
    ensures first.outcome == Done ==> r.trace == first.trace + second.trace && r.outcome == second.outcome
  {
    if first.outcome == Done then Run(first.trace + second.trace, second.outcome) else first
  }

  /** Awaiting `a` then `b` is awaiting `a + b`: `b` starts only if `a` resolved. */
  lemma {:induction false} AwaitAppend(a: seq<Effect>, b: seq<Effect>, rejects: set<Effect>)
    ensures AwaitInOrder(a + b, rejects) ==
      if AwaitInOrder(a, rejects).outcome == Done
      then Run(a + AwaitInOrder(b, rejects).trace, AwaitInOrder(b, rejects).outcome)
      else AwaitInOrder(a, rejects)
  {
    if a == [] {
      assert a + b == b;
    } else if a[0] in rejects {
      assert (a + b)[0] == a[0];
    } else {
      assert (a + b)[0] == a[0] && (a + b)[1..] == a[1..] + b;
      AwaitAppend(a[1..], b, rejects);
      assert [a[0]] + (a[1..] + AwaitInOrder(b, rejects).trace) == a + AwaitInOrder(b, rejects).trace;
    }
  }

  /** Awaiting `a + b` is awaiting `a`, then `b`. */
  lemma AwaitThen(a: seq<Effect>, b: seq<Effect>, rejects: set<Effect>)
    ensures AwaitInOrder(a + b, rejects) == Then(AwaitInOrder(a, rejects), AwaitInOrder(b, rejects))
  {
    AwaitAppend(a, b, rejects);
    AwaitShape(a, rejects);
  }

  /** The run stops exactly at the first rejected call: nothing after it is issued. */
  lemma AwaitStopsAtFirstRejection(calls: seq<Effect>, rejects: set<Effect>, k: nat)
    requires k < |calls| && calls[k] in rejects
    requires forall i :: 0 <= i < k ==> calls[i] !in rejects
    ensures AwaitInOrder(calls, rejects) == Run(calls[..k + 1], Failed(Rejected(calls[k])))
  {
    AwaitShape(calls, rejects);
    assert calls[k] in calls;
  }

  /** A run issues each call at most as often as it is written. */
  lemma AwaitCountBound(calls: seq<Effect>, rejects: set<Effect>, e: Effect)
    ensures Count(AwaitInOrder(calls, rejects).trace, e) <= Count(calls, e)
  {
    AwaitShape(calls, rejects);
    CountPrefix(calls, |AwaitInOrder(calls, rejects).trace|, e);
  }
}
