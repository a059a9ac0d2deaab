# Ionic app shell: startup pipeline, push-notification gate, loading overlay

This project models in Dafny the control logic of three TypeScript templates
of an Ionic/Angular application shell, and proves properties of the model:

- **`AppComponent`** (`app-component-initial.ts`). The constructor adds
  the dark palette to the document, then hands a callback to
  `platform.ready()`. The callback configures the device chrome for the
  platform: overlay, dark style and edge-to-edge disable on iOS, or dark
  style on Android. It then awaits `addListeners()`, and last calls
  back-button, router and network monitoring, in that order.
- **`PushNotificationService`** (`push-notification.service.ts`).
  - `addListeners` awaits four `addListener` registrations in a fixed order.
  - `registerNotifications` checks permission, requests it only when the
    status is `'prompt'`, throws `User denied permissions!` unless the status
    is `'granted'`, and then calls `register`.
  - Three pass-throughs: `checkPermissions`, `getDeliveredNotifications` and
    `removeAllDeliveredNotifications`.
- **`UiService`** (`ui.service.ts`). One nullable `currentLoading` field.
  - `showLoading` overwrites it.
  - `dismissLoading` dismisses the remembered overlay and clears the field,
    only when the field is set.
  - `showToast` and `showAlert` never touch it.

Every call into a host capability is an opaque `Effect`. The capabilities
are the Capacitor StatusBar, EdgeToEdge and PushNotifications plugins, the
Ionic overlay controllers, the DOM, and the app's UtilsService,
RouterService and NetworkService.

The `Capabilities.Host` class records every issued call in a ghost `log`. A
call whose effect is in `Host.rejects` rejects (or throws), and every other
call resolves. Host state that the code reads is kept in fields: the
permission status, the user's answer to the permission prompt, the delivered
notifications, and the next overlay handle. `Host.Valid()` says that every
overlay handle in the log is below the next handle, so a newly created
overlay's handle has never been presented or dismissed. The plugin and DOM
calls carry no overlay handle and leave that bound unchanged
(`Effects.AwaitKeepsBound`, `PushNotification.RegisterKeepsBound`,
`App.StartupKeepsBound`), so services that share one host keep it valid;
`SharedHost.ListenersThenLoading` runs listener setup and then `showLoading`
on one host. Every method of the
model states how it extends the log, what it returns, and what it leaves in
its fields; `App.Launch` also states which platform, host and services the
component it returns holds.

The semantics of a straight run of awaited calls with no try/catch is the
function `Effects.AwaitInOrder`: the calls are issued in order, up to and
including the first one the host rejects. Its meaning is proved once in
`Effects.AwaitShape`, and the composition laws are `AwaitAppend` and
`AwaitThen`.

The startup is specified by `App.StartupTrace`: the dark palette, then, when
the platform becomes ready, the awaited run of `App.ReadyCalls`. That plan is
the platform's `App.ChromeCalls`, then `PushNotification.ListenerCalls` (the
four `addListener` registrations: 'registration', 'registrationError',
'pushNotificationReceived', 'pushNotificationActionPerformed'), then
`App.MonitorCalls` (back-button review, router changes, network events).
`registerNotifications` is specified by `PushNotification.RegisterRun`.

Most lemmas hold for all platforms, all permission states and all sets of
rejected calls. Four lemmas assume that none of their own calls is rejected:
`Effects.AwaitAllResolve`, `App.FullStartup`,
`PushNotification.ListenersInOrder` and `PushNotification.ListenersTwice`.
The scenario method `Ui.ReplaceThenDismiss` (with its helper method
`Ui.ShowLoadingAccepted`) assumes a host that rejects nothing at all. The failure cases are covered by
`App.StartupStopsAtFailure`, `PushNotification.ListenersStopAtRejection` and
`Effects.AwaitStopsAtFirstRejection`.

The code has no idempotence guard, no per-step failure isolation and no
dismiss-before-replace, so the model does not claim any of them:

- **No idempotence guard.** `addListeners` has no guard, and two calls
  register every listener twice (`ListenersTwice`).
- **No per-step failure isolation in the startup.** No step is wrapped in a
  try/catch, so the first failing call ends the callback
  (`StartupStopsAtFailure`, `ListenersStopAtRejection`).
- **No dismiss before replace.** A second `showLoading` overwrites the first
  overlay without dismissing it (`ShowLoading`, `ReplaceThenDismiss`).
- **Fixed monitoring order.** The three monitoring calls are made in a fixed
  order (`app-component-initial.ts` lines 66-72), and the model keeps it.

## Model

| member | source | states |
|---|---|---|
| Effects.AwaitInOrder | skills/ionic/angular/architecture/templates/app-component-initial.ts:43-73 | awaited calls issue no more calls than are written, and at least one when any is written |
| Effects.AwaitKeepsBound | skills/ionic/angular/architecture/templates/push-notification.service.ts:28-50 | awaiting calls that carry no overlay handle, however the run ends, leaves the log's handle bound unchanged |
| Effects.AboveBoundAbsent | skills/ionic/angular/architecture/templates/ui.service.ts:14-18 | a handle at or above the bound of a log is neither presented nor dismissed anywhere in it |
| Effects.AwaitShape | skills/ionic/angular/architecture/templates/app-component-initial.ts:43-73 | awaited calls with no try/catch: the trace is a prefix of the calls; every call but the last issued resolved; the run resolves iff every call was issued and none rejected; otherwise it fails with the last issued call, which the host rejected |
| Effects.AwaitAllResolve | skills/ionic/angular/architecture/templates/app-component-initial.ts:43-73 | when no call is rejected, every call is issued and the run resolves |
| Effects.AwaitAppend | skills/ionic/angular/architecture/templates/app-component-initial.ts:43-73 | awaiting a + b: b starts only if a resolved, and a failure in a is the whole run's failure |
| Effects.AwaitThen | skills/ionic/angular/architecture/templates/app-component-initial.ts:43-73 | awaiting a + b is the run of a followed by the run of b |
| Effects.AwaitStopsAtFirstRejection | skills/ionic/angular/architecture/templates/app-component-initial.ts:43-73 | the run ends at the first rejected call, with that call's error, and nothing after it is issued |
| Effects.AwaitCountBound | skills/ionic/angular/architecture/templates/push-notification.service.ts:28-50 | a run issues each call at most as often as the code writes it |
| Capabilities.Host.Apply | skills/ionic/angular/architecture/templates/app-component-initial.ts:81 | a synchronous DOM update is logged once and cannot fail |
| Capabilities.Host.Call | skills/ionic/angular/architecture/templates/app-component-initial.ts:51 | an awaited host call is logged once and resolves iff the host does not reject it |
| Capabilities.Host.Allocate | skills/ionic/angular/architecture/templates/ui.service.ts:14 | a controller's create mints the next handle; it is at or above the bound of every handle in the log, so no overlay call in the log uses it, and Host.Valid is kept |
| Capabilities.Host.CallWithHandle | skills/ionic/angular/architecture/templates/ui.service.ts:18 | an awaited overlay call on a minted handle is logged once, resolves iff the host does not reject it, and keeps Host.Valid |
| Capabilities.Host.CheckPermissions | skills/ionic/angular/architecture/templates/push-notification.service.ts:59 | one check call, returning the host's current status or its rejection |
| Capabilities.Host.RequestPermissions | skills/ionic/angular/architecture/templates/push-notification.service.ts:62 | one request call; on success the user's answer is returned and becomes the status |
| Capabilities.Host.GetDeliveredNotifications | skills/ionic/angular/architecture/templates/push-notification.service.ts:77 | one call, returning the host's delivered list or its rejection |
| Capabilities.Host.RemoveAllDeliveredNotifications | skills/ionic/angular/architecture/templates/push-notification.service.ts:86 | one call; on success the delivered list is empty, on rejection unchanged |
| PushNotification.RegisterRun | skills/ionic/angular/architecture/templates/push-notification.service.ts:58-70 | check comes first; requestPermissions happens exactly once iff the checked status is 'prompt' (and the check resolved); register happens at most once, iff the gate calls resolved and the final status is 'granted', and as the last call; a final status other than 'granted' fails with "User denied permissions!"; the run resolves iff register also resolved; a rejection carries the last call |
| PushNotification.RegisterKeepsBound | skills/ionic/angular/architecture/templates/push-notification.service.ts:58-70 | the permission gate and register, on every path, leave the log's handle bound unchanged |
| PushNotification.ListenersInOrder | skills/ionic/angular/architecture/templates/push-notification.service.ts:28-50 | with no rejection one addListeners issues exactly the four registrations, in source order, each once, and resolves |
| PushNotification.ListenerCount | skills/ionic/angular/architecture/templates/push-notification.service.ts:28-50 | each of the four event names occurs exactly once in the registration list |
| PushNotification.ListenersTwice | skills/ionic/angular/architecture/templates/push-notification.service.ts:28-50 | there is no guard: two calls register every event name twice |
| PushNotification.ListenersStopAtRejection | skills/ionic/angular/architecture/templates/push-notification.service.ts:28-50 | a rejected registration ends addListeners with its error, and no later registration is made |
| PushNotification.PushNotificationService.constructor | skills/ionic/angular/architecture/templates/push-notification.service.ts:22 | the service talks to the given plugin |
| PushNotification.PushNotificationService.AddListeners | skills/ionic/angular/architecture/templates/push-notification.service.ts:28-50 | the log is extended by the awaited run of the four registrations, and the result is its outcome |
| PushNotification.PushNotificationService.RegisterNotifications | skills/ionic/angular/architecture/templates/push-notification.service.ts:58-70 | the log and result are those of RegisterRun for the status the host held; the status changes to the user's answer iff it was 'prompt' and the gate calls went through |
| PushNotification.PushNotificationService.GetDeliveredNotifications | skills/ionic/angular/architecture/templates/push-notification.service.ts:76-80 | one host call; the host's delivered list is returned unchanged, or the rejection |
| PushNotification.PushNotificationService.RemoveAllDeliveredNotifications | skills/ionic/angular/architecture/templates/push-notification.service.ts:85-87 | exactly one clear call is issued; on success the delivered list is empty |
| PushNotification.PushNotificationService.CheckPermissions | skills/ionic/angular/architecture/templates/push-notification.service.ts:92-94 | one host call; the host's status is returned unchanged, or the rejection |
| Ui.AwaitCreateAndPresent | skills/ionic/angular/architecture/templates/ui.service.ts:13-19 | present is called only after create resolved; each failure ends the call with its error |
| Ui.FreshOverlay | skills/ionic/angular/architecture/templates/ui.service.ts:14-18 | an overlay under a handle the log has never presented or dismissed is, over the whole log, presented once iff its create resolved, and never dismissed |
| Ui.PairDismissesNothing | skills/ionic/angular/architecture/templates/ui.service.ts:29-46 | creating and presenting an overlay issues no dismiss call |
| Ui.PresentOnce | skills/ionic/angular/architecture/templates/ui.service.ts:13-19 | create is issued once, and present on the new handle exactly once iff create resolved |
| Ui.UiService.constructor | skills/ionic/angular/architecture/templates/ui.service.ts:10 | a fresh service holds no loading handle |
| Ui.UiService.ShowLoading | skills/ionic/angular/architecture/templates/ui.service.ts:13-19 | creates a loading overlay with the given message or 'Cargando...' and class 'custom-loading', then presents it; currentLoading becomes the new handle once create resolved, and otherwise stays as it was; it issues no dismiss call, and the new handle differs from the one it overwrites; over the whole log the new handle is presented once iff create resolved and is never dismissed |
| Ui.UiService.DismissLoading | skills/ionic/angular/architecture/templates/ui.service.ts:21-26 | with no handle: no call, nothing changes, resolves; with a handle: exactly one dismiss call on that handle, and the field is cleared iff the dismiss resolved |
| Ui.UiService.ShowToast | skills/ionic/angular/architecture/templates/ui.service.ts:29-37 | creates a toast with duration 2000, position 'top' and the given colour or 'success', then presents it; currentLoading unchanged |
| Ui.UiService.ShowAlert | skills/ionic/angular/architecture/templates/ui.service.ts:40-47 | creates an alert in mode 'md' with the given buttons or ['OK'], then presents it; currentLoading unchanged |
| Ui.ReplaceThenDismissCounts | skills/ionic/angular/architecture/templates/ui.service.ts:13-26 | in the calls of showLoading(x), showLoading(y), dismissLoading(), x's handle gets no dismiss and y's exactly one |
| Ui.ReplaceThenDismissWholeLog | skills/ionic/angular/architecture/templates/ui.service.ts:13-26 | behind a log with no dismiss of the two new handles, the whole log dismisses x's handle never and y's once |
| Ui.ShowLoadingAccepted | skills/ionic/angular/architecture/templates/ui.service.ts:13-19 | with a host that rejects nothing, showLoading creates and presents the next handle and remembers it |
| Ui.ReplaceThenDismiss | skills/ionic/angular/architecture/templates/ui.service.ts:13-26 | with a host that rejects nothing, x gets the next handle and y the one after; the three calls issue exactly create/present x, create/present y, dismiss y; no handle is left; over the whole log x's overlay is never dismissed and y's exactly once |
| App.StartupShape | skills/ionic/angular/architecture/templates/app-component-initial.ts:39-43 | the dark palette is the first call, and the only one when the platform never becomes ready; what follows is a prefix of the ready callback's plan |
| App.TraceAt | skills/ionic/angular/architecture/templates/app-component-initial.ts:39-73 | position j > 0 of the startup holds the plan's call j - 1, and the part of the startup before it is the palette and the plan's first j - 1 calls |
| App.FullStartup | skills/ionic/angular/architecture/templates/app-component-initial.ts:39-73 | with no failure the startup is exactly the dark palette followed by the whole plan, with each registration and each monitoring call exactly once |
| App.PlannedCount | skills/ionic/angular/architecture/templates/app-component-initial.ts:50-72 | a call that is neither the palette nor a chrome call occurs in the full startup as often as in the listener and monitoring lists |
| App.PlannedListenerOnce | skills/ionic/angular/architecture/templates/app-component-initial.ts:63 | each registration occurs exactly once in the full startup |
| App.PlannedMonitorOnce | skills/ionic/angular/architecture/templates/app-component-initial.ts:66-72 | each monitoring call occurs exactly once in the full startup |
| App.MonitorCount | skills/ionic/angular/architecture/templates/app-component-initial.ts:66-72 | each monitoring call occurs exactly once in the monitoring list |
| App.StartupStopsAtFailure | skills/ionic/angular/architecture/templates/app-component-initial.ts:43-73 | no try/catch: the startup ends with the first failing call of the callback, and the callback fails with its error |
| App.IosChromeBeforeListeners | skills/ionic/angular/architecture/templates/app-component-initial.ts:50-63 | on iOS the chrome calls are overlay(true), style Dark and edge-to-edge disable, at positions 1, 2 and 3, and every registration comes after all three |
| App.IosChromeAt | skills/ionic/angular/architecture/templates/app-component-initial.ts:50-54 | on iOS a chrome call at position j is the (j-1)-th call of the iOS branch |
| App.IosListenerAt | skills/ionic/angular/architecture/templates/app-component-initial.ts:50-63 | on iOS a registration sits behind all three chrome calls |
| App.AndroidOnlySetStyle | skills/ionic/angular/architecture/templates/app-component-initial.ts:57-60 | on Android the only chrome call is style Dark, made at most once, and made first when the platform is ready |
| App.OtherNoChrome | skills/ionic/angular/architecture/templates/app-component-initial.ts:50-60 | on any other platform no status-bar or edge-to-edge call occurs |
| App.ChromeStyleCount | skills/ionic/angular/architecture/templates/app-component-initial.ts:50-60 | the dark style is in the iOS and in the Android branch once, and in neither otherwise |
| App.PlanStyleCount | skills/ionic/angular/architecture/templates/app-component-initial.ts:50-72 | the whole plan sets the dark style once on iOS and on Android, and never on other platforms |
| App.StyleCountBound | skills/ionic/angular/architecture/templates/app-component-initial.ts:50-72 | every prefix of the startup plan, behind the palette, sets the dark style at most once |
| App.ChromeCallOnce | skills/ionic/angular/architecture/templates/app-component-initial.ts:50-60 | the two branches never both run: the dark style is set at most once, an overlay or edge-to-edge call means iOS, and a style call means iOS or Android |
| App.ChromeCallsMeanPlatform | skills/ionic/angular/architecture/templates/app-component-initial.ts:50-60 | an overlay or edge-to-edge call in the startup means iOS; a style call means iOS or Android |
| App.ChromeCallIsPlanned | skills/ionic/angular/architecture/templates/app-component-initial.ts:50-60 | every chrome call in the startup belongs to the platform's own branch |
| App.MonitorsAfterListeners | skills/ionic/angular/architecture/templates/app-component-initial.ts:63-72 | a monitoring call is preceded exactly by the palette, the chrome branch, all four registrations and the earlier monitoring calls, in that order |
| App.MonitorAt | skills/ionic/angular/architecture/templates/app-component-initial.ts:63-72 | the same for one monitoring call at one position |
| App.ReadyRun | skills/ionic/angular/architecture/templates/app-component-initial.ts:43-73 | running chrome, then listeners, then monitoring, each only after the previous one resolved, is awaiting the whole plan |
| App.PlanCarriesNoHandle | skills/ionic/angular/architecture/templates/app-component-initial.ts:50-72 | no call of the ready callback's plan is an overlay call |
| App.StartupKeepsBound | skills/ionic/angular/architecture/templates/app-component-initial.ts:39-73 | the whole startup, ready or not and however it fails, leaves the log's handle bound unchanged |
| App.AppComponent.constructor | skills/ionic/angular/architecture/templates/app-component-initial.ts:39-43 | constructing the component adds the dark palette and nothing else before the ready wait |
| App.AppComponent.InitializeDarkMode | skills/ionic/angular/architecture/templates/app-component-initial.ts:80-82 | one DOM update adding the dark palette |
| App.AppComponent.OnReady | skills/ionic/angular/architecture/templates/app-component-initial.ts:43-73 | the callback's log and outcome are the chrome run, then the listener run, then the monitoring run, each only after the one before resolved |
| App.AppComponent.ConfigureDeviceChrome | skills/ionic/angular/architecture/templates/app-component-initial.ts:50-60 | the two platform tests issue exactly the awaited run of the platform's chrome calls |
| App.AppComponent.StartMonitoring | skills/ionic/angular/architecture/templates/app-component-initial.ts:66-72 | back-button, router and network calls, in that order, up to the first that throws |
| App.Launch | skills/ionic/angular/architecture/templates/app-component-initial.ts:39-73 | construction plus the ready callback, if the platform becomes ready, extends the log by exactly StartupTrace; the component holds the given platform, host and push service; the log's handle bound is unchanged |
| SharedHost.ListenersThenLoading | skills/ionic/angular/architecture/templates/ui.service.ts:13-19 | on a host shared with the push service, addListeners followed by showLoading extends the log by the listener run and then the create/present run of the next handle, takes that handle, remembers it iff its create resolved, returns how the create/present pair settled, and the UiService stays valid |

## Left out

- Angular dependency injection, decorators and component metadata are
  wiring only. Services are passed to constructors instead.
- Capacitor, Ionic, the DOM, UtilsService, RouterService and NetworkService
  are foreign code. Each call into them is one opaque `Effect`, and their
  internals are not modelled. Of their results, the model keeps only the
  permission status, the delivered list and the created overlay's handle.
- The set of rejected calls, `Host.rejects`, is fixed for the host's
  lifetime, so a call the host rejects once it rejects every time. A host
  that fails a call once and accepts the same call later (a second
  `addListeners` after a failed first one, say) is outside the model.
- Handler bodies of the four listeners (console logging and TODOs) and the
  console log in `getDeliveredNotifications` are not modelled.
- Promise scheduling and interleaving are not modelled. Each async method
  runs as one atomic sequential step, so two overlapping `showLoading`
  calls racing between `create` and `present` are outside the model.
- A host promise that never settles (a `setStyle` or `addListener` that
  hangs) is not modelled. Every host call either resolves or rejects, and
  the only other suspension is `platform.ready()`, below.
- The `platform.ready()` promise is not modelled. Whether it ever resolves
  is the `ready` parameter of `App.Launch` and `App.StartupTrace`.
- `Capacitor.getPlatform()` is modelled as the closed `PlatformKind`
  (`IOS`, `Android`, `Other`), fixed for the component's lifetime.
- App.AppComponent.StartMonitoring: the three monitoring calls are not
  awaited in the code. A call in `Host.rejects` is read as one that throws
  synchronously, which does stop the callback. A promise that one of them
  returns and that rejects later would not stop the callback; the model
  does not capture that case.
- Capabilities.Host.RequestPermissions: the status after the prompt is the
  user's answer, held as a host constant, since the real prompt is outside
  the model.
- Capabilities.Host.Allocate: the handle is taken before `create` is issued,
  so a rejected `create` still uses up a handle number. Only the handle's
  identity matters to the model, not its value.
- Permission and notification results are modelled by their content only:
  the `receive` field of a permission status, and the list of delivered
  notifications.
- Ui.UiService.ShowToast: `return await toast.present()` returns the
  present call's settled value. The model returns only how it settled.

