/** `AppComponent`: the startup pipeline. The constructor adds the dark
    palette, then hands a callback to `platform.ready()`; the callback runs
    the platform's device-chrome branch, awaits listener setup, and starts
    back-button, router and network monitoring. */
module App {
  import opened Effects
  import opened Capabilities
  import opened PushNotification

  /** What `Capacitor.getPlatform()` reports: 'ios', 'android', or anything else. */
  datatype PlatformKind = IOS | Android | Other

  /** A status-bar or edge-to-edge call. */
  predicate IsChromeCall(e: Effect)
  {
    e.SetOverlaysWebView? || e.SetStyle? || e.EdgeToEdgeDisable?
  }

  /** The device-chrome calls of each platform branch, in the order awaited. */
  function ChromeCalls(p: PlatformKind): (c: seq<Effect>)
  {
    match p
    case IOS => [SetOverlaysWebView(true), SetStyle(Dark), EdgeToEdgeDisable]
    case Android => [SetStyle(Dark)]
    case Other => []
  }

  /** The three monitoring calls made after listener setup. */
  const MonitorCalls: seq<Effect> := [BackButtonReview, GetRouterChanges, InitializeNetworkEvents]

  /** Everything the ready callback issues when nothing fails. */
  function ReadyCalls(p: PlatformKind): (calls: seq<Effect>)
  {
    ChromeCalls(p) + ListenerCalls + MonitorCalls
  }

  /** The calls of the whole startup: the dark palette first, then, only if
      the platform becomes ready, the ready callback up to its first failure. */
  function StartupTrace(p: PlatformKind, ready: bool, rejects: set<Effect>): (t: seq<Effect>)
  {
    [DarkPaletteAdded] + if ready then AwaitInOrder(ReadyCalls(p), rejects).trace else []
  }

  /** The dark palette comes first, even when the platform never becomes
      ready; everything after it is a prefix of the ready callback's plan. */
  lemma StartupShape(p: PlatformKind, ready: bool, rejects: set<Effect>)
    ensures var t := StartupTrace(p, ready, rejects);
      0 < |t| && t[0] == DarkPaletteAdded &&
      (!ready ==> t == [DarkPaletteAdded]) &&
      (ready ==> 1 < |t|) &&
      |t| <= 1 + |ReadyCalls(p)| &&
      t == [DarkPaletteAdded] + ReadyCalls(p)[..|t| - 1]
  {
    if ready {
      AwaitShape(ReadyCalls(p), rejects);
    }
  }

  /** Position j > 0 of the startup trace holds call j - 1 of the plan. */
  lemma TraceAt(p: PlatformKind, ready: bool, rejects: set<Effect>, j: nat)
    requires 0 < j < |StartupTrace(p, ready, rejects)|
    ensures j - 1 < |ReadyCalls(p)| && StartupTrace(p, ready, rejects)[j] == ReadyCalls(p)[j - 1]
    ensures StartupTrace(p, ready, rejects)[..j] == [DarkPaletteAdded] + ReadyCalls(p)[..j - 1]
  {
    StartupShape(p, ready, rejects);
  }

  /** Where each call sits in `ReadyCalls(p)`: chrome, then the four
      listeners, then the three monitors. */
  lemma ReadyCallAt(p: PlatformKind, k: nat)
    requires k < |ReadyCalls(p)|
    ensures |ReadyCalls(p)| == |ChromeCalls(p)| + 7
    ensures var c := |ChromeCalls(p)|;
      ReadyCalls(p)[k] ==
        if k < c then ChromeCalls(p)[k]
        else if k < c + 4 then ListenerCalls[k - c]
        else MonitorCalls[k - c - 4]
  {
  }

  /** When no call fails, the startup issues exactly the planned calls, each
      listener and each monitor once. */
  lemma FullStartup(p: PlatformKind, rejects: set<Effect>)
    requires forall c :: c in ReadyCalls(p) ==> c !in rejects
    ensures StartupTrace(p, true, rejects) == [DarkPaletteAdded] + ReadyCalls(p)
    ensures forall n: ListenerName :: Count(StartupTrace(p, true, rejects), AddListener(n)) == 1
    ensures forall m :: m in MonitorCalls ==> Count(StartupTrace(p, true, rejects), m) == 1
  {
    AwaitAllResolve(ReadyCalls(p), rejects);
    assert AwaitInOrder(ReadyCalls(p), rejects).trace == ReadyCalls(p);
    forall n: ListenerName ensures Count([DarkPaletteAdded] + ReadyCalls(p), AddListener(n)) == 1 {
      PlannedListenerOnce(p, n);
    }
    forall m | m in MonitorCalls ensures Count([DarkPaletteAdded] + ReadyCalls(p), m) == 1 {
      PlannedMonitorOnce(p, m);
    }
  }

  lemma PlannedListenerOnce(p: PlatformKind, n: ListenerName)
    ensures Count([DarkPaletteAdded] + ReadyCalls(p), AddListener(n)) == 1
  {
    PlannedCount(p, AddListener(n));
    ListenerCount(n);
    ListenerNotMonitor(n);
  }

  lemma ListenerNotMonitor(n: ListenerName)
    ensures Count(MonitorCalls, AddListener(n)) == 0
  {
  }

  lemma MonitorNotListener(m: Effect)
    requires m in MonitorCalls
    ensures Count(ListenerCalls, m) == 0
  {
  }

  lemma PlannedMonitorOnce(p: PlatformKind, m: Effect)
    requires m in MonitorCalls
    ensures Count([DarkPaletteAdded] + ReadyCalls(p), m) == 1
  {
    MonitorNotChrome(m);
    PlannedCount(p, m);
    MonitorCount(m);
    MonitorNotListener(m);
  }

  lemma MonitorNotChrome(m: Effect)
    requires m in MonitorCalls
    ensures m != DarkPaletteAdded && !IsChromeCall(m)
  {
  }

  /** A call that is neither the dark palette nor a chrome call is issued by
      the full plan as often as the listener and monitor lists issue it. */
  lemma PlannedCount(p: PlatformKind, e: Effect)
    requires e != DarkPaletteAdded && !IsChromeCall(e)
    ensures Count([DarkPaletteAdded] + ReadyCalls(p), e) == Count(ListenerCalls, e) + Count(MonitorCalls, e)
  {
    CountAppend([DarkPaletteAdded], ReadyCalls(p), e);
    CountSingle(DarkPaletteAdded, e);
    CountAppend(ChromeCalls(p) + ListenerCalls, MonitorCalls, e);
    CountAppend(ChromeCalls(p), ListenerCalls, e);
    assert e !in ChromeCalls(p);
  }

  lemma MonitorCount(m: Effect)
    requires m in MonitorCalls
    ensures Count(MonitorCalls, m) == 1
  {
    var M := MonitorCalls;
    CountStep(M, m);
    CountStep(M[1..], m);
    CountStep(M[2..], m);
    assert M[1..][1..] == M[2..] && M[2..][1..] == [];
  }

  /** No try/catch: the first failing call of the ready callback is the last
      call of the startup; no later step runs. */
  lemma StartupStopsAtFailure(p: PlatformKind, rejects: set<Effect>, k: nat)
    requires k < |ReadyCalls(p)| && ReadyCalls(p)[k] in rejects
    requires forall i :: 0 <= i < k ==> ReadyCalls(p)[i] !in rejects
    ensures StartupTrace(p, true, rejects) == [DarkPaletteAdded] + ReadyCalls(p)[..k + 1]
    ensures AwaitInOrder(ReadyCalls(p), rejects).outcome == Failed(Rejected(ReadyCalls(p)[k]))
  {
    AwaitStopsAtFirstRejection(ReadyCalls(p), rejects, k);
  }

  /** On iOS the chrome calls are the overlay, the dark style and the
      edge-to-edge disable, in that order at positions 1 to 3, and every
      listener registration comes after all three. */
  lemma IosChromeBeforeListeners(ready: bool, rejects: set<Effect>)
    ensures var t := StartupTrace(IOS, ready, rejects);
      (forall j :: 0 <= j < |t| && IsChromeCall(t[j]) ==> 1 <= j <= 3 && t[j] == ChromeCalls(IOS)[j - 1]) &&
      (forall j :: 0 <= j < |t| && t[j].AddListener? ==> 4 <= j && t[1..4] == ChromeCalls(IOS))
  {
    var t := StartupTrace(IOS, ready, rejects);
    forall j | 0 <= j < |t| && IsChromeCall(t[j]) ensures 1 <= j <= 3 && t[j] == ChromeCalls(IOS)[j - 1] {
      IosChromeAt(ready, rejects, j);
    }
    forall j | 0 <= j < |t| && t[j].AddListener? ensures 4 <= j && t[1..4] == ChromeCalls(IOS) {
      IosListenerAt(ready, rejects, j);
    }
  }

  lemma IosChromeAt(ready: bool, rejects: set<Effect>, j: nat)
    requires j < |StartupTrace(IOS, ready, rejects)| && IsChromeCall(StartupTrace(IOS, ready, rejects)[j])
    ensures 1 <= j <= 3 && StartupTrace(IOS, ready, rejects)[j] == ChromeCalls(IOS)[j - 1]
  {
    StartupShape(IOS, ready, rejects);
    ReadyCallAt(IOS, j - 1);
  }

  lemma IosListenerAt(ready: bool, rejects: set<Effect>, j: nat)
    requires j < |StartupTrace(IOS, ready, rejects)| && StartupTrace(IOS, ready, rejects)[j].AddListener?
    ensures 4 <= j && StartupTrace(IOS, ready, rejects)[1..4] == ChromeCalls(IOS)
  {
    var t := StartupTrace(IOS, ready, rejects);
    StartupShape(IOS, ready, rejects);
    ReadyCallAt(IOS, j - 1);
    assert t[1..4] == ReadyCalls(IOS)[..3];
    assert ReadyCalls(IOS)[..3] == ChromeCalls(IOS);
  }

  /** On Android the only chrome call is one dark-style call, made first:
      no overlay and no edge-to-edge call. */
  lemma AndroidOnlySetStyle(ready: bool, rejects: set<Effect>)
    ensures var t := StartupTrace(Android, ready, rejects);
      (forall e :: e in t && IsChromeCall(e) ==> e == SetStyle(Dark)) &&
      Count(t, SetStyle(Dark)) <= 1 &&
      (ready ==> |t| > 1 && t[1] == SetStyle(Dark))
  {
    var t := StartupTrace(Android, ready, rejects);
    forall e | e in t ensures IsChromeCall(e) ==> e == SetStyle(Dark) {
      ChromeCallIsPlanned(Android, ready, rejects, e);
    }
    if ready {
      StartupShape(Android, ready, rejects);
      ReadyCallAt(Android, 0);
    }
    ChromeCallOnce(Android, ready, rejects);
  }

  /** On any other platform no status-bar or edge-to-edge call is made. */
  lemma OtherNoChrome(ready: bool, rejects: set<Effect>)
    ensures forall e :: e in StartupTrace(Other, ready, rejects) ==> !IsChromeCall(e)
  {
    forall e | e in StartupTrace(Other, ready, rejects) ensures !IsChromeCall(e) {
      ChromeCallIsPlanned(Other, ready, rejects, e);
    }
  }

  /** The dark style appears once in the iOS and the Android branch and not
      at all otherwise. */
  lemma ChromeStyleCount(p: PlatformKind)
    ensures Count(ChromeCalls(p), SetStyle(Dark)) == if p == Other then 0 else 1
  {
    var e, C := SetStyle(Dark), ChromeCalls(p);
    if p == IOS {
      CountStep(C, e);
      CountStep(C[1..], e);
      CountStep(C[2..], e);
      assert C[1..][1..] == C[2..] && C[2..][1..] == [];
    } else if p == Android {
      CountSingle(SetStyle(Dark), e);
    }
  }

  /** The iOS and Android branches never both run: the dark style is set at
      most once, an overlay or edge-to-edge call means iOS, and a style call
      means iOS or Android. */
  lemma ChromeCallOnce(p: PlatformKind, ready: bool, rejects: set<Effect>)
    ensures var t := StartupTrace(p, ready, rejects);
      Count(t, SetStyle(Dark)) <= 1 &&
      (SetOverlaysWebView(true) in t || EdgeToEdgeDisable in t ==> p == IOS) &&
      (SetStyle(Dark) in t ==> p != Other)
  {
    var t := StartupTrace(p, ready, rejects);
    StartupShape(p, ready, rejects);
    StyleCountBound(p, |t| - 1);
    ChromeCallsMeanPlatform(p, ready, rejects);
  }

  lemma ChromeCallsMeanPlatform(p: PlatformKind, ready: bool, rejects: set<Effect>)
    ensures var t := StartupTrace(p, ready, rejects);
      (SetOverlaysWebView(true) in t || EdgeToEdgeDisable in t ==> p == IOS) &&
      (SetStyle(Dark) in t ==> p != Other)
  {
    var t := StartupTrace(p, ready, rejects);
    forall c | c in t ensures IsChromeCall(c) ==> (!c.SetStyle? ==> p == IOS) && p != Other {
      ChromeCallIsPlanned(p, ready, rejects, c);
    }
  }

  /** A chrome call in the startup trace is one of the platform's own. */
  lemma ChromeCallIsPlanned(p: PlatformKind, ready: bool, rejects: set<Effect>, c: Effect)
    requires c in StartupTrace(p, ready, rejects)
    ensures IsChromeCall(c) ==> c in ChromeCalls(p)
  {
    var t := StartupTrace(p, ready, rejects);
    var j :| 0 <= j < |t| && t[j] == c;
    if j > 0 {
      TraceAt(p, ready, rejects, j);
      PlanChromeAt(p, j - 1);
    }
  }

  /** The chrome calls of the plan all sit in its chrome part. */
  lemma PlanChromeAt(p: PlatformKind, k: nat)
    requires k < |ReadyCalls(p)|
    ensures IsChromeCall(ReadyCalls(p)[k]) ==> ReadyCalls(p)[k] in ChromeCalls(p)
  {
    ReadyCallAt(p, k);
  }

  /** Any prefix of the plan, behind the dark palette, sets the dark style at most once. */
  lemma StyleCountBound(p: PlatformKind, n: nat)
    requires n <= |ReadyCalls(p)|
    ensures Count([DarkPaletteAdded] + ReadyCalls(p)[..n], SetStyle(Dark)) <= 1
  {
    var e := SetStyle(Dark);
    CountAppend([DarkPaletteAdded], ReadyCalls(p)[..n], e);
    CountSingle(DarkPaletteAdded, e);
    CountPrefix(ReadyCalls(p), n, e);
    PlanStyleCount(p);
  }

  /** The whole plan sets the dark style once on iOS and Android, never elsewhere. */
  lemma PlanStyleCount(p: PlatformKind)
    ensures Count(ReadyCalls(p), SetStyle(Dark)) == if p == Other then 0 else 1
  {
    var e := SetStyle(Dark);
    CountAppend(ChromeCalls(p) + ListenerCalls, MonitorCalls, e);
    CountAppend(ChromeCalls(p), ListenerCalls, e);
    assert e !in ListenerCalls && e !in MonitorCalls;
    ChromeStyleCount(p);
  }

  /** A monitoring step runs only after the chrome branch, all four listener
      registrations and the monitoring steps before it, each exactly once. */
  lemma MonitorsAfterListeners(p: PlatformKind, ready: bool, rejects: set<Effect>)
    ensures var t := StartupTrace(p, ready, rejects);
      forall i, j :: 0 <= i < 3 && 0 <= j < |t| && t[j] == MonitorCalls[i] ==>
        t[..j] == [DarkPaletteAdded] + ChromeCalls(p) + ListenerCalls + MonitorCalls[..i]
  {
    var t := StartupTrace(p, ready, rejects);
    forall i, j | 0 <= i < 3 && 0 <= j < |t| && t[j] == MonitorCalls[i]
      ensures t[..j] == [DarkPaletteAdded] + ChromeCalls(p) + ListenerCalls + MonitorCalls[..i]
    {
      MonitorAt(p, ready, rejects, i, j);
    }
  }

  lemma MonitorAt(p: PlatformKind, ready: bool, rejects: set<Effect>, i: nat, j: nat)
    requires i < 3 && j < |StartupTrace(p, ready, rejects)|
    requires StartupTrace(p, ready, rejects)[j] == MonitorCalls[i]
    ensures StartupTrace(p, ready, rejects)[..j] ==
      [DarkPaletteAdded] + ChromeCalls(p) + ListenerCalls + MonitorCalls[..i]
  {
    TraceAt(p, ready, rejects, j);
    MonitorPosition(p, j - 1, i);
    PlanPrefix(p, i);
  }

  /** The i-th monitoring step sits only behind the chrome calls and the four listeners. */
  lemma MonitorPosition(p: PlatformKind, k: nat, i: nat)
    requires i < 3 && k < |ReadyCalls(p)| && ReadyCalls(p)[k] == MonitorCalls[i]
    ensures k == |ChromeCalls(p)| + 4 + i
  {
    ReadyCallAt(p, k);
  }

  /** The plan up to the i-th monitoring step. */
  lemma PlanPrefix(p: PlatformKind, i: nat)
    requires i <= 3
    ensures ReadyCalls(p)[..|ChromeCalls(p)| + 4 + i] == ChromeCalls(p) + ListenerCalls + MonitorCalls[..i]
  {
    var C := ChromeCalls(p) + ListenerCalls;
    assert ReadyCalls(p) == C + MonitorCalls;
    assert (C + MonitorCalls)[..|C| + i] == C + MonitorCalls[..i];
  }

  /** The ready callback's run, step by step: chrome, then listeners, then
      monitors, each starting only if the one before resolved. Running the
      three steps one after the other is awaiting the whole plan. */
  function ReadyRun(p: PlatformKind, rejects: set<Effect>): (r: Run)
    ensures r == AwaitInOrder(ReadyCalls(p), rejects)
  {
    AwaitThen(ChromeCalls(p) + ListenerCalls, MonitorCalls, rejects);
    AwaitThen(ChromeCalls(p), ListenerCalls, rejects);
    Then(Then(AwaitInOrder(ChromeCalls(p), rejects), AwaitInOrder(ListenerCalls, rejects)),
         AwaitInOrder(MonitorCalls, rejects))
  }

  /** No call of the startup plan touches an overlay. */
  lemma PlanCarriesNoHandle(p: PlatformKind)
    ensures forall e :: e in ReadyCalls(p) ==> !HasHandle(e)
  {
    forall e | e in ReadyCalls(p) ensures !HasHandle(e) {
      assert e in ChromeCalls(p) || e in ListenerCalls || e in MonitorCalls;
    }
  }

  /** The startup leaves the log's handle bound where it was, so a `UiService`
      sharing the host keeps its handles fresh. */
  lemma StartupKeepsBound(t: seq<Effect>, p: PlatformKind, ready: bool, rejects: set<Effect>)
    ensures HandleBound(t + StartupTrace(p, ready, rejects)) == HandleBound(t)
  {
    var run := if ready then AwaitInOrder(ReadyCalls(p), rejects).trace else [];
    assert t + StartupTrace(p, ready, rejects) == (t + [DarkPaletteAdded]) + run;
    NoHandleKeepsBound(t, DarkPaletteAdded);
    PlanCarriesNoHandle(p);
    if ready {
      AwaitKeepsBound(t + [DarkPaletteAdded], ReadyCalls(p), rejects);
    } else {
      assert (t + [DarkPaletteAdded]) + run == t + [DarkPaletteAdded];
    }
  }

  class AppComponent {
    const platform: PlatformKind
    const host: Host
    const pushNotificationService: PushNotificationService

    /** Adds the dark palette before anything waits on the platform. */
    constructor (platform: PlatformKind, host: Host, pushNotificationService: PushNotificationService)
      requires pushNotificationService.host == host
      modifies host`log
      ensures this.platform == platform && this.host == host
      ensures this.pushNotificationService == pushNotificationService
      ensures host.log == old(host.log) + [DarkPaletteAdded]
    {
      this.platform := platform;
      this.host := host;
      this.pushNotificationService := pushNotificationService;
      new;
      InitializeDarkMode();
    }

    method InitializeDarkMode()
      modifies host`log
      ensures host.log == old(host.log) + [DarkPaletteAdded]
    {
      host.Apply(DarkPaletteAdded);
    }

    /** The `platform.ready()` callback: device chrome, then listener
        setup, then monitoring; each awaited step that fails ends it. */
    method OnReady() returns (o: Outcome)
      requires pushNotificationService.host == host
      modifies host`log
      ensures host.log == old(host.log) + ReadyRun(platform, host.rejects).trace
      ensures o == ReadyRun(platform, host.rejects).outcome
    {
      ghost var log0 := host.log;
      ghost var first := Then(AwaitInOrder(ChromeCalls(platform), host.rejects), AwaitInOrder(ListenerCalls, host.rejects));
      o := ConfigureDeviceChrome();
      if o.Failed? { return; }
      o := pushNotificationService.AddListeners();
      assert host.log == log0 + first.trace && o == first.outcome;
      if o.Failed? { return; }
      ghost var log1 := host.log;
      o := StartMonitoring();
      assert host.log == log1 + AwaitInOrder(MonitorCalls, host.rejects).trace;
    }

    /** The two platform tests of the callback: the iOS status-bar and
        edge-to-edge calls, or the Android style call. */
    method ConfigureDeviceChrome() returns (o: Outcome)
      modifies host`log
      ensures host.log == old(host.log) + AwaitInOrder(ChromeCalls(platform), host.rejects).trace
      ensures o == AwaitInOrder(ChromeCalls(platform), host.rejects).outcome
    {
      ghost var chrome := ChromeCalls(platform);
      var ok: bool;
      if platform == IOS {
        AwaitStep(chrome, host.rejects);
        AwaitStep(chrome[1..], host.rejects);
        AwaitStep(chrome[2..], host.rejects);
        assert chrome[1..][1..] == chrome[2..] && chrome[2..][1..] == [];
        ok := host.Call(SetOverlaysWebView(true));
        if !ok { return Failed(Rejected(SetOverlaysWebView(true))); }
        ok := host.Call(SetStyle(Dark));
        if !ok { return Failed(Rejected(SetStyle(Dark))); }
        ok := host.Call(EdgeToEdgeDisable);
        if !ok { return Failed(Rejected(EdgeToEdgeDisable)); }
      }
      if platform == Android {
        AwaitStep(chrome, host.rejects);
        assert chrome[1..] == [];
        ok := host.Call(SetStyle(Dark));
        if !ok { return Failed(Rejected(SetStyle(Dark))); }
      }
      o := Done;
    }

    /** The back-button, router and network calls, made in that order. */
    method StartMonitoring() returns (o: Outcome)
      modifies host`log
      ensures host.log == old(host.log) + AwaitInOrder(MonitorCalls, host.rejects).trace
      ensures o == AwaitInOrder(MonitorCalls, host.rejects).outcome
    {
      ghost var M := MonitorCalls;
      AwaitStep(M, host.rejects);
      AwaitStep(M[1..], host.rejects);
      AwaitStep(M[2..], host.rejects);
      assert M[1..][1..] == M[2..] && M[2..][1..] == [];
      var ok := host.Call(BackButtonReview);
      if !ok { return Failed(Rejected(BackButtonReview)); }
      ok := host.Call(GetRouterChanges);
      if !ok { return Failed(Rejected(GetRouterChanges)); }
      ok := host.Call(InitializeNetworkEvents);
      if !ok { return Failed(Rejected(InitializeNetworkEvents)); }
      o := Done;
    }
  }

  /** The framework constructs the component; the ready callback runs only
      if the platform's ready promise resolves. */
  method Launch(platform: PlatformKind, ready: bool, host: Host, push: PushNotificationService)
    returns (app: AppComponent)
    requires push.host == host
    modifies host`log
    ensures app.platform == platform && app.host == host && app.pushNotificationService == push
    ensures host.log == old(host.log) + StartupTrace(platform, ready, host.rejects)
    ensures HandleBound(host.log) == HandleBound(old(host.log))
  {
    ghost var log0 := host.log;
    app := new AppComponent(platform, host, push);
    if ready {
      ghost var log1 := host.log;
      var _ := app.OnReady();
      assert host.log == log1 + AwaitInOrder(ReadyCalls(platform), host.rejects).trace;
    }
    StartupKeepsBound(log0, platform, ready, host.rejects);
  }
}
