/** `UiService`: one loading overlay remembered in `currentLoading`, and
    fire-and-forget toasts and alerts that never touch it. */
module Ui {
  import opened Effects
  import opened Capabilities

  const DefaultLoadingMessage: string := "Cargando..."
  const LoadingCssClass: string := "custom-loading"
  const ToastDuration: int := 2000
  const ToastPosition: string := "top"
  const DefaultToastColor: ToastColor := Success
  const DefaultAlertButtons: seq<AlertButton> := [Label("OK")]
  const AlertMode: string := "md"

  /** The create-then-present pair every overlay goes through. */
  function CreateAndPresent(create: Effect, h: Handle): (calls: seq<Effect>)
  {
    [create, Present(h)]
  }

  /** The log after the pair, call by call, and the segment it adds. */
  lemma LogAfterPair(log0: seq<Effect>, create: Effect, h: Handle)
    ensures log0 + [create] + [Present(h)] == log0 + CreateAndPresent(create, h)
    ensures (log0 + CreateAndPresent(create, h))[|log0|..] == CreateAndPresent(create, h)
    ensures (log0 + [create])[|log0|..] == [create]
  {
    assert CreateAndPresent(create, h) == [create] + [Present(h)];
  }

  /** Awaiting the pair: `present` runs only if `create` resolved. */
  lemma AwaitCreateAndPresent(create: Effect, h: Handle, rejects: set<Effect>)
    ensures AwaitInOrder(CreateAndPresent(create, h), rejects) ==
      if create in rejects then Run([create], Failed(Rejected(create)))
      else if Present(h) in rejects then Run([create, Present(h)], Failed(Rejected(Present(h))))
      else Run([create, Present(h)], Done)
  {
    var calls := CreateAndPresent(create, h);
    AwaitStep(calls, rejects);
    assert calls[1..] == [Present(h)];
    AwaitStep(calls[1..], rejects);
    assert calls[1..][1..] == [];
  }

  /** An overlay is created once, and presented once exactly when its
      creation resolved. */
  lemma PresentOnce(create: Effect, h: Handle, rejects: set<Effect>)
    requires create != Present(h)
    ensures var t := AwaitInOrder(CreateAndPresent(create, h), rejects).trace;
      Count(t, create) == 1 &&
      Count(t, Present(h)) == if create in rejects then 0 else 1
  {
    AwaitCreateAndPresent(create, h, rejects);
    CountSingle(create, create);
    CountSingle(create, Present(h));
    CountAppend([create], [Present(h)], create);
    CountAppend([create], [Present(h)], Present(h));
    CountSingle(Present(h), create);
    CountSingle(Present(h), Present(h));
    assert [create, Present(h)] == [create] + [Present(h)];
  }

  /** An overlay created under a handle the log has never seen is, over the
      whole log, presented once if its creation resolved and never dismissed. */
  lemma FreshOverlay(log0: seq<Effect>, create: Effect, h: Handle, rejects: set<Effect>)
    requires Present(h) !in log0 && Dismiss(h) !in log0
    requires create.CreateLoading? || create.CreateToast? || create.CreateAlert?
    ensures var t := log0 + AwaitInOrder(CreateAndPresent(create, h), rejects).trace;
      Count(t, Present(h)) == (if create in rejects then 0 else 1) && Count(t, Dismiss(h)) == 0
  {
    var seg := AwaitInOrder(CreateAndPresent(create, h), rejects).trace;
    PresentOnce(create, h, rejects);
    AwaitCreateAndPresent(create, h, rejects);
    if create in rejects {
      assert seg == [create];
    } else {
      assert seg == [create, Present(h)];
    }
    assert Dismiss(h) !in seg;
    CountAppend(log0, seg, Present(h));
    CountAppend(log0, seg, Dismiss(h));
  }

  /** Creating and presenting an overlay dismisses nothing. */
  lemma PairDismissesNothing(create: Effect, h: Handle, rejects: set<Effect>)
    requires create.CreateLoading? || create.CreateToast? || create.CreateAlert?
    ensures forall e :: e in AwaitInOrder(CreateAndPresent(create, h), rejects).trace ==> !e.Dismiss?
  {
    AwaitCreateAndPresent(create, h, rejects);
  }

  class UiService {
    /** LoadingController, ToastController and AlertController. */
    const host: Host
    /** The loading overlay last created, if it has not been dismissed. */
    var currentLoading: Option<Handle>

    /** The remembered handle was minted by the host, so a later `create`
        always returns a different one. */
    ghost predicate Valid()
      reads this, host
    {
      host.Valid() && (currentLoading.Some? ==> currentLoading.value < host.nextHandle)
    }

    constructor (host: Host)
      requires host.Valid()
      ensures this.host == host && currentLoading == None && Valid()
    {
      this.host := host;
      currentLoading := None;
    }

    /** Creates a loading overlay, remembers it, then presents it. The old
        handle, if any, is overwritten without being dismissed. */
    method ShowLoading(message: Option<string>) returns (o: Outcome)
      requires Valid()
      modifies this`currentLoading, host`log, host`nextHandle
      ensures Valid()
      ensures var h := old(host.nextHandle);
        var create := CreateLoading(h, OrDefault(message, DefaultLoadingMessage), LoadingCssClass);
        var run := AwaitInOrder(CreateAndPresent(create, h), host.rejects);
        host.nextHandle == h + 1 &&
        host.log == old(host.log) + run.trace && o == run.outcome &&
        currentLoading == if create in host.rejects then old(currentLoading) else Some(h)
      // no dismiss call is made, and the new handle is never the one it replaces
      ensures forall e :: e in host.log[|old(host.log)|..] ==> !e.Dismiss?
      ensures old(currentLoading) != Some(old(host.nextHandle))
      // the new handle is fresh: over the whole log it is presented once, or
      // never if its creation was rejected, and never dismissed
      ensures var h := old(host.nextHandle);
        Count(host.log, Present(h)) ==
          (if CreateLoading(h, OrDefault(message, DefaultLoadingMessage), LoadingCssClass) in host.rejects then 0 else 1) &&
        Count(host.log, Dismiss(h)) == 0
    {
      ghost var log0 := host.log;
      var h := host.Allocate();
      var create := CreateLoading(h, OrDefault(message, DefaultLoadingMessage), LoadingCssClass);
      ghost var run := AwaitInOrder(CreateAndPresent(create, h), host.rejects);
      AwaitCreateAndPresent(create, h, host.rejects);
      LogAfterPair(log0, create, h);
      var ok := host.CallWithHandle(create);
      if ok {
        currentLoading := Some(h);
        ok := host.CallWithHandle(Present(h));
        o := if ok then Done else Failed(Rejected(Present(h)));
      } else {
        o := Failed(Rejected(create));
      }
      assert host.log == log0 + run.trace && o == run.outcome;
      AboveBoundAbsent(log0, h);
      FreshOverlay(log0, create, h, host.rejects);
      PairDismissesNothing(create, h, host.rejects);
    }

    /** Dismisses the remembered overlay and forgets it; with none, does nothing. */
    method DismissLoading() returns (o: Outcome)
      requires Valid()
      modifies this`currentLoading, host`log
      ensures Valid()
      ensures old(currentLoading).None? ==>
        host.log == old(host.log) && currentLoading == None && o == Done
      ensures old(currentLoading).Some? ==>
        var h := old(currentLoading).value;
        host.log == old(host.log) + [Dismiss(h)] &&
        if Dismiss(h) in host.rejects
        then currentLoading == Some(h) && o == Failed(Rejected(Dismiss(h)))
        else currentLoading == None && o == Done
    {
      if currentLoading.Some? {
        var ok := host.CallWithHandle(Dismiss(currentLoading.value));
        if !ok { return Failed(Rejected(Dismiss(currentLoading.value))); }
        currentLoading := None;
      }
      o := Done;
    }

    /** Creates and presents a toast: 2000 ms, at the top, 'success' by default. */
    method ShowToast(message: string, color: Option<ToastColor>) returns (o: Outcome)
      requires Valid()
      modifies host`log, host`nextHandle
      ensures Valid() && currentLoading == old(currentLoading)
      ensures var h := old(host.nextHandle);
        var create := CreateToast(h, message, OrDefault(color, DefaultToastColor), ToastDuration, ToastPosition);
        var run := AwaitInOrder(CreateAndPresent(create, h), host.rejects);
        host.nextHandle == h + 1 && host.log == old(host.log) + run.trace && o == run.outcome
    {
      ghost var log0 := host.log;
      var h := host.Allocate();
      var create := CreateToast(h, message, OrDefault(color, DefaultToastColor), ToastDuration, ToastPosition);
      AwaitCreateAndPresent(create, h, host.rejects);
      LogAfterPair(log0, create, h);
      var ok := host.CallWithHandle(create);
      if ok {
        ok := host.CallWithHandle(Present(h));
        o := if ok then Done else Failed(Rejected(Present(h)));
      } else {
        o := Failed(Rejected(create));
      }
    }

    /** Creates and presents an alert in 'md' mode, with a single 'OK' button by default. */
    method ShowAlert(message: string, buttons: Option<seq<AlertButton>>) returns (o: Outcome)
      requires Valid()
      modifies host`log, host`nextHandle
      ensures Valid() && currentLoading == old(currentLoading)
      ensures var h := old(host.nextHandle);
        var create := CreateAlert(h, message, OrDefault(buttons, DefaultAlertButtons), AlertMode);
        var run := AwaitInOrder(CreateAndPresent(create, h), host.rejects);
        host.nextHandle == h + 1 && host.log == old(host.log) + run.trace && o == run.outcome
    {
      ghost var log0 := host.log;
      var h := host.Allocate();
      var create := CreateAlert(h, message, OrDefault(buttons, DefaultAlertButtons), AlertMode);
      AwaitCreateAndPresent(create, h, host.rejects);
      LogAfterPair(log0, create, h);
      var ok := host.CallWithHandle(create);
      if ok {
        ok := host.CallWithHandle(Present(h));
        o := if ok then Done else Failed(Rejected(Present(h)));
      } else {
        o := Failed(Rejected(create));
      }
    }
  }

  /** The calls of `ReplaceThenDismiss`, in order. */
  function ReplaceThenDismissCalls(hx: Handle, x: string, hy: Handle, y: string): (calls: seq<Effect>)
  {
    CreateAndPresent(CreateLoading(hx, x, LoadingCssClass), hx)
      + CreateAndPresent(CreateLoading(hy, y, LoadingCssClass), hy)
      + [Dismiss(hy)]
  }

  lemma ReplaceThenDismissCounts(hx: Handle, x: string, hy: Handle, y: string)
    requires hx != hy
    ensures Count(ReplaceThenDismissCalls(hx, x, hy, y), Dismiss(hx)) == 0
    ensures Count(ReplaceThenDismissCalls(hx, x, hy, y), Dismiss(hy)) == 1
  {
    var front := CreateAndPresent(CreateLoading(hx, x, LoadingCssClass), hx)
      + CreateAndPresent(CreateLoading(hy, y, LoadingCssClass), hy);
    assert Dismiss(hx) !in front && Dismiss(hy) !in front;
    CountAppend(front, [Dismiss(hy)], Dismiss(hx));
    CountAppend(front, [Dismiss(hy)], Dismiss(hy));
    CountSingle(Dismiss(hy), Dismiss(hx));
    CountSingle(Dismiss(hy), Dismiss(hy));
  }

  /** The calls of `ReplaceThenDismiss` are those of its three steps, one after another. */
  lemma ReplaceThenDismissSplit(log0: seq<Effect>, hx: Handle, x: string, hy: Handle, y: string)
    ensures log0 + CreateAndPresent(CreateLoading(hx, x, LoadingCssClass), hx)
      + CreateAndPresent(CreateLoading(hy, y, LoadingCssClass), hy) + [Dismiss(hy)]
      == log0 + ReplaceThenDismissCalls(hx, x, hy, y)
  {
    var a := CreateAndPresent(CreateLoading(hx, x, LoadingCssClass), hx);
    var b := CreateAndPresent(CreateLoading(hy, y, LoadingCssClass), hy);
    assert log0 + a + b == log0 + (a + b);
    assert log0 + (a + b) + [Dismiss(hy)] == log0 + (a + b + [Dismiss(hy)]);
  }

  /** Behind a log that holds only older handles, the dismiss counts hold of the whole log. */
  lemma ReplaceThenDismissWholeLog(log0: seq<Effect>, n: Handle, x: string, y: string)
    requires Dismiss(n) !in log0 && Dismiss(n + 1) !in log0
    ensures Count(log0 + ReplaceThenDismissCalls(n, x, n + 1, y), Dismiss(n)) == 0
    ensures Count(log0 + ReplaceThenDismissCalls(n, x, n + 1, y), Dismiss(n + 1)) == 1
  {
    var calls := ReplaceThenDismissCalls(n, x, n + 1, y);
    ReplaceThenDismissCounts(n, x, n + 1, y);
    CountAppend(log0, calls, Dismiss(n));
    CountAppend(log0, calls, Dismiss(n + 1));
  }

  /** `showLoading(m)` with a host that rejects nothing: the overlay, under
      the next handle, is created, presented and remembered. */
  method ShowLoadingAccepted(ui: UiService, m: string) returns (h: Handle)
    requires ui.Valid() && ui.host.rejects == {}
    modifies ui`currentLoading, ui.host`log, ui.host`nextHandle
    ensures ui.Valid() && ui.currentLoading == Some(h)
    ensures h == old(ui.host.nextHandle) && ui.host.nextHandle == h + 1
    ensures HandleBound(old(ui.host.log)) <= h
    ensures ui.host.log == old(ui.host.log) + CreateAndPresent(CreateLoading(h, m, LoadingCssClass), h)
  {
    h := ui.host.nextHandle;
    var o := ui.ShowLoading(Some(m));
    AwaitAllResolve(CreateAndPresent(CreateLoading(h, m, LoadingCssClass), h), ui.host.rejects);
  }

  /** `showLoading(x)`, `showLoading(y)`, `dismissLoading()` with a host that
      rejects nothing: both overlays are presented, only y's is dismissed, and
      x's stays on screen with no reference left to it. */
  method ReplaceThenDismiss(ui: UiService, x: string, y: string) returns (hx: Handle, hy: Handle)
    requires ui.Valid() && ui.host.rejects == {}
    modifies ui`currentLoading, ui.host`log, ui.host`nextHandle
    ensures ui.Valid() && ui.currentLoading == None && hx != hy
    ensures hx == old(ui.host.nextHandle) && hy == hx + 1 && ui.host.nextHandle == hy + 1
    ensures ui.host.log == old(ui.host.log) + ReplaceThenDismissCalls(hx, x, hy, y)
    ensures Count(ui.host.log, Dismiss(hx)) == 0
    ensures Count(ui.host.log, Dismiss(hy)) == 1
  {
    ghost var log0 := ui.host.log;
    hx := ShowLoadingAccepted(ui, x);
    ghost var log1 := ui.host.log;
    hy := ShowLoadingAccepted(ui, y);
    ghost var log2 := ui.host.log;
    var o := ui.DismissLoading();
    assert ui.host.log == log2 + [Dismiss(hy)];
    ReplaceThenDismissSplit(log0, hx, x, hy, y);
    AboveBoundAbsent(log0, hx);
    AboveBoundAbsent(log0, hy);
    ReplaceThenDismissWholeLog(log0, hx, x, y);
  }
}
