/** `PushNotificationService`: listener setup, the permission gate in front
    of `register`, and pass-throughs to the PushNotifications plugin. */
module PushNotification {
  import opened Effects
  import opened Capabilities

  /** The registrations `addListeners` makes, in the order it awaits them. */
  const ListenerCalls: seq<Effect> := [
    AddListener(Registration),
    AddListener(RegistrationError),
    AddListener(PushNotificationReceived),
    AddListener(PushNotificationActionPerformed)
  ]

  /** The message `registerNotifications` throws when permission is not granted. */
  const DeniedMessage: string := "User denied permissions!"

  /** The status `registerNotifications` tests: the checked one, or the
      user's answer when the checked one was 'prompt'. */
  function FinalStatus(checked: PermissionState, answer: PermissionState): (s: PermissionState)
    ensures checked == Prompt ==> s == answer
    ensures checked != Prompt ==> s == checked
  {
    if checked == Prompt then answer else checked
  }

  /** Whether the checks before `register` themselves went through: the
      check call, and the request call when one is made. */
  predicate GateCallsResolved(checked: PermissionState, rejects: set<Effect>)
  {
    Effect.CheckPermissions !in rejects && (checked == Prompt ==> Effect.RequestPermissions !in rejects)
  }

  /** What one `registerNotifications` call issues and how it settles, given
      the status the host reports, the user's answer to a prompt and the
      calls the host rejects. */
  function RegisterRun(checked: PermissionState, answer: PermissionState, rejects: set<Effect>): (r: Run)
    ensures |r.trace| > 0 && r.trace[0] == Effect.CheckPermissions
    // the prompt is shown once when the status is 'prompt', never otherwise
    ensures Count(r.trace, Effect.RequestPermissions) ==
      if checked == Prompt && Effect.CheckPermissions !in rejects then 1 else 0
    // register is called at most once, and exactly when the gate let it through
    ensures Count(r.trace, Effect.Register) <= 1
    ensures Effect.Register in r.trace <==>
      GateCallsResolved(checked, rejects) && FinalStatus(checked, answer) == Granted
    ensures Effect.Register in r.trace ==> r.trace[|r.trace| - 1] == Effect.Register
    // a status other than 'granted' throws, without register
    ensures r.outcome == Failed(Thrown(DeniedMessage)) <==>
      GateCallsResolved(checked, rejects) && FinalStatus(checked, answer) != Granted
    ensures r.outcome == Done <==>
      GateCallsResolved(checked, rejects) && FinalStatus(checked, answer) == Granted && Effect.Register !in rejects
    ensures r.outcome.Failed? && r.outcome.error.Rejected? ==>
      r.outcome.error.call in rejects && r.outcome.error.call == r.trace[|r.trace| - 1]
  {
    if Effect.CheckPermissions in rejects then
      Run([Effect.CheckPermissions], Failed(Rejected(Effect.CheckPermissions)))
    else if checked == Prompt && Effect.RequestPermissions in rejects then
      Run([Effect.CheckPermissions, Effect.RequestPermissions], Failed(Rejected(Effect.RequestPermissions)))
    else
      var asked := if checked == Prompt then [Effect.CheckPermissions, Effect.RequestPermissions]
                   else [Effect.CheckPermissions];
      assert Count(asked, Effect.Register) == 0;
      if FinalStatus(checked, answer) != Granted then
        Run(asked, Failed(Thrown(DeniedMessage)))
      else
        CountAppend(asked, [Effect.Register], Effect.RequestPermissions);
        CountAppend(asked, [Effect.Register], Effect.Register);
        Run(asked + [Effect.Register],
            if Effect.Register in rejects then Failed(Rejected(Effect.Register)) else Done)
  }

  /** The permission gate and `register` touch no overlay, so they leave the
      log's handle bound where it was. */
  lemma RegisterKeepsBound(t: seq<Effect>, checked: PermissionState, answer: PermissionState, rejects: set<Effect>)
    ensures HandleBound(t + RegisterRun(checked, answer, rejects).trace) == HandleBound(t)
  {
    var trace := RegisterRun(checked, answer, rejects).trace;
    assert forall e :: e in trace ==>
      e == Effect.CheckPermissions || e == Effect.RequestPermissions || e == Effect.Register;
    NoHandlesKeepBound(t, trace);
  }

  /** One `addListeners` call with no rejection makes exactly the four
      registrations, each once, in the order the source awaits them. */
  lemma ListenersInOrder(rejects: set<Effect>)
    requires forall c :: c in ListenerCalls ==> c !in rejects
    ensures AwaitInOrder(ListenerCalls, rejects) == Run(ListenerCalls, Done)
    ensures |ListenerCalls| == 4
    ensures forall n: ListenerName :: Count(ListenerCalls, AddListener(n)) == 1
  {
    AwaitAllResolve(ListenerCalls, rejects);
    forall n: ListenerName ensures Count(ListenerCalls, AddListener(n)) == 1 {
      ListenerCount(n);
    }
  }

  /** Each of the four events is registered exactly once in `ListenerCalls`. */
  lemma ListenerCount(n: ListenerName)
    ensures Count(ListenerCalls, AddListener(n)) == 1
  {
    var e, L := AddListener(n), ListenerCalls;
    CountStep(L, e);
    CountStep(L[1..], e);
    CountStep(L[2..], e);
    CountStep(L[3..], e);
    assert L[1..][1..] == L[2..] && L[2..][1..] == L[3..] && L[3..][1..] == [];
  }

  /** `addListeners` has no guard: two calls register every listener twice. */
  lemma ListenersTwice(rejects: set<Effect>)
    requires forall c :: c in ListenerCalls ==> c !in rejects
    ensures var once := AwaitInOrder(ListenerCalls, rejects).trace;
      forall n: ListenerName :: Count(once + once, AddListener(n)) == 2
  {
    ListenersInOrder(rejects);
    forall n: ListenerName ensures Count(ListenerCalls + ListenerCalls, AddListener(n)) == 2 {
      CountAppend(ListenerCalls, ListenerCalls, AddListener(n));
    }
  }

  /** A rejected registration stops `addListeners`: the later ones are never made. */
  lemma ListenersStopAtRejection(rejects: set<Effect>, k: nat)
    requires k < 4 && ListenerCalls[k] in rejects
    requires forall i :: 0 <= i < k ==> ListenerCalls[i] !in rejects
    ensures AwaitInOrder(ListenerCalls, rejects).trace == ListenerCalls[..k + 1]
    ensures AwaitInOrder(ListenerCalls, rejects).outcome == Failed(Rejected(ListenerCalls[k]))
    ensures forall j :: k < j < 4 ==> ListenerCalls[j] !in AwaitInOrder(ListenerCalls, rejects).trace
  {
    AwaitStopsAtFirstRejection(ListenerCalls, rejects, k);
  }

  class PushNotificationService {
    /** The PushNotifications plugin. */
    const host: Host

    constructor (host: Host)
      ensures this.host == host
    {
      this.host := host;
    }

    /** Awaits the four `addListener` calls in turn; handler bodies only log. */
    method AddListeners() returns (o: Outcome)
      modifies host`log
      ensures host.log == old(host.log) + AwaitInOrder(ListenerCalls, host.rejects).trace
      ensures o == AwaitInOrder(ListenerCalls, host.rejects).outcome
    {
      AwaitStep(ListenerCalls, host.rejects);
      AwaitStep(ListenerCalls[1..], host.rejects);
      AwaitStep(ListenerCalls[2..], host.rejects);
      AwaitStep(ListenerCalls[3..], host.rejects);
      assert ListenerCalls[1..][1..] == ListenerCalls[2..];
      assert ListenerCalls[2..][1..] == ListenerCalls[3..];
      assert ListenerCalls[3..][1..] == [];
      var ok := host.Call(AddListener(Registration));
      if !ok { return Failed(Rejected(AddListener(Registration))); }
      ok := host.Call(AddListener(RegistrationError));
      if !ok { return Failed(Rejected(AddListener(RegistrationError))); }
      ok := host.Call(AddListener(PushNotificationReceived));
      if !ok { return Failed(Rejected(AddListener(PushNotificationReceived))); }
      ok := host.Call(AddListener(PushNotificationActionPerformed));
      if !ok { return Failed(Rejected(AddListener(PushNotificationActionPerformed))); }
      o := Done;
    }

    /** Check, request only on 'prompt', throw unless 'granted', then register. */
    method RegisterNotifications() returns (o: Outcome)
      modifies host`log, host`permission
      ensures var r := RegisterRun(old(host.permission), host.answer, host.rejects);
        host.log == old(host.log) + r.trace && o == r.outcome
      ensures host.permission ==
        if old(host.permission) == Prompt && GateCallsResolved(old(host.permission), host.rejects)
        then host.answer else old(host.permission)
    {
      var permStatus := host.CheckPermissions();
      if permStatus.Err? { return Failed(permStatus.error); }

      if permStatus.value == Prompt {
        permStatus := host.RequestPermissions();
        if permStatus.Err? { return Failed(permStatus.error); }
      }

      if permStatus.value != Granted {
        return Failed(Thrown(DeniedMessage));
      }

      var ok := host.Call(Effect.Register);
      o := if ok then Done else Failed(Rejected(Effect.Register));
    }

    /** Returns the host's delivered list unchanged (the console log is left out). */
    method GetDeliveredNotifications() returns (r: Result<seq<Notification>>)
      modifies host`log
      ensures host.log == old(host.log) + [Effect.GetDeliveredNotifications]
      ensures Effect.GetDeliveredNotifications !in host.rejects ==> r == Ok(host.delivered)
      ensures Effect.GetDeliveredNotifications in host.rejects ==> r == Err(Rejected(Effect.GetDeliveredNotifications))
    {
      r := host.GetDeliveredNotifications();
    }

    /** Issues exactly one clear call to the host. */
    method RemoveAllDeliveredNotifications() returns (o: Outcome)
      modifies host`log, host`delivered
      ensures host.log == old(host.log) + [Effect.RemoveAllDeliveredNotifications]
      ensures Effect.RemoveAllDeliveredNotifications !in host.rejects ==> o == Done && host.delivered == []
      ensures Effect.RemoveAllDeliveredNotifications in host.rejects ==>
        o == Failed(Rejected(Effect.RemoveAllDeliveredNotifications)) && host.delivered == old(host.delivered)
    {
      o := host.RemoveAllDeliveredNotifications();
    }

    /** Returns the host's permission status unchanged. */
    method CheckPermissions() returns (r: Result<PermissionState>)
      modifies host`log
      ensures host.log == old(host.log) + [Effect.CheckPermissions]
      ensures Effect.CheckPermissions !in host.rejects ==> r == Ok(host.permission)
      ensures Effect.CheckPermissions in host.rejects ==> r == Err(Rejected(Effect.CheckPermissions))
    {
      r := host.CheckPermissions();
    }
  }
}
