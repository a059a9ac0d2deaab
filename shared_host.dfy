/** The services share one native host: calls made by one service leave the
    other's invariant in place. */
module SharedHost {
  import opened Effects
  import opened Capabilities
  import opened PushNotification
  import opened Ui

  /** One host behind both services: listener setup, then a loading overlay.
      The registrations touch no overlay, so the service stays valid and the
      overlay's handle is still fresh. */
  method ListenersThenLoading(push: PushNotificationService, ui: UiService) returns (o: Outcome)
    requires push.host == ui.host && ui.Valid()
    modifies ui.host`log, ui.host`nextHandle, ui`currentLoading
    ensures ui.Valid()
    ensures var h := old(ui.host.nextHandle);
      var create := CreateLoading(h, DefaultLoadingMessage, LoadingCssClass);
      ui.host.log == old(ui.host.log) + AwaitInOrder(ListenerCalls, ui.host.rejects).trace
        + AwaitInOrder(CreateAndPresent(create, h), ui.host.rejects).trace &&
      ui.host.nextHandle == h + 1 &&
      o == AwaitInOrder(CreateAndPresent(create, h), ui.host.rejects).outcome &&
      ui.currentLoading == if create in ui.host.rejects then old(ui.currentLoading) else Some(h)
  {
    ghost var log0 := ui.host.log;
    var _ := push.AddListeners();
    AwaitKeepsBound(log0, ListenerCalls, ui.host.rejects);
    o := ui.ShowLoading(None);
  }
}
