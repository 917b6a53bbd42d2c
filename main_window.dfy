/** The parts of the main window whose state the model tracks: whether the
    window and its tray icon are visible, and the factors that the slider
    has handed to the process monitor's changeSpeed. */
module Window {
  import opened SpeedFactorMap
  import opened Visibility

  class MainWindow {
    /** Whether the window itself is shown. */
    var visible: bool
    /** Whether the tray icon is shown (trayIcon->isVisible()). */
    var trayVisible: bool
    /** Every factor passed to changeSpeed so far, oldest first; the process
        monitor itself is not part of this model and only receives them. */
    var speedRequests: seq<real>

    /** A freshly built window: the tray icon has been created and shown,
        the window itself is not shown yet, no speed has been requested. */
    constructor ()
      ensures trayVisible && !visible && speedRequests == []
    {
      visible := false;
      trayVisible := true;
      speedRequests := [];
    }

    /** The slider moved to `value`: its factor is pushed to the speed engine. */
    method OnSliderValueChanged(value: int)
      modifies this
      ensures speedRequests == old(speedRequests) + [SpeedFactor(value)]
      ensures visible == old(visible) && trayVisible == old(trayVisible)
    {
      speedRequests := speedRequests + [SpeedFactor(value)];
    }

    /** The tray icon was activated for `reason`. */
    method IconActivated(reason: ActivationReason)
      modifies this
      ensures visible == Activated(old(visible), reason)
      ensures trayVisible == old(trayVisible) && speedRequests == old(speedRequests)
    {
      visible := Activated(visible, reason);
    }

    /** The window was asked to close; `accepted` is the event's verdict. */
    method CloseEvent() returns (accepted: bool)
      modifies this
      ensures CloseOutcome(visible, accepted) == Closed(old(visible), old(trayVisible))
      ensures trayVisible == old(trayVisible) && speedRequests == old(speedRequests)
    {
      var outcome := Closed(visible, trayVisible);
      visible, accepted := outcome.visible, outcome.accepted;
    }
  }
}
