/** The main window's visibility policy as pure transitions over "the window
    is visible": activations of the tray icon (MainWindow::iconActivated) and
    requests to close the window (MainWindow::closeEvent). */
module Visibility {

  /** Why the tray icon was activated; `Other` stands for every reason the
      switch sends to its default case (context menu, middle click, unknown). */
  datatype ActivationReason = Trigger | DoubleClick | Other

  /** Visibility after the tray icon is activated for `reason`: a single click
      toggles the window, a double click always shows it, anything else is ignored. */
  function Activated(visible: bool, reason: ActivationReason): (after: bool)
    ensures reason == Trigger ==> after == !visible
    ensures reason == DoubleClick ==> after
    ensures reason == Other ==> after == visible
  {
    match reason
    case Trigger => !visible
    case DoubleClick => true
    case Other => visible
  }

  /** What a close request leaves behind: the window's visibility and whether
      the close event was accepted (after which Qt hides the window). */
  datatype CloseOutcome = CloseOutcome(visible: bool, accepted: bool)

  /** With the tray icon shown, closing hides the window into the tray and
      ignores the event; without it, the event is accepted and the handler
      leaves visibility alone. */
  function Closed(visible: bool, trayVisible: bool): (o: CloseOutcome)
    ensures o.accepted <==> !trayVisible
    ensures trayVisible ==> !o.visible
    ensures !trayVisible ==> o.visible == visible
  {
    if trayVisible then CloseOutcome(false, false)
    else CloseOutcome(visible, true)
  }

  /** Two single clicks restore the original visibility. */
  lemma TriggerTwiceRestores(visible: bool)
    ensures Activated(Activated(visible, Trigger), Trigger) == visible
  {
  }

  /** An activation changes visibility exactly when it is a single click, or
      a double click on a hidden window. */
  lemma ActivationChangesIff(visible: bool, reason: ActivationReason)
    ensures Activated(visible, reason) != visible <==>
            reason == Trigger || (reason == DoubleClick && !visible)
  {
  }

  /** A visible window is hidden by an activation only if it is a single click. */
  lemma OnlyTriggerHides(visible: bool, reason: ActivationReason)
    ensures visible && !Activated(visible, reason) ==> reason == Trigger
  {
  }

  /** A double click is idempotent, and after it every activation but a
      single click keeps the window visible. */
  lemma DoubleClickThenAnyButTrigger(visible: bool, reason: ActivationReason)
    ensures Activated(Activated(visible, DoubleClick), DoubleClick) == Activated(visible, DoubleClick)
    ensures reason != Trigger ==> Activated(Activated(visible, DoubleClick), reason)
  {
  }

  /** A close request never both keeps the window open and refuses to close:
      either it went to the tray or the event was accepted. */
  lemma CloseHidesOrAccepts(visible: bool, trayVisible: bool)
    ensures !Closed(visible, trayVisible).visible || Closed(visible, trayVisible).accepted
  {
  }

  /** Repeating a close request changes nothing further. */
  lemma CloseIdempotent(visible: bool, trayVisible: bool)
    ensures Closed(Closed(visible, trayVisible).visible, trayVisible) == Closed(visible, trayVisible)
  {
  }

  /** A window closed into the tray comes back with one click, or a double click. */
  lemma ClickRestoresFromTray(visible: bool)
    ensures Activated(Closed(visible, true).visible, Trigger)
    ensures Activated(Closed(visible, true).visible, DoubleClick)
  {
  }
}
