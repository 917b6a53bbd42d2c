# OpenSpeedy main window: speed slider and visibility policy

OpenSpeedy scales the time a target process perceives. Its main window holds
a slider whose integer position is turned into a speed factor and handed to
the process monitor through `changeSpeed`. That factor is the only value the
UI pushes into the speed engine. The window also decides what clicks on its
tray icon and requests to close the window do to its visibility.

This project models those two pieces of `mainwindow.cpp`:

- `speed_factor.dfy` (module `SpeedFactorMap`): the piecewise mapping of
  `MainWindow::on_sliderCtrl_valueChanged` as the function `SpeedFactor` over
  all integers, with exact `real` arithmetic. `BandOf` picks the branch of the
  if/else chain and `BandFormula` gives that branch's formula; `SpeedFactor` is
  their composition, so the chain is written once. `Accumulated` is an independent step-by-step definition:
  factor 1 at position 0, and every notch adds a positive step (`StepUp`) that
  never shrinks to the right. The lemmas prove that the two definitions agree,
  that the mapping is strictly increasing and injective, and what each band yields.
- `window_visibility.dfy` (module `Visibility`): `iconActivated` and `closeEvent`
  as pure transition functions over "the window is visible".
- `main_window.dfy` (module `Window`): the `MainWindow` object with the state
  those slots change (`visible` and the factors handed to `changeSpeed` so far)
  and the state they read (`trayVisible`). Its methods are proved against the
  functions above. No slot changes `trayVisible`: `createTray` shows the tray
  icon (mainwindow.cpp:171) and `recreateTray` only builds it again
  (mainwindow.cpp:183). So for a window built by the constructor the tray icon
  stays visible and a close request always takes the hide-into-tray branch;
  the accept branch of `closeEvent` is modelled but not reached by the code
  shown.

The process monitor is an opaque sink here. `changeSpeed` is recorded as an
append to `speedRequests`.

## Model

| member | source | states |
|---|---|---|
| SpeedFactorMap.BandOf | mainwindow.cpp:71-94 | the six guards of the chain partition the integers: each band holds exactly on its own interval, and only position 0 reaches the fallback |
| SpeedFactorMap.SpeedFactor | mainwindow.cpp:67-96 | the factor is exactly 1 iff the position is 0, above 1 iff the position is at least 1, below 1 iff it is negative, and positive iff the position is above -30 |
| SpeedFactorMap.LinearWithinBand | mainwindow.cpp:71-94 | inside one band the factor is linear in the position, with slope 1/4, 1/2, 3, 5, 1/30 or 0 per notch |
| SpeedFactorMap.BandRanges | mainwindow.cpp:71-90 | positions 1-4 give 1.25, 1.5, 1.75 or 2; 5-6 give 2.5 or 3; 7-8 give 4 or 7; from 9 the factor is at least 10 and rises by 5 per notch; below 0 it is under 1 and falls by 1/30 per notch |
| SpeedFactorMap.BoundaryValues | mainwindow.cpp:71-94 | the factors at the band edges: -30→0, -1→29/30, 0→1, 1→1.25, 4→2, 5→2.5, 6→3, 7→4, 8→7, 9→10 |
| SpeedFactorMap.StepUp | mainwindow.cpp:71-94 | every notch moves the factor up by a positive step between 1/30 and 5 |
| SpeedFactorMap.StepsNeverShrink | mainwindow.cpp:71-90 | the step gained by one notch never decreases as the position grows |
| SpeedFactorMap.OneNotch | mainwindow.cpp:71-94 | moving from v to v+1 raises the factor by exactly StepUp(v+1), across every band boundary |
| SpeedFactorMap.SpeedFactorIsAccumulated | mainwindow.cpp:67-96 | the branch formulas equal the reference definition that starts at 1 at position 0 and adds one step per notch |
| SpeedFactorMap.StrictlyIncreasing | mainwindow.cpp:71-90 | a < b implies SpeedFactor(a) < SpeedFactor(b) for all integers |
| SpeedFactorMap.Injective | mainwindow.cpp:71-94 | two positions give the same factor iff they are equal |
| SpeedFactorMap.Escalates | mainwindow.cpp:71-90 | the increase from v to v+1 is at most the increase from v+1 to v+2: larger positions escalate in steeper steps |
| Visibility.Activated | mainwindow.cpp:106-130 | a single click toggles visibility, a double click always leaves the window visible, any other reason leaves it unchanged |
| Visibility.TriggerTwiceRestores | mainwindow.cpp:111-120 | two single clicks restore the original visibility |
| Visibility.ActivationChangesIff | mainwindow.cpp:109-128 | an activation changes visibility iff it is a single click, or a double click on a hidden window |
| Visibility.OnlyTriggerHides | mainwindow.cpp:109-128 | among tray activations, only a single click hides a visible window |
| Visibility.DoubleClickThenAnyButTrigger | mainwindow.cpp:121-127 | a double click is idempotent, and after it any activation other than a single click leaves the window visible |
| Visibility.Closed | mainwindow.cpp:186-201 | the close event is accepted iff the tray icon is not visible; with the tray icon visible the window ends up hidden, otherwise its visibility is untouched |
| Visibility.CloseHidesOrAccepts | mainwindow.cpp:189-200 | after a close request the window is hidden or the event is accepted |
| Visibility.CloseIdempotent | mainwindow.cpp:189-200 | a second close request with the same tray state changes nothing further |
| Visibility.ClickRestoresFromTray | mainwindow.cpp:111-124 | a window closed into the tray is shown again by a single or a double click |
| Window.MainWindow.constructor | mainwindow.cpp:26 | a new window has its tray icon shown, is itself not shown, and has requested no speed yet |
| Window.MainWindow.OnSliderValueChanged | mainwindow.cpp:67-96 | appends exactly SpeedFactor(value) to the factors handed to the process monitor and changes nothing else |
| Window.MainWindow.IconActivated | mainwindow.cpp:106-130 | the new visibility is Activated(old visibility, reason); the tray icon and the speed requests are unchanged |
| Window.MainWindow.CloseEvent | mainwindow.cpp:186-201 | the new visibility and the returned accepted flag are Closed(old visibility, tray visible); nothing else changes |

## Left out

- SpeedFactor: computes with exact reals, not IEEE `double`. In the source, `(double)(30 + value) / 30` is rounded; the other branches are exact in `double` for slider-sized positions.
- SpeedFactor: does not model the 32-bit `int` overflow of `5 * (value - 9) + 10` for positions above 429,496,736. The slider's minimum and maximum are set in the form file, which is not part of this model, so properties are stated over all integers.
- Positions at or below -30 give a factor of 0 or less. Whether the slider can reach them depends on its bounds, which are not visible. The process monitor's handling of such a factor is not part of this model.
- The tooltip and label text built from the factor (mainwindow.cpp:97-98): Qt string formatting only.
- Window.MainWindow.IconActivated: models only visibility. The effects of `showNormal()` and `activateWindow()` on the minimised/maximised state and on focus are window-system state and are not modelled.
- Visibility.Closed: models what the handler itself does. After an accepted close event Qt hides the window; because mainwindow.cpp:27 turns off quitting on the last window closed, the application keeps running. That hiding by Qt is framework behaviour and not part of the outcome.
- `on_processNameFilter_textChanged` (mainwindow.cpp:101-104) only forwards the filter text to the process monitor.
- Widget setup, signal/slot wiring, the `QThread` lifecycle and the refresh timer (mainwindow.cpp:7-51): UI and thread plumbing.
- The CPU and memory usage display (mainwindow.cpp:53-65): floating-point percentages from foreign `CpuUtils`/`MemUtils` calls.
- Tray icon and menu construction and re-creation (mainwindow.cpp:132-184): resource and UI glue. The constructor only records that the tray icon ends up shown.
- `winutils::getWindowsVersion` (mainwindow.cpp:29): an operating-system call.
- `aboutdialog.h`: a dialog class declaration with no logic.
- The process monitor, injector, time-scaling shim and speed channel: their code is not part of this model. `changeSpeed` is treated as a sink that receives the mapped factor.
