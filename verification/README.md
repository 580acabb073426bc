# Desktop app manager: the window-layout planner

The desktop app manager is a macOS command-line tool. It gathers application
windows from the spaces (virtual desktops) 1 to 4 onto space 1, then puts
chosen applications on chosen spaces: on the main display one window per app,
at its left half, right half or the whole screen; on the external monitor every
visible window, cascaded per side. Around that sits Accessibility, keyboard and
mouse plumbing. This project models the deterministic planner inside it and
proves what it does.

The operating system is the datatype `WindowServer.World`, which the planner
never changes. It holds:

- the accessibility permission;
- the screens, which of them is main, and the main display ID;
- the running applications;
- what finding or launching an app by name yields;
- for each space and process, the windows listed and the focused window while
  that space is current.

The class `WindowServer.Desktop` holds what the planner changes: the current
space, and the trace of every side effect in order. The side effects are:

- switching space (Control plus a digit key);
- activating an app;
- setting a window's frame, or only its position;
- raising a window;
- moving the pointer.

Window frames are the initial frames with the trace replayed on them
(`WindowServer.Replay`).

Each step-by-step operation of the source is a method on a `Desktop`. It
ensures that the new trace is the old one followed by a specification
function of the world. Lemmas then prove what the source promises about those
functions:

- which windows move, and to which frames;
- which spaces are switched to, in which order;
- what the counters count;
- what is left untouched.

Swift dictionaries are iterated in an unspecified order. Where the source
iterates one, the order is a parameter, required to list every key exactly
once (`Placement.Enumerates`), and the properties hold for every such order.

Modules:

- `Geometry`: frames for placement, the cascade, staging slots, and the centred
  and stacked frames.
- `Windows`: windows, the minimised attribute, the visible-window filter and the
  window choice.
- `Displays`: monitor detection, display names and the external monitor.
- `WindowServer`: the world, effects, replay, the `Desktop` class, positioning
  one window, and app lookup.
- `Placement`: `placeApps` and the external-monitor engine
  `moveAllWindowsToExternalMonitor`.
- `Collection`: `collectApps`, `moveAppsToSpace1`, and the all-spaces sweep
  `collectAllAppsToSpace1`.
- `SpaceAll`: `arrangeAllApps`, which gathers every active app from spaces 2
  to 4 and then runs the four fixed placements.
- `MonitorPlacement`: the monitor manager's `moveWindowToMonitor` and
  `arrangeAppsOnExternalMonitor`.
- `Sequences` and `Options`: small shared facts and the option type.

## Model

| member | source | states |
|---|---|---|
| Geometry.FullPlacementIsScreen | DesktopAppManagerBase.swift:719-720 | The full placement is the screen frame itself |
| Geometry.HalvesTileScreen | DesktopAppManagerBase.swift:705-718 | Left and right halves share the screen's y and height, are equally wide, and together span exactly the screen's width. The right half starts where the left one ends |
| Geometry.HalvesInsideScreen | DesktopAppManagerBase.swift:705-718 | For a screen of non-negative size both halves lie inside it; for a positive width the left half starts strictly left of the right half |
| Geometry.CascadeStartsAtArea | DesktopAppManagerBase.swift:956-964 | The first window of the first app on a side gets the whole area |
| Geometry.CascadeKeepsCentre | DesktopAppManagerBase.swift:956-964 | Window s of the app with side index k is the area inset by 50k + 30s on every side, so it keeps the area's centre |
| Geometry.CascadeNests | DesktopAppManagerBase.swift:956-964 | Frames of later apps and later windows lie inside earlier ones, strictly shifted when either index grows |
| Geometry.CascadeCollides | DesktopAppManagerBase.swift:956-964 | The fourth app on a side gets exactly the frame of the sixth window of the first app |
| Geometry.CascadeMayDegenerate | DesktopAppManagerBase.swift:962-963 | Once twice the inset reaches the area's width, the width is zero or negative; nothing guards against it |
| Geometry.StagingRow | DesktopAppManagerBase.swift:809-817 | An app's row has exactly ten slots, slot i being (W·(j+1)/(n+1) − 300 + 30i, H/2 − 300 + 30i) |
| Geometry.StagingSlotSpacing | DesktopAppManagerBase.swift:811-815 | Consecutive slots step by (30, 30); columns of consecutive apps are W/(n+1) apart |
| Geometry.CentredFrameSteps | DesktopAppManagerBase.swift:741-744 | The first app's 800 by 600 frame is centred on (W/2, H/2); each later app's frame is moved 50 right and 50 down |
| Windows.VisibleWindows | DesktopAppManagerBase.swift:52-54 | The filtered list is no longer than the list |
| Windows.VisibleWindowsMembers | DesktopAppManagerBase.swift:38-54 | A window is visible exactly when it is listed and not minimised |
| Windows.VisibleWindowsConcat | DesktopAppManagerBase.swift:52-54 | Filtering distributes over concatenation, so the original order is kept |
| Windows.UnreadableIsVisible | DesktopAppManagerBase.swift:42-48 | A window whose minimised attribute cannot be read is kept |
| Windows.NothingMinimizedKeepsAll | DesktopAppManagerBase.swift:52-54 | With no window minimised the filter keeps every window |
| Windows.ChooseWindow | DesktopAppManagerBase.swift:143-165 | The focused window if any, else the first listed window, and none exactly when there is neither |
| Displays.DisplayName | MonitorManager.swift:149-157 | Always a name: "Built-in Display" exactly for the main display ID, "External Display" otherwise |
| Displays.DetectMonitors | MonitorManager.swift:22-51 | The loop builds exactly the monitor list, one entry per screen in order |
| Displays.MonitorsDescribeScreens | MonitorManager.swift:25-50 | One entry per screen, in order: its index is its position and its frame and ID are the screen's. It is main exactly for the main screen, and its name is never the "Display n" fallback |
| Displays.AtMostOneMain | MonitorManager.swift:30 | At most one detected monitor is main |
| Displays.FirstNonMain | MonitorManager.swift:54-65 | The first entry that is not main, or none exactly when every entry is main |
| Displays.ExternalExistsWhenSeveral | DesktopAppManagerBase.swift:450-459 | With more than one screen a non-main monitor always exists, so the "could not identify" exit is unreachable |
| Displays.SingleMainScreenHasNoExternal | MonitorManager.swift:54-65 | A lone main screen yields no external monitor |
| WindowServer.SpaceKeyCode | DesktopAppManagerBase.swift:92 | The key code of space n is 18 + n − 1 and fits the 16-bit key code |
| WindowServer.SpaceKeyCodes | DesktopAppManagerBase.swift:92 | Spaces 1 to 4 use key codes 18 to 21; distinct spaces use distinct keys |
| WindowServer.ReplayKeepsWindows | DesktopAppManagerBase.swift:66-78 | Setting attributes never adds or removes a window |
| WindowServer.ReplayUntouched | DesktopAppManagerBase.swift:66-78 | A window that no effect moves keeps its frame |
| WindowServer.ReplayLastFrame | DesktopAppManagerBase.swift:66-78 | A window ends at the frame last set on it when nothing later moves it |
| WindowServer.Desktop.SwitchToSpace | DesktopAppManagerBase.swift:91-103 | Pressing Control with the space's key makes that space current and records the switch |
| WindowServer.Desktop.Activate | DesktopAppManagerBase.swift:183-189 | Activation records one activation and nothing else |
| WindowServer.Desktop.SetWindowFrame | DesktopAppManagerBase.swift:66-78 | The window's whole frame becomes the given one; other windows keep theirs |
| WindowServer.Desktop.SetWindowPosition | MonitorManager.swift:99-105 | Only the origin changes; the size is kept |
| WindowServer.Desktop.Raise | DesktopAppManagerBase.swift:81-88 | Raising records a raise and changes no frame |
| WindowServer.Desktop.MovePointerTo | DesktopAppManagerBase.swift:106-117 | The pointer move is recorded |
| WindowServer.PositionWindow | DesktopAppManagerBase.swift:139-180 | Sets the frame of the chosen window on the current space, or does nothing if there is none |
| WindowServer.PositionTouchesChosenOnly | DesktopAppManagerBase.swift:162-177 | Positioning touches at most one window, the chosen one, at the given frame |
| WindowServer.PositionIsFrameChange | DesktopAppManagerBase.swift:139-180 | Positioning only changes a frame; it switches no space |
| WindowServer.LookUpApps | DesktopAppManagerBase.swift:410-420 | Returns the names that were found, each with its app, and activates each found app in order |
| WindowServer.LookupsOnlyActivate | DesktopAppManagerBase.swift:410-420 | Lookups neither switch spaces nor move windows |
| Placement.CascadeWindows | DesktopAppManagerBase.swift:954-979 | Window s of the app gets its cascaded frame, in window order |
| Placement.PlaceAppWindows | DesktopAppManagerBase.swift:952-984 | The app's windows are cascaded, then the app is activated twice |
| Placement.MoveAllWindowsToExternalMonitor | DesktopAppManagerBase.swift:903-987 | The loop with its two side counters does exactly the pass over the apps in the given order |
| Placement.ExternalCountsApps | DesktopAppManagerBase.swift:926-948 | Each side counter ends at the number of placed apps on that side, one per app however many windows it has. Full-screen and skipped apps move neither counter |
| Placement.ExternalAppBlock | DesktopAppManagerBase.swift:929-985 | In any app order, the placed app at position i adds exactly its visible windows' cascade and its two activations. Its index is the number of earlier apps on its side, or 0 when full screen |
| Placement.ExternalSkipsUnresolved | DesktopAppManagerBase.swift:930-931 | An app that is not running or has no placement changes neither the counters nor the effects |
| Placement.ExternalMovesOnlyPlacedWindows | DesktopAppManagerBase.swift:929-986 | Only visible windows of placed apps move; every other window is untouched |
| Placement.TwoLeftAppsNest | DesktopAppManagerBase.swift:936-964 | Two left apps with one window each: the first fills the left half; the second is inset by 50, strictly inside it |
| Placement.PlaceOnMain | DesktopAppManagerBase.swift:503-509 | One app on the main display: its chosen window at its side of the frame, then its activation |
| Placement.PlaceOnMainDisplay | DesktopAppManagerBase.swift:501-510 | The loop over the found apps does exactly the main-display pass in the given order |
| Placement.PlaceOnMainTarget | DesktopAppManagerBase.swift:436-444 | Without a main screen it stops with nothing done; otherwise it places on the main screen's frame |
| Placement.PlaceOnExternalTarget | DesktopAppManagerBase.swift:445-497 | It stops without a second screen, without a non-main monitor, or without a screen at that monitor's origin. Otherwise it moves the pointer to the monitor's centre, switches to the space again and cascades every window there |
| Placement.PlaceApps | DesktopAppManagerBase.swift:400-530 | Placing a config returns the outcome and does the effects of the placement run; it ends on the target space unless no app was found |
| Placement.NoAppsStopsBeforeSwitching | DesktopAppManagerBase.swift:422-425 | With no app found it stops before any space switch, and moves no window |
| Placement.ExternalNeedsSecondScreen | DesktopAppManagerBase.swift:450-454 | On the external display with at most one screen it ends with no apps or no monitor, and moves no window |
| Placement.ExternalIdentifiedWhenSeveral | DesktopAppManagerBase.swift:456-475 | With more than one screen the external placement never fails to identify the monitor or its screen |
| Placement.ScreenAtFindsScreen | DesktopAppManagerBase.swift:466-469 | A screen's own frame always finds a screen at its origin |
| Placement.MainStepMovesChosen | DesktopAppManagerBase.swift:503-509 | One app on the main display moves at most one window. It moves one exactly when the app was found and has a window to choose, and that window goes to the app's side of the frame, or the whole frame without a side |
| Placement.MainPassOneWindowPerApp | DesktopAppManagerBase.swift:501-510 | On the main display every window that moves is the chosen window of one of the apps, at that app's side of the frame; no more windows move than there are apps |
| Placement.MainDefaultsToFull | DesktopAppManagerBase.swift:504 | An app without a placement entry gets the whole display frame |
| Collection.MoveAppToSpace1 | DesktopAppManagerBase.swift:734-748 | A found app is activated and its chosen window gets the centred frame of its position, when there is a main screen |
| Collection.MoveAppsToSpace1 | DesktopAppManagerBase.swift:725-752 | Switches to space 1, then does each target's step in order, staying on space 1 |
| Collection.MoveToSpace1OneWindowPerApp | DesktopAppManagerBase.swift:725-752 | After the first switch no space is switched. At most one window per target moves, and none without a main screen |
| Collection.AddRows | DesktopAppManagerBase.swift:810-818 | The table has an entry exactly for the old entries and the targets |
| Collection.AppendRow | DesktopAppManagerBase.swift:813-817 | The inner loop appends exactly the app's ten slots to its entry |
| Collection.PrepareSlots | DesktopAppManagerBase.swift:800-819 | The loops build exactly the slot table: empty entries, then ten slots per target when there is a main screen |
| Collection.AddRowsDistinct | DesktopAppManagerBase.swift:810-818 | For distinct targets each target's entry is exactly the row of its own position; other entries are unchanged |
| Collection.SlotTableRows | DesktopAppManagerBase.swift:806-819 | With a main screen, target i gets exactly the ten slots of position i |
| Collection.PlaceWindowsInSlots | DesktopAppManagerBase.swift:842-848 | The loop gives window k the slot start + k while slots remain, raising it if asked |
| Collection.PlaceInSlotsFrames | DesktopAppManagerBase.swift:843-845 | Exactly the first windows, as many as slots remain, get frames: window k gets the 800 by 600 frame of slot start + k. Later windows keep their frames |
| Collection.PlaceInSlotsStays | DesktopAppManagerBase.swift:842-865 | Placing into slots never switches spaces |
| Collection.MoveFoundSwitches | DesktopAppManagerBase.swift:853-872 | Found windows on space 1 switch nothing. From a later space the sweep switches to 1, then back to that space; as written, not after space 4 |
| Collection.FindApps | DesktopAppManagerBase.swift:785-794 | Returns exactly the targets that were found, with their apps |
| Collection.ZeroCounts | DesktopAppManagerBase.swift:801-804 | Every target's count starts at zero |
| Collection.VisitApp | DesktopAppManagerBase.swift:828-874 | One target during one space's check: its count, the current space and the effects are those of the visit, as written (`returnFromLast` false) or corrected (true) |
| Collection.PlaceFoundWindows | DesktopAppManagerBase.swift:840-873 | Found windows are placed in place on space 1, or fetched to space 1; the current space afterwards is the space checked, except after space 4 as written, where it is space 1 |
| Collection.FetchToSpace1 | DesktopAppManagerBase.swift:851-872 | Switch to 1, activate, place and raise each window, then switch back below space 4; from space 4 only when corrected. It ends on the space switched to last |
| Collection.CheckSpace | DesktopAppManagerBase.swift:822-875 | Switches to the space, then visits every target in order, as written or corrected |
| Collection.SweepAllSpaces | DesktopAppManagerBase.swift:822-876 | Checks spaces 1, 2, 3, 4 in this order, as written or corrected |
| Collection.ActivateTargets | DesktopAppManagerBase.swift:883-889 | Activates every found target, in target order |
| Collection.CollectAllAppsToSpace1 | DesktopAppManagerBase.swift:778-898 | Returns the sweep's counts, ends on space 1, and does the sweep, the switch to space 1 and the final activations; with `returnFromLast` false the sweep is the one written, with true the corrected one |
| Collection.VisitCounts | DesktopAppManagerBase.swift:833-849 | A visit adds to the target's count exactly its visible windows on the current space. With the switch back it stays on the space being checked |
| Collection.SpacePassCounts | DesktopAppManagerBase.swift:828-875 | For distinct targets, one space's check adds to each target exactly its visible windows on that space and ends there |
| Collection.SweepCounts | DesktopAppManagerBase.swift:822-876 | For distinct targets, after spaces 1 to m each count is the target's visible windows over those spaces, carried across spaces |
| Collection.CollectAllCountsEveryWindow | DesktopAppManagerBase.swift:778-898 | With the corrected sweep, each distinct target's count is its visible windows over spaces 1 to 4, and 0 if it was not found |
| Collection.SpacePassBefore4 | DesktopAppManagerBase.swift:869-872 | Before space 4 the as-written and corrected checks do the same |
| Collection.SweepBefore4 | DesktopAppManagerBase.swift:822-876 | Over spaces 1 to 3 the as-written and corrected sweeps agree |
| Collection.AsWrittenStaysOnSpace1 | DesktopAppManagerBase.swift:869-872 | As written, moving a target's windows from space 4 leaves the sweep on space 1 |
| Collection.AsWrittenPassOn4 | DesktopAppManagerBase.swift:828-874 | As written, after one target's space-4 windows are moved, the next target is read on space 1 |
| Collection.AsWrittenReadsSpace1 | DesktopAppManagerBase.swift:822-876 | As written, the second target's count is its windows on spaces 1 to 3 plus those on space 1 again; its space-4 windows are missed |
| Collection.AsWrittenMissesSpace4 | DesktopAppManagerBase.swift:869 | Two targets with one window each on space 4 only: as written the second counts 0, corrected it counts 1 |
| Collection.CollectApps | DesktopAppManagerBase.swift:343-397 | Nothing without the permission. Otherwise it returns the found targets and either gathers every window (with the sweep as written when `returnFromLast` is false, corrected when true) or activates each target and brings one window per target to space 1. It ends on space 1 when there are targets |
| Collection.CollectEndsOnSpace1 | DesktopAppManagerBase.swift:359-392 | With the permission and targets, the last switch is to space 1, for either sweep; bringing one window per app switches only once, to space 1 |
| SpaceAll.CheckVisibleWindows | DesktopAppManagerSpaceAll.swift:241-262 | The early-return loop answers whether some window reports that it is not minimised |
| SpaceAll.VisibilityTestsDiffer | DesktopAppManagerSpaceAll.swift:250-258 | Every app this test accepts has a visible window. An unreadable attribute is visible to the filter but not to this test |
| SpaceAll.ActiveAppNames | DesktopAppManagerSpaceAll.swift:201-238 | At most one name per running app |
| SpaceAll.ActiveAppNamesMembers | DesktopAppManagerSpaceAll.swift:206-234 | A name is listed exactly when some app with that name has a bundle ID outside the 11 system IDs, a regular policy and a window reported as not minimised |
| SpaceAll.GetAllActiveAppNames | DesktopAppManagerSpaceAll.swift:201-238 | The loop lists exactly the active apps' names, in running-app order |
| SpaceAll.FirstNamed | DesktopAppManagerSpaceAll.swift:178 | The first running app with the name, or none exactly when no app has it |
| SpaceAll.StackEffectsAt | DesktopAppManagerSpaceAll.swift:183-191 | Window i, minimised or not, gets (100 + 30i, 100 + 30i, 1200, 800), one frame per window |
| SpaceAll.StackWindows | DesktopAppManagerSpaceAll.swift:183-191 | The loop stacks every listed window |
| SpaceAll.MoveNamedApp | DesktopAppManagerSpaceAll.swift:178-194 | The first app so named is activated and its windows stacked; a name with no app does nothing |
| SpaceAll.MoveNamedApps | DesktopAppManagerSpaceAll.swift:177-195 | Each active name in turn |
| SpaceAll.MoveActiveAppsToSpace1FromCurrentSpace | DesktopAppManagerSpaceAll.swift:158-196 | With no active app nothing happens and the space is kept. Otherwise it switches to space 1 and moves every active app |
| SpaceAll.MoveStepStacks | DesktopAppManagerSpaceAll.swift:177-194 | One name's step sets exactly the stacked frames of its app's windows on space 1 and otherwise only activates |
| SpaceAll.ActiveMovesStack | DesktopAppManagerSpaceAll.swift:177-195 | Every window of each named app gets its stacked frame, and every effect is an activation or such a frame |
| SpaceAll.ActiveMovesStay | DesktopAppManagerSpaceAll.swift:177-195 | Moving the apps switches no space |
| SpaceAll.VisitSpace | DesktopAppManagerSpaceAll.swift:117-128 | Moves the pointer if given, switches to the space, then moves its active apps; it ends on space 1 if some app was active there, else on the space |
| SpaceAll.SweepSpaces | DesktopAppManagerSpaceAll.swift:147-154 | Visits spaces 2, 3, 4 in order and ends where the visit of space 4 ends |
| SpaceAll.CollectFromExternalMonitorSpaces | DesktopAppManagerSpaceAll.swift:106-140 | Nothing without a non-main monitor, and the space is kept. Otherwise it sweeps spaces 2 to 4 with the pointer on its centre, then again without moving the pointer, ending where the visit of space 4 ends |
| SpaceAll.CollectFromMainDisplaySpaces | DesktopAppManagerSpaceAll.swift:143-155 | One sweep of spaces 2 to 4, ending where the visit of space 4 ends |
| SpaceAll.MoveActiveSwitches | DesktopAppManagerSpaceAll.swift:161-174 | Moving a space's active apps switches to space 1 exactly when something is active there, and to no other space |
| SpaceAll.VisitSwitches | DesktopAppManagerSpaceAll.swift:121-127 | Visiting a space switches to it, then to space 1 when something is active there |
| SpaceAll.SweepSwitchOrder | DesktopAppManagerSpaceAll.swift:147-154 | A sweep switches to 2, 3, 4 in order, each followed by 1 when something is active there, whatever the pointer |
| SpaceAll.SweepEndsOnLastSwitch | DesktopAppManagerSpaceAll.swift:147-154 | A sweep's last switch is to the space the sweep ends on: space 1 if some app was active on space 4, else space 4 |
| SpaceAll.CollectSwitches | DesktopAppManagerSpaceAll.swift:25-36 | With more than one screen, spaces 2 to 4 are swept twice (external, then main); otherwise once |
| SpaceAll.MoveAppsToSpace | DesktopAppManagerSpaceAll.swift:52-103 | The four fixed placements run in order: Slack, then TablePlus and Postman, then iTerm, Cursor and Kiro, then Google Chrome. It ends on the target space of the last placement that found an app, or where it started |
| SpaceAll.ArrangeAllApps | DesktopAppManagerSpaceAll.swift:10-47 | Nothing without the permission, and the space is kept; otherwise gather, switch to space 1, then place, ending on the target space of the last placement that found an app, or on space 1 |
| SpaceAll.ArrangeSwitchOrder | DesktopAppManagerSpaceAll.swift:10-47 | Without the permission nothing happens. Otherwise the gathering sweeps' switches come first, then space 1, then the placements' switches |
| SpaceAll.SingleScreenOnlySlackMoves | DesktopAppManagerSpaceAll.swift:52-103 | With a single screen only the Slack placement moves windows; the three external placements move none |
| SpaceAll.ExternalStepKeepsFrames | DesktopAppManagerSpaceAll.swift:65-102 | With a single screen an external placement adds no frame change |
| MonitorPlacement.MoveWindowToMonitor | MonitorManager.swift:68-106 | Sets only the position of the chosen window, to the monitor's origin plus (100, 100), or does nothing without a window |
| MonitorPlacement.MoveToMonitorKeepsSize | MonitorManager.swift:99-105 | The chosen window's origin becomes the monitor origin plus (100, 100) and its size is unchanged; every other window keeps its frame |
| MonitorPlacement.ArrangeAppsOnExternalMonitor | MonitorManager.swift:109-144 | Nothing without an external monitor; otherwise TablePlus is positioned at the left half, then Postman at the right half |
| MonitorPlacement.ArrangeSplitsExternal | MonitorManager.swift:115-143 | With two distinct chosen windows, TablePlus's ends at the left half and Postman's at the right half, which tile the monitor |
| MonitorPlacement.ArrangeSkipsMissing | MonitorManager.swift:110-143 | Nothing without an external monitor or with both apps missing; at most two windows move |

## Left out

- Accessibility attribute calls, key and mouse events, and the screen and workspace queries are foreign OS calls. They are `World` (what the OS answers) and `Effect` (what is asked of it). A failed window-list read is an empty list, and an attribute set on a stale handle changes nothing.
- `Thread.sleep` delays and `SleepTimeConfig.swift` are timing only.
- `findOrLaunchApp` with its asynchronous launch and time-out is an oracle map from name to app (`World.found`). The running-app check in `collectAllAppsToSpace1` reads the same map.
- `getBundleIdentifier` probes the filesystem: I/O.
- The permission is the flag `World.trusted`; the permission prompt and the error message are left out.
- Every `print`, `getPositionDescription` and `printCompletionSummary` is narration only.
- `main.swift`, the Space1 to Space4 wrappers and the legacy `arrangeApps` path are outside the planner.
- `assignWindowToCurrentSpace` is an activation plus a delay and a message. `focusExternalMonitorSpace` is a space switch.
- `WindowServer.Desktop.Raise`: raising only brings a window forward and focuses it; no frame changes, and focus and main status are not modelled.
- Spaces are numbers. Space n of the main display and of the external monitor is one space. Which windows an app lists depends only on the current space, not on where the pointer is.
- The answers of the OS never change during a run (`World` is fixed). So a window moved to space 1 is not listed there afterwards, and activating an app never changes the current space. The finding below and `Collection.AsWrittenReadsSpace1` rest on both.
- Int overflow in the offsets (`index * 50`, `index * 30`) is not modelled; integers are unbounded.
- Converting 18 + n − 1 to the 16-bit key code would trap out of range. The model requires it to fit (`WindowServer.CanSwitchTo`).
- CGFloat is `real`: the planner only adds, halves and multiplies by small integers, so no rounding is modelled.
- `Windows.VisibleWindows`: its own contract states only the length bound. Membership and order are stated by `Windows.VisibleWindowsMembers` and `Windows.VisibleWindowsConcat`.
- `SpaceAll.ActiveAppNames`: its own contract states only the length bound. Membership is `SpaceAll.ActiveAppNamesMembers`; running-app order follows from its definition as a fold over the running apps in order.

## Findings

| source | as written | input that shows it | evidently intended | confidence | as-written member | corrected member |
|---|---|---|---|---|---|---|
| DesktopAppManagerBase.swift:869 | After moving a target's windows found on space 4 to space 1, the sweep does not switch back to space 4. Every later target is then read on space 1: its windows there are counted a second time and its windows on space 4 are missed | Targets A and B, each with one visible window, both on space 4 only: B is counted 0 | Every target is read on the space being checked, so each count is the target's visible windows over spaces 1 to 4 (B counts 1) | not executed | Collection.AsWrittenMissesSpace4 | Collection.CollectAllCountsEveryWindow |

The as-written sweep is `Collection.CollectAll` with `returnFromLast` false. `Collection.AsWrittenReadsSpace1` states its general effect. The sweep's methods, from `Collection.VisitApp` up to `Collection.CollectApps`, take `returnFromLast` too: false gives the program as written, true the corrected sweep, which also switches back after space 4.
