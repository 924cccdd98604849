# Map-screen panel routing and speed-dial button

This project models the one piece of logic under the trashcan-map app's screen layer. It has
two parts:

- **Panel routing in the map screen.** The screen keeps independent flags, one per overlay
  sheet: info, login ("auth"), add-trashcan and leaderboard. It also keeps an alert flag and
  the selected pin (`selectedIndex`, `selectedId`). Marker taps, speed-dial intents and the
  sheets' dismiss callbacks update these. A nested conditional picks what the overlay slot
  shows, with priority info > auth > add > leaderboard. When no sheet applies, the slot shows
  the floating button.
- **The speed-dial floating button.** A boolean `open` flips on every press of the main
  handle, which starts an animation toward the opposite endpoint. Three sub-handles emit the
  intents `leaderBoard`, `addTrashcan` and `login`.

Files:

- `wrappers.dfy` defines `Option`. `None` stands for JavaScript's `null`.
- `marker.dfy` classifies a pin by `likes - dislikes`.
- `routing.dfy` models the screen as values:
  - `ScreenState` holds the flags.
  - `Selected` is the render conditional.
  - `Step` holds the handlers.
  - `Enabled` says which handlers are on screen.
  - `Inv` is the invariant of reachable states.
- `map_screen.dfy` is the screen as a class `MapScreen`. Its fields are the `useState` flags.
  Each handler method updates them in place and is proved to agree with `Step`. The mount
  effect is proved to agree with `Mount`.
- `floating_button.dfy` holds the button: the class `FloatingButton` with `open`, the intents,
  and the transform endpoints.

The screen keeps independent booleans rather than one current-panel value, so several can be
true at once. For example, tapping a marker while the login sheet is up leaves both the info
and auth flags set. What the slot shows is still always one panel, chosen by the conditional's
precedence. `Inv` and `ReachableExclusive` state a stronger guarantee that holds only under an
assumption: each handler fires only while its element is rendered, and each menu intent's user
lookup finishes before the next tap. The program does not enforce the second part.
`UngatedMenuBreaksExclusivity` shows the state that two taps during one lookup produce.

## Model

| member | source | states |
|---|---|---|
| MarkerColour.ToneOf | src/scenes/MapScreen.js:139-141 | The net score splits into exactly three classes: positive iff net >= 2, negative iff net <= -2, neutral iff -1 <= net <= 1 |
| MarkerColour.IosPinColor | src/scenes/MapScreen.js:138-144 | The iOS pin colour is `null` (the default) iff the net score is between -1 and 1, blue iff the pin is positive, red iff it is negative |
| MarkerColour.MarkerImage | src/scenes/MapScreen.js:161-178 | The marker image is one of green, red and gray; gray iff the pin is neutral, green iff the net score exceeds 1 |
| MarkerColour.PlatformsAgree | src/scenes/MapScreen.js:138-178 | The iOS pin colour (blue/red/null) and the other platform's marker image (green/red/gray) both follow the one classification, and two pins get the same colour iff they get the same class |
| PanelRouting.Selected | src/scenes/MapScreen.js:186-271 | The render conditional. The shown panel's own condition holds, and no panel of higher priority has its condition holding |
| PanelRouting.Step | src/scenes/MapScreen.js:89-257 | The handlers `onClicked`, `menuPressed` and the four `onDismiss` callbacks, on values. Only a tap or the info dismissal touches the info flag and the selection. The alert is raised only by an add intent without a stored user. Only menu intents set the auth, add or leaderboard flag |
| PanelRouting.Mount | src/scenes/MapScreen.js:115-117 | The mount effect clears the selected index and leaves every other field as it was |
| PanelRouting.Enabled | src/scenes/MapScreen.js:132-271 | Stands in for the conditional rendering: a handler can fire only while its element is rendered. Marker taps are always enabled. A menu intent requires the button in the slot, so no auth, add or leaderboard flag is set. The info dismissal requires the info sheet in the slot. It assumes the intent is applied when it is tapped, with the user lookup taken as atomic |
| PanelRouting.SelectedIsHighestPriority | src/scenes/MapScreen.js:186-271 | For every combination of flags, panel p is shown iff p is requested and no panel of higher priority (info > auth > add > leaderboard > button) is requested |
| PanelRouting.InfoSelectedIff | src/scenes/MapScreen.js:186 | Info is shown iff the info flag is set and an index is present; index 0 counts as present |
| PanelRouting.FloatingButtonIff | src/scenes/MapScreen.js:265-271 | The floating button is shown iff no sheet's condition holds |
| PanelRouting.ClickShowsInfo | src/scenes/MapScreen.js:89-94 | A marker tap sets the index, the id and the info flag, changes nothing else, and the info sheet is then shown whatever else was flagged |
| PanelRouting.MenuOpensNamedPanel | src/scenes/MapScreen.js:96-113 | With the button shown: 'login' shows Auth, 'addTrashcan' with a stored user shows Add, 'leaderBoard' shows LeaderBoard. 'addTrashcan' without a user only raises the alert. Any other name changes nothing |
| PanelRouting.UnauthenticatedAddKeepsView | src/scenes/MapScreen.js:101-103 | Adding without a stored user raises the alert and never changes what the slot shows |
| PanelRouting.InfoDismissHidesAuth | src/scenes/MapScreen.js:190-196 | After the info dismissal, neither Info nor Auth is shown. The selection is cleared. The add, leaderboard and alert flags are kept |
| PanelRouting.MountedIsValid | src/scenes/MapScreen.js:60-117 | The initial state (index 0) shows the button but breaks the invariant; after the mount effect clears the index, the invariant holds |
| PanelRouting.StepKeepsInv | src/scenes/MapScreen.js:89-271 | Every handler fired while its element is rendered keeps the invariant (info flag, index and id set together; at most one of auth/add/leaderboard) |
| PanelRouting.RunKeepsInv | src/scenes/MapScreen.js:89-271 | Any sequence of rendered-only events from a valid state ends in a valid state |
| PanelRouting.ReachableExclusive | src/scenes/MapScreen.js:186-271 | In every state reachable after mount, at most one of auth/add/leaderboard is flagged, and the button is shown iff no sheet flag is set |
| PanelRouting.DismissRevealsUnderlying | src/scenes/MapScreen.js:190-257 | In a valid state, dismissing the shown auth, add or leaderboard sheet returns the slot to the button. Dismissing the info sheet reveals the add or leaderboard sheet beneath it, if any, and otherwise the button |
| PanelRouting.UngatedMenuBreaksExclusivity | src/scenes/MapScreen.js:96-113 | Two intents delivered back to back, which the gating forbids, leave two sheets flagged; dismissing the login sheet then reveals the leaderboard |
| PanelRouting.LoginThenPinScenario | src/scenes/MapScreen.js:89-222 | Login, dismiss, tap the marker at index 0, dismiss: every step is enabled and the screen returns to its mounted state |
| MapScreenComponent.MapScreen.constructor | src/scenes/MapScreen.js:60-66 | Every flag is false, the index is 0 and the id is null; the button is shown |
| MapScreenComponent.MapScreen.MountEffect | src/scenes/MapScreen.js:115-117 | Clears the index and nothing else |
| MapScreenComponent.MapScreen.OnClicked | src/scenes/MapScreen.js:89-94 | Sets the index, the id and the info flag; other flags are unchanged; Info is shown |
| MapScreenComponent.MapScreen.MenuPressed | src/scenes/MapScreen.js:96-113 | Each flag's new value, per intent name and stored-user presence; the selection is unchanged |
| MapScreenComponent.MapScreen.OnDismissInfo | src/scenes/MapScreen.js:190-196 | Clears auth, info and the selection, keeps the rest; neither Info nor Auth is shown |
| MapScreenComponent.MapScreen.OnDismissAuth | src/scenes/MapScreen.js:221-223 | Clears only the auth flag |
| MapScreenComponent.MapScreen.OnDismissAdd | src/scenes/MapScreen.js:238-240 | Clears only the add flag |
| MapScreenComponent.MapScreen.OnDismissLeaderBoard | src/scenes/MapScreen.js:255-257 | Clears only the leaderboard flag |
| MapScreenComponent.LoginThenMarkerTap | src/scenes/MapScreen.js:89-196 | A marker tap over the login sheet, then the info dismissal, leaves the button shown: the login sheet went with the info sheet |
| SpeedDial.Intent | src/FloatingButton.js:61-86 | Every sub-handle emits a name the menu handler dispatches on |
| SpeedDial.IntentsAreMenuNames | src/FloatingButton.js:63-81 | The three handles emit distinct names, and together they are exactly {login, addTrashcan, leaderBoard} |
| SpeedDial.TranslateY | src/FloatingButton.js:19-44 | A handle's translateY is 0 at value 0 and its full offset at value 1 |
| SpeedDial.Scale | src/FloatingButton.js:17-39 | A handle's scale is 0 at value 0 and 1 at value 1 |
| SpeedDial.RotationDeg | src/FloatingButton.js:48-57 | The main handle's rotation is 0 degrees at value 0 and 45 degrees at value 1 |
| SpeedDial.CollapsedTransforms | src/FloatingButton.js:15-57 | At 0, every translateY, every scale and the rotation are 0 |
| SpeedDial.ExpandedTransforms | src/FloatingButton.js:15-57 | At 1, the translateY values are -15/-30/-45, the scale is 1 and the rotation is 45 degrees |
| SpeedDial.TransformsBetweenEndpoints | src/FloatingButton.js:15-57 | For every value between 0 and 1, each translateY, scale and rotation stays between its two endpoint values |
| SpeedDial.HandlesStayOrdered | src/FloatingButton.js:19-44 | For every value above 0, leaderboard sits above add, which sits above login, which sits above the resting position |
| SpeedDial.OpenAfterParity | src/FloatingButton.js:13-99 | After n presses from the falsy 0, `open` is true iff n is odd |
| SpeedDial.PressTargetsNewState | src/FloatingButton.js:88-100 | The target requested by a press is the endpoint, as 0/1, of the `open` that press produces |
| SpeedDial.FloatingButton.constructor | src/FloatingButton.js:12-13 | Closed, animated value at 0, no presses |
| SpeedDial.FloatingButton.Press | src/FloatingButton.js:88-100 | Targets 0 when open and 1 when closed, then flips `open`. It keeps the invariant that `open` follows the press count's parity and the target is `open` as 0/1 |
| SpeedDial.PressTwice | src/FloatingButton.js:88-100 | From a fresh button, the first press targets 1 and the second targets 0 |

## Left out

- Map and marker rendering are not modelled: the map view, the marker image assets and the
  `Platform.OS` branch. Both branches' classification is modelled, but not which one runs.
  These are foreign UI components.
- The bottom-sheet refs and their `present()` calls are not modelled. Neither is the sheets'
  own show/hide behaviour. These are foreign library behaviour; the model decides only which
  sheet is rendered.
- Snap points, styles and the sheet background are presentation only.
- `getData('user')` and the `async`/`await` around it are not modelled. The lookup result is
  an input of `MenuPressed` (`Option<StoredUser>`, `None` for `null`). Interleaving of
  events during the lookup is not modelled.
- ReachableExclusive (with `RunKeepsInv`, `StepKeepsInv` and `Enabled`): the guarantee assumes
  that each intent's user lookup finishes before the next sub-handle tap. The program does not
  enforce this: the button stays rendered while the lookup is pending. Two taps during one
  lookup reach the state built in `UngatedMenuBreaksExclusivity`, with two sheet flags set.
- The floating button is rendered only while no sheet is shown. Opening a sheet unmounts it,
  and it remounts closed with its value at 0. `FloatingButton.presses`, and so
  `OpenAfterParity`, count the presses since the button last appeared.
- Child components are not modelled: `TrashcanInfo`, `Auth`, `AddTrashcan`, `LeaderBoard` and
  `Alert`. They receive the setters and may change flags themselves, for example the alert's
  confirmation clearing `alertVisible`. Their code is not part of this model.
- The `loadingVisible` state of the screen is only passed to child components and is not
  modelled. The `likes` and `dislikes` state is declared but never read; the markers read the
  vote counts of each pin instead. The pin and user context providers and logging are not
  modelled either.
- The spring animation is not modelled: friction, tension, the native driver and every value
  between the endpoints. `toValue` records the value the spring is sent toward.
- Vote counts are unbounded integers. JavaScript number precision and non-numeric or missing
  counts (NaN comparisons) are not modelled.
