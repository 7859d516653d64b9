# Bottom-sheet stack navigator: the sheet-stack reconciler

This project models the core of `src/navigation/createBottomSheetNavigator.js`, a
React Navigation navigator. The navigator presents every route after the first
as a bottom sheet stacked over the first route, which is the base screen. The
navigation state holds a declarative list of route keys. Sheets have to
animate in and out, so the navigator also keeps an imperative list of mounted
sheets. `StackView` keeps the two in step.

- A **pass** (`Reconciler.StackView.Reconcile`) runs on every render. It splits
  off the base key and appends the sheet keys it has not seen before to the
  mounted list `keys`. For each of them it snapshots the route's descriptor
  into a cache. It flags the keys that left the state as *removing*, and it
  remembers the sheet keys for the next pass.
- A flagged sheet closes itself (`SheetRoute.ClosesOnRender`). A sheet that
  finished leaving reports a dismissal (`SheetRoute.CallsDismiss`), and the
  stack view handles it in `Reconciler.StackView.OnDismiss`. When the key's
  removing flag is unset (typically because the user swiped the sheet away
  while the state still lists it), it dispatches a stack pop. In every case it
  evicts the key from the cache, from the flags and from `keys`.
- The rendered sheets (`Reconciler.Project`) are the mounted keys that still
  have a cached descriptor, in mount order.
- Beside the stack view sit some pure rules: the defaults of a route's sheet
  options (`SheetRoute.Configure`) and the closed snap point put in front of
  the route's own (`SheetRoute.WithClosedPoint`). The navigator also merges
  the user's screen options over its own defaults (`Navigator.MergedOptions`)
  and guards its tab-press reset (`Navigator.TabPressAction`).

The model's state and events:
- The refs and the `keys` state of the stack view are fields of the class
  `Reconciler.StackView`.
- The navigation container is an outbox of dispatched actions, the class
  `Navigator.Navigation`.
- The bottom-sheet animation is an outside source of events. It calls
  `OnDismiss` and delivers `SheetRoute.SheetEvent` values.

The model follows the code where a cleaner account of the component would
differ:
- Eviction clears the removing flag, so a second dismissal report for the same
  key dispatches a pop again (`Scenarios.DismissReportedTwice`). A sheet
  reports its dismissal both through the animation callback and through its
  dismissal callback.
- A sheet the user closed stays unmounted while the state still lists it. It
  is not remounted if the pop is never applied. `Reconcile` states exactly
  which sheet keys are mounted after a pass.
- When the state drops a key that was already evicted, the pass still flags
  it, and the flag stays set (`Scenarios.UserClosesSheet`).
- A pass never clears a flag. A key the state drops and adds again before its
  sheet is dismissed is appended to `keys` a second time and keeps its flag.
  Its sheet closes as soon as it mounts. Its dismissal evicts both entries
  without a pop although the state still lists the key, and the key is not
  mounted again (`Scenarios.ReaddedBeforeEviction`).

Files: `wrappers.dfy` (Option), `route_keys.dfy` (module RouteKeys),
`sheet_route.dfy` (SheetRoute), `navigator.dfy` (Navigator),
`reconciler.dfy` (Reconciler), `scenarios.dfy` (Scenarios: histories replayed
against the class).

## Model

| member | source | states |
|---|---|---|
| `RouteKeys.Without` | src/navigation/createBottomSheetNavigator.js:104-106 | a key is in the filtered list iff it is in the first list and not in the second; the result is no longer than the input |
| `RouteKeys.WithoutAppend` | src/navigation/createBottomSheetNavigator.js:104-106 | the filter distributes over concatenation, so it keeps the order of what it keeps |
| `RouteKeys.WithoutDisjoint` | src/navigation/createBottomSheetNavigator.js:104-106 | a list none of whose keys is excluded comes back unchanged |
| `RouteKeys.WithoutCovered` | src/navigation/createBottomSheetNavigator.js:113-115 | a list all of whose keys are excluded comes back empty, so a pass over unchanged keys finds nothing new and nothing dropped |
| `RouteKeys.WithoutIdempotent` | src/navigation/createBottomSheetNavigator.js:139-141 | filtering twice by the same keys is filtering once |
| `RouteKeys.RemoveKeyKeepsOthers` | src/navigation/createBottomSheetNavigator.js:139-141 | removing one key keeps every other entry in place relative to the rest |
| `SheetRoute.Configure` | src/navigation/createBottomSheetNavigator.js:49-54 | each option the route sets is kept; each undefined one (or all, for undefined options) takes its default: black, 1, 100%, [100%] |
| `SheetRoute.ConfigureKeepsExplicit` | src/navigation/createBottomSheetNavigator.js:49-54 | options that set every field pass through defaulting unchanged |
| `SheetRoute.ConfigureDefaults` | src/navigation/createBottomSheetNavigator.js:49-54 | undefined options and an empty bag both give black, opacity 1, full height, one full-height snap point |
| `SheetRoute.WithClosedPoint` | src/navigation/createBottomSheetNavigator.js:57 | the sheet's snap points are the closed point 0 followed by the route's snap points, index i+1 being the route's i-th |
| `SheetRoute.MountsAtFirstSnapPoint` | src/navigation/createBottomSheetNavigator.js:57-70 | the mount index 1 names the route's first snap point, and exists iff the route has one |
| `SheetRoute.CallsDismiss` | src/navigation/createBottomSheetNavigator.js:42-72 | the dismissal callback (the `onDismiss` prop, line 72) always reaches the stack view's handler; an animation does iff it runs from index 1 to index 0 |
| `SheetRoute.DismissingAnimationCloses` | src/navigation/createBottomSheetNavigator.js:42-57 | an animation reported as dismissal runs from the route's first snap point to the closed point |
| `SheetRoute.ClosesOnRender` | src/navigation/createBottomSheetNavigator.js:38-40 | a render closes the sheet only when the removing flag is set, and then iff the flag was not already set at the previous render |
| `SheetRoute.ClosesOnce` | src/navigation/createBottomSheetNavigator.js:38-40 | while the flag, once set, stays set, the route calls close exactly once if the flag is ever set and never otherwise |
| `Navigator.DefaultOptions` | src/navigation/createBottomSheetNavigator.js:157-163 | animations are enabled iff the platform is none of web, Windows and macOS; gestures are always enabled; no other key |
| `Navigator.MergedOptions` | src/navigation/createBottomSheetNavigator.js:168-177 | the keys are the defaults' and the user's; user values win; defaults fill in the rest; a function's result is merged per route |
| `Navigator.UnsetGivesDefaults` | src/navigation/createBottomSheetNavigator.js:174-177 | without screen options every route gets exactly the defaults |
| `Navigator.TabPressAction` | src/navigation/createBottomSheetNavigator.js:188-195 | a reset to the top targeting the state is produced iff index > 0, the tab was focused and the default was not prevented |
| `Navigator.OnTabPress` | src/navigation/createBottomSheetNavigator.js:182-196 | the listener appends that reset to the outbox when the guards pass and leaves the outbox alone otherwise |
| `Reconciler.SplitRoutes` | src/navigation/createBottomSheetNavigator.js:101 | the first route key is the base, the rest are the sheet keys; no routes give no base and no sheets |
| `Reconciler.BaseNeverStacked` | src/navigation/createBottomSheetNavigator.js:101-106 | with unique keys, the base key is never among the keys a pass mounts |
| `Reconciler.BaseSurface` | src/navigation/createBottomSheetNavigator.js:123 | the base screen renders its own descriptor, and there is none iff the state has no routes or no descriptor for the first |
| `Reconciler.Snapshot` | src/navigation/createBottomSheetNavigator.js:110 | each snapshotted key holds the state's descriptor, or is absent when the state has none; every other cache entry is unchanged |
| `Reconciler.SnapshotStep` | src/navigation/createBottomSheetNavigator.js:110 | snapshotting one more key sets or clears that key's entry on top of the earlier snapshots |
| `Reconciler.Project` | src/navigation/createBottomSheetNavigator.js:124-146 | each rendered sheet is a mounted key with its cached descriptor and its flag; every mounted key with a cached descriptor is rendered |
| `Reconciler.ProjectAppend` | src/navigation/createBottomSheetNavigator.js:124-128 | rendering a concatenation renders the parts in order, so sheets render in mount order |
| `Reconciler.EvictionDropsOnlyKey` | src/navigation/createBottomSheetNavigator.js:137-141 | after evicting a key, the rendered sheets are the previous ones without that key's, the others keeping order, descriptor and flag |
| `Reconciler.EvictionIdempotent` | src/navigation/createBottomSheetNavigator.js:137-141 | evicting a key a second time leaves `keys`, the cache and the flags as the first eviction left them |
| `Reconciler.PassFacts` | src/navigation/createBottomSheetNavigator.js:104-119 | after a pass every cached key is mounted; a sheet key is unmounted only if it was known and evicted; an unchanged list adds and flags nothing |
| `Reconciler.StackView.constructor` | src/navigation/createBottomSheetNavigator.js:100-107 | the refs and `keys` start empty |
| `Reconciler.StackView.Reconcile` | src/navigation/createBottomSheetNavigator.js:99-119 | `keys` gains exactly the new sheet keys at its end in state order; their descriptors are snapshotted; exactly the dropped keys get flagged; the sheet keys are remembered; a pass over the same keys changes nothing |
| `Reconciler.StackView.StoreDescriptors` | src/navigation/createBottomSheetNavigator.js:109-111 | the loop leaves the cache equal to the snapshot of the new keys |
| `Reconciler.StackView.FlagRemoving` | src/navigation/createBottomSheetNavigator.js:113-118 | the loop adds exactly the dropped keys to the flagged set |
| `Reconciler.StackView.OnDismiss` | src/navigation/createBottomSheetNavigator.js:130-142 | a pop with source the key and target the state is dispatched iff the key is unflagged and the navigation can dispatch; the key's entry and flag are cleared and all its occurrences leave `keys`; nothing else changes |
| `Scenarios.PushTwiceThenPopByState` | src/navigation/createBottomSheetNavigator.js:99-149 | two pushes then a pop by the state: the popped sheet is flagged, then evicted on dismissal with nothing dispatched |
| `Scenarios.UserClosesSheet` | src/navigation/createBottomSheetNavigator.js:99-149 | a sheet closed by the user is popped once and evicted; the later pass flags its key though nothing is mounted |
| `Scenarios.DismissReportedTwice` | src/navigation/createBottomSheetNavigator.js:130-142 | a second dismissal report after a state-driven removal dispatches a pop, because eviction cleared the flag |
| `Scenarios.ReaddedBeforeEviction` | src/navigation/createBottomSheetNavigator.js:104-142 | a key dropped and added again before dismissal is mounted twice with its flag still set, and its dismissal evicts both entries with nothing dispatched |
| `Scenarios.DismissTwiceEvictsOnce` | src/navigation/createBottomSheetNavigator.js:137-141 | after any pass, a second dismissal of a key leaves `keys`, the cache and the flags as the first dismissal left them, with the key gone from all three |
| `Scenarios.TabPressClosesAllSheets` | src/navigation/createBottomSheetNavigator.js:182-196 | the tab-press reset is dispatched, and the pass over the reset state flags both sheets, which stay mounted in order |

## Left out

- The bottom-sheet animation is not modelled: `BottomSheet`, `animationDuration`, the screen height from `Dimensions`, and the background component with its `opacity` and `translateY`. These are floating point and calls into an animation library. The sheet is an outside source of `OnDismiss` calls and `SheetEvent`s.
- The backdrop press that calls `close` (line 76) is left out for the same reason. It only starts an animation that ends in a dismissal event.
- React rendering, JSX, hooks and memoisation are not modelled. `setKeys` is a synchronous update of the `keys` field. The re-render React runs after `setKeys` is a second pass, and `Reconcile` shows that such a pass changes nothing.
- `useNavigationBuilder`, `StackRouter` and `StackActions` are left out. Dispatching appends to the outbox and nothing applies the action. The scenarios feed the next route list by hand.
- The `requestAnimationFrame` deferral of the tab-press check is left out. So are the `Platform.OS` lookup, `navigation.isFocused()` and the event's `defaultPrevented`. All of them are inputs.
- The tab-press listener is registered only when the navigation has `addListener`. The model always has the listener.
- Navigator.OnTabPress: requires a navigation that can dispatch. The source calls `dispatch` there without a guard, so the model assumes the navigation object of the navigator always has `dispatch`.
- `Navigator.Platform` is a closed set of five platforms. The source enables animations for every platform name other than web, windows and macos, including names the model does not list.
- `onAnimate` is memoised with no dependencies, so it keeps the first render's dismiss handler. That handler holds the first render's `navigation` and `state.key`. `OnDismiss` takes the navigation and state key as parameters and does not model which render they come from.
- Option values that are `null` rather than undefined are not modelled. Destructuring defaults replace only undefined values. Screen-option keys whose value is undefined are not modelled either.
- Sizes are whole numbers of points or percentages. The library also takes fractional numbers.
- Reconciler.StackView.OnDismiss: the source dispatches the pop before it evicts. The model cannot observe that order, because the outbox and the stack view are separate objects.
- No property says duplicate dismissals are suppressed, because the code does not suppress them. `Scenarios.DismissReportedTwice` shows the second dispatch.
- src/components/fields/UnderlineField.js, src/components/expanded-state/swap-details/SwapDetailsMasthead.js and src/entities/index.ts are not part of this model. They are an input field, a presentational header and type re-exports, unrelated to the stack.
