# status-title-bar, modelled in Dafny

This project models the core of the StatusTitleBar GNOME Shell extension.
The extension replaces the panel's application menu button with one that
shows the title of the focused window when that window is maximized both
ways, and the application's name otherwise. Two parts are modelled, each in
both revisions of the button:

- The signal ledger (`connectAndTrack` / `disconnectTrackedSignals`). Each
  owner object keeps, under one property name, a list of `[subject, id]`
  pairs. The list is created on first use. Releasing it disconnects every
  pair on its own subject, in order, and deletes the list.
- The panel button (`StatusTitleBarButton`). It holds:
  - its own ledger, filled by `_init`;
  - a workspace ledger, rebuilt whenever the number of workspaces changes;
  - the `_notifyTitleId` property it stores on each window it has shown.

  It also applies the rule that decides which text the panel shows.

Modules:

| file | module | contents |
|---|---|---|
| host.dfy | `Host` | identities of the shell objects, signal names, callbacks, window facts, the `_notifyTitleId` store (`TitleTags`) |
| signals.dfy | `Signals` | the shell's signal service (`SignalHub`), what a release does to the live handlers, and the invariants on stored title ids |
| utils.dfy | `Utils` | the ledger (`Ledger`): `ConnectAndTrack`, `DisconnectTrackedSignals` |
| title.dfy | `Title` | the display rule of both revisions as functions |
| tracking.dfy | `Tracking` | what a button's two ledgers hold after `_init` and after a workspace rebuild |
| extension.dfy | `Extension` | the button of the current revision (src/extension.js) |
| legacy_extension.dfy | `LegacyExtension` | the button of the older revision (root extension.js) |
| scenarios.dfy | `Scenarios` | end-to-end scenarios: fresh shell, fresh button, a few handler calls |

The shell's signal service is a class, `SignalHub`:

- `live` maps each connected handler id to its subject, signal and callback.
- `nextId` is the next id to issue. Ids start at 1, so a stored id is always
  truthy.
- A ghost trace `calls` records every `connect` and `disconnect` in order.

A handler id stored in `_notifyTitleId` is kept in the shared `TitleTags`
map, keyed by the object it is stored on: a MetaWindow or a window actor.
A null, undefined or deleted property is an absent key.

The button's `Valid()` holds:

- every recorded pair's id, while live, belongs to the recorded subject;
- stored ids sit on MetaWindows only;
- every live 'notify::title' handler of the button on a window (one bound
  to the button's title callback) is the id stored on that window. So a
  window has at most one live title handler of the button. Title handlers
  that other parts of the shell connect are allowed and left alone.

The focused window, its title, maximize flags and focus, the resolved
application, the workspace count and the list of windows on screen are
parameters of the handlers.

With no focused window `_sync` returns before touching anything, so the
label keeps its previous text (`Extension.StatusTitleBarButton.Sync`,
`Scenarios.FocusLost`). A focused window that is not fully maximized and has
no resolved application gets an empty label in the current revision; in the
older revision the same input throws.

## Model

| member | source | states |
|---|---|---|
| Signals.SignalHub.Connect | src/utils.js:17 | `subject.connect` returns an id never issued before; it becomes live with that subject, signal and callback; nothing else changes |
| Signals.SignalHub.Disconnect | src/utils.js:31 | `subject.disconnect(id)` drops the handler exactly when it is live on that subject; other handlers are untouched |
| Signals.Unsubscribe | src/utils.js:31 | a disconnect leaves the live map as it was or without `id`; `id` stays live iff it was live on another subject |
| Utils.Ledger.ConnectAndTrack | src/utils.js:12-19 | one connect with a fresh id; the owner's list becomes the old list (empty when absent) plus `[subject, id]`; other owners' lists are unchanged. The older revision's inline copy (extension.js:41-48) is the same code under the property `_StatusTitleBar_bound_signals` |
| Utils.Ledger.DisconnectTrackedSignals | src/utils.js:21-36 | a null owner, or one without a list, changes nothing. Otherwise one disconnect per pair, in order, on that pair's subject; then the owner's list is gone and no other owner's list changes. The older revision's inline copy (extension.js:50-65) is the same code |
| Signals.DisconnectedRemovesTracked | src/utils.js:26-35 | when each recorded id, while live, belongs to its recorded subject, release removes exactly the recorded ids from the live handlers |
| Signals.DisconnectedTouchesOnlyTracked | src/utils.js:26-33 | release never adds or alters a handler, and every handler not recorded by the owner survives it |
| Signals.DisconnectCallsOnePerEntry | src/utils.js:26-33 | release issues exactly one disconnect per recorded pair, the k-th on the k-th pair's subject and id |
| Signals.ReleaseUndoesTracking | src/utils.js:12-36 | tracking fresh handlers and then releasing them returns the live handlers to what they were before |
| Signals.AtMostOneTitleHandler | src/extension.js:100-107 | under the button's invariant, two live 'notify::title' handlers of the button on the same window are the same handler; title handlers of other code are not constrained |
| Signals.TeardownReleasesAll | src/extension.js:151-181 | releasing the own ledger, then the workspace ledger (two `Disconnected` folds), then the ids stored on the listed windows removes from the live handlers exactly the recorded ids and every stored id, provided every window with a stored id is listed; every other handler survives unchanged |
| Title.MaximizedShowsTitle | src/extension.js:121-123 | a window maximized both ways shows its own title, whatever application was resolved |
| Title.HalfMaximizedIsNotMaximized | src/extension.js:30 | maximized in only one direction counts as not maximized, so the title is not shown |
| Title.NotMaximizedShowsAppName | src/extension.js:124-127 | a window not maximized both ways shows the application's name, or the empty string when none was resolved; its title plays no part |
| Title.LegacyAgreesUnlessNullApp | extension.js:151-160 | the older rule fails exactly when the window is not fully maximized and no application was resolved; otherwise it agrees with the current rule |
| Extension.StatusTitleBarButton.constructor | src/extension.js:49-71 | after `_init` the own ledger holds the five subscriptions in order, each live with its signal and callback; the workspace ledger holds one 'window-removed' handler per workspace; the label is empty; no earlier handler and no other owner's ledger changed; the invariant holds |
| Extension.StatusTitleBarButton.TrackInitSignals | src/extension.js:56-68 | the five `connectAndTrack` calls of `_init` record, in order, fresh live handlers for the five subscriptions |
| Extension.StatusTitleBarButton.TrackOwn | src/extension.js:56-68 | each of those calls extends the recorded prefix by one fresh live handler and keeps the invariant |
| Extension.StatusTitleBarButton.Sync | src/extension.js:73-87 | no focused window: nothing changes. Otherwise label and accessible name follow the display rule. An already tagged window gets no new handler; an untagged one gets exactly one fresh 'notify::title' handler, stored on it |
| Extension.StatusTitleBarButton.WorkspacesChanged | src/extension.js:89-98 | the old workspace handlers are released, and the workspace ledger then holds one fresh 'window-removed' handler per index; other handlers are untouched |
| Extension.StatusTitleBarButton.SubscribeWorkspaces | src/extension.js:92-97 | the loop records, for every index below the count, a fresh live handler on that workspace, in index order |
| Extension.StatusTitleBarButton.InitWindow | src/extension.js:100-107 | any previous title handler of the button on the window is disconnected, then one fresh one is connected and stored; the invariant (one title handler of the button per window) holds |
| Extension.StatusTitleBarButton.OnWindowTitleChanged | src/extension.js:109-115 | the label changes only for a window that has focus, and then follows the display rule |
| Extension.StatusTitleBarButton.SetTitle | src/extension.js:117-128 | label and accessible name both follow the display rule, so they are always equal |
| Extension.StatusTitleBarButton.OnHideTitlePreview | src/extension.js:131-140 | the title is re-shown only when a focused window is maximized both ways and the label differs from its title; otherwise nothing changes |
| Extension.StatusTitleBarButton.OnRedimension | src/extension.js:142-146 | a resized window is handled as a title change of that window |
| Extension.StatusTitleBarButton.OnWindowDestroy | src/extension.js:147-150 | the destroyed window's stored title handler is disconnected and its stored id dropped |
| Extension.StatusTitleBarButton.Destroy | src/extension.js:151-163 | both ledgers are gone. The live handlers lose exactly the recorded ids and the ids stored on the listed windows, whose stored ids are dropped. With every tagged window listed, the live handlers lose exactly the recorded and the stored ids, so nothing the button connected stays live |
| Extension.StatusTitleBarButton.ClearWindowsSignals | src/extension.js:165-174 | the stored ids of exactly the listed windows are disconnected and dropped, whatever their order and repetitions |
| Extension.StatusTitleBarButton.ClearWindowSignal | src/extension.js:175-181 | the window's stored id, if any, is disconnected and dropped, and no other handler changes; afterwards no title handler of the button is live on that window, so a second call does nothing |
| LegacyExtension.StatusTitleBarButton.constructor | extension.js:78-102 | after `_init` the own ledger holds 'maximize', 'unmaximize', the screen's 'notify::n-workspaces', 'notify::focus-window' and the actor's 'destroy', in order; the workspace ledger holds one handler per workspace; the invariant holds |
| LegacyExtension.StatusTitleBarButton.TrackInitSignals | extension.js:87-99 | the five `connectAndTrack` calls record, in order, fresh live handlers for those subscriptions |
| LegacyExtension.StatusTitleBarButton.TrackOwn | extension.js:87-99 | each call extends the recorded prefix by one fresh live handler |
| LegacyExtension.StatusTitleBarButton.Sync | extension.js:104-121 | no focused window: nothing changes. Otherwise an untagged window gets exactly one fresh title handler, and the title changes by the older rule, with the error it raises when no application was resolved |
| LegacyExtension.StatusTitleBarButton.ChangeWorkspaces | extension.js:123-132 | old workspace handlers are released, then one fresh 'window-removed' handler is recorded per index |
| LegacyExtension.StatusTitleBarButton.SubscribeWorkspaces | extension.js:126-131 | the loop records a fresh live handler on each workspace, in index order |
| LegacyExtension.StatusTitleBarButton.InitWindow | extension.js:134-140 | any previous title handler of the button is disconnected before the new one is stored, so a window has at most one |
| LegacyExtension.StatusTitleBarButton.OnTitleChanged | extension.js:142-149 | only a focused window changes the title, by the older rule |
| LegacyExtension.StatusTitleBarButton.ChangeTitle | extension.js:151-160 | the label is cleared. It then shows the title when fully maximized, else the application's name; with no application the call fails and the label stays empty |
| LegacyExtension.StatusTitleBarButton.OnRedimension | extension.js:162-166 | a maximized or unmaximized window is handled as a title change |
| LegacyExtension.StatusTitleBarButton.Destroy | extension.js:170-189 | both ledgers are gone and exactly their handlers are released. The stored title ids are left as they were, and every title handler the ledgers did not record stays live |
| LegacyExtension.StatusTitleBarButton.ClearActorsSignals | extension.js:178-185 | the loop disconnects and deletes exactly the ids stored on the listed window actors |
| LegacyExtension.NoIdsOnActors | extension.js:178-185 | ids are only ever stored on MetaWindows, so the sweep over window actors finds none |
| Scenarios.FocusMaximizedWindow | src/extension.js:117-123 | a fully maximized focused window titled "Editor" shows "Editor" as label and accessible name |
| Scenarios.FocusRestoredWindow | src/extension.js:124-127 | a restored focused window of the application "Terminal" shows "Terminal" |
| Scenarios.FocusLost | src/extension.js:73-77 | losing focus keeps the previous label and connects nothing |
| Scenarios.TitleChangesWhileFocused | src/extension.js:109-115 | a retitled focused window shows the new title without any handler added or dropped |
| Scenarios.SyncTwice | src/extension.js:79-81 | focusing a window twice leaves exactly one title handler on it |
| Scenarios.Teardown | src/extension.js:151-181 | a button over three workspaces, after showing one window, leaves no live handler once destroyed |
| Extension.TrackedOffWindows | src/extension.js:56-68 | none of the handlers the button records in its own ledger or its workspace ledger is connected on a window, so none can be confused with a window's title handler |
| Scenarios.StartBesideOtherTitleListener | src/extension.js:49-71 | a button starts in a shell where other code already listens to window 1's title; that handler stays live and unchanged, and the button's own handlers are fresh |
| Scenarios.OtherTitleListenerSurvives | src/extension.js:151-181 | with another listener on window 1's title, a button that showed window 1 and is destroyed leaves exactly that listener live |
| Scenarios.TrackThenRelease | src/utils.js:12-36 | tracking two subscriptions and releasing them restores the live handlers, including one connected by someone else |
| Scenarios.ReleaseTwice | src/utils.js:21-24 | a second release of the same owner disconnects nothing |
| Scenarios.LegacyTeardownLeaksTitleHandler | extension.js:178-185 | the older button, after showing window 1, leaves window 1's title handler live and its id stored once destroyed |
| Scenarios.LegacyNullAppThrows | extension.js:151-160 | the older button on a half-maximized window with no application fails and leaves the label empty |

## Left out

- The `this.parent()` calls into the base panel button (`_init`, `_sync`, `destroy`) are host code that is not shown. They are treated as no-ops.
- `StatusTitleBar` (`enable`, `disable`, `_replaceAppMenu`, `_getWorkspaceManager`) and the module-level `init` / `enable` / `disable` only swap widgets in the panel. They are not modelled.
- The version constants parsed from `Config.PACKAGE_VERSION` are unused by the button and are not modelled.
- The shell's event loop is not modelled. Handlers are called explicitly, and a connection records which button method it is bound to by name (`Lang.bind`).
- `global.display.focus_window`, `_findTargetApp`, `Shell.WindowTracker`, `get_meta_window`, `global.get_window_actors` and the workspace count are not modelled as code. Their results are handler parameters. Workspaces are identified by index.
- `_notifyTitleId` set to null, left undefined, or deleted are one state: an absent key. Ids are never 0, so JavaScript truthiness is presence.
- Handler ids are unbounded naturals, not the shell's 64-bit ids.
- The older revision's `_targetIsCurrent` field is written once and never read. `Signals.addSignalMethods` only adds host plumbing. Neither is modelled.
- An exception from `app.get_name()` is returned as an error value. How the shell's signal dispatch logs it is not modelled.
- gulpfile.js is packaging and is not part of this model.
- Extension.StatusTitleBarButton.Sync: with no focused window the label keeps its text, as the code does.

## Findings

| source | as written | input that shows it | evidently intended | confidence | as-written member | corrected member |
|---|---|---|---|---|---|---|
| extension.js:178-185 | `destroy` looks for `_notifyTitleId` on each window actor, but `_initWindow` (extension.js:139) stores it on the MetaWindow | a button that has shown window 1, destroyed with window 1 on screen: its 'notify::title' handler stays connected and the id stays stored | look the id up on `actor.get_meta_window()`, as src/extension.js:170 does, releasing every title handler | not executed | LegacyExtension.StatusTitleBarButton.Destroy, Scenarios.LegacyTeardownLeaksTitleHandler | Extension.StatusTitleBarButton.Destroy, Signals.TeardownReleasesAll, Scenarios.Teardown |
| extension.js:151-160 | `_changeTitle` calls `app.get_name()` without checking for a null application | a focused window maximized only horizontally whose application is not resolved: the call throws and the label stays empty | fall back to the empty label when no application is resolved, as src/extension.js:124-127 does | not executed | LegacyExtension.StatusTitleBarButton.ChangeTitle, Scenarios.LegacyNullAppThrows | Extension.StatusTitleBarButton.SetTitle, Title.NotMaximizedShowsAppName |
