/**
 * The parts of the desktop shell that the extension observes or annotates:
 * the identities of windows and of the objects it subscribes to, the window
 * facts it reads when choosing a title, and the `_notifyTitleId` property the
 * extension stores on windows.
 */
module Host {

  /** A signal handler id, as `connect` returns it; the shell never issues 0. */
  type HandlerId = nat

  /** Identity of a shell-managed window (a MetaWindow). */
  type WindowId = nat

  datatype Option<+T> = None | Some(value: T)

  /** The objects whose signals the extension subscribes to. */
  datatype Subject =
    | WindowManager              // global.window_manager
    | Display                    // global.display
    | WorkspaceManager           // the workspace manager of the current revision
    | Screen                     // global.screen, used by the older revision
    | Workspace(index: nat)      // the workspace at this index
    | Window(window: WindowId)   // a MetaWindow
    | WindowActor(of: WindowId)  // the compositor actor that draws a window
    | ButtonActor                // the panel button's own actor

  /** The signals the extension subscribes to, by their names in the shell. */
  datatype SignalName =
    | HideTilePreview     // "hide-tile-preview"
    | SizeChange          // "size-change"
    | DestroySignal       // "destroy"
    | Maximize            // "maximize"
    | Unmaximize          // "unmaximize"
    | NotifyNWorkspaces   // "notify::n-workspaces"
    | NotifyFocusWindow   // "notify::focus-window"
    | WindowRemoved       // "window-removed"
    | NotifyTitle         // "notify::title"

  /** The extension method a handler is bound to (`Lang.bind(this, this._name)`). */
  datatype Callback =
    | CallsOnHideTitlePreview
    | CallsOnRedimension
    | CallsOnWindowDestroy
    | CallsWorkspacesChanged
    | CallsChangeWorkspaces
    | CallsSync
    | CallsOnWindowTitleChanged
    | CallsOnTitleChanged
    | CallsDestroy
    | OtherCode           // a handler connected by some other part of the shell

  /** A host object on which the extension may store a `_notifyTitleId` property. */
  datatype HostObject = MetaWindowObj(window: WindowId) | ActorObj(of: WindowId)

  /** The subject a handler id stored on a host object must have been issued by. */
  function SubjectOf(o: HostObject): (s: Subject)
    ensures o.MetaWindowObj? <==> s.Window?
  {
    match o
    case MetaWindowObj(w) => Window(w)
    case ActorObj(w) => WindowActor(w)
  }

  /** The maximize state of a window (Meta.MaximizeFlags). */
  type MaximizeFlags = bv2

  const HORIZONTAL: MaximizeFlags := 1
  const VERTICAL: MaximizeFlags := 2

  /** A window as the title logic reads it: `title`, `get_maximized()`, `has_focus()`. */
  datatype WindowInfo = WindowInfo(id: WindowId, title: string, maximized: MaximizeFlags, hasFocus: bool)

  /** A resolved application; only its name (`get_name()`) is read. */
  datatype App = App(name: string)

  /**
   * The `_notifyTitleId` property the extension writes on host objects: a
   * present key is a truthy handler id, an absent key is an undefined or null
   * property. It belongs to the windows, so it outlives any one panel button.
   */
  class TitleTags {
    var notifyTitleId: map<HostObject, HandlerId>

    constructor ()
      ensures notifyTitleId == map[]
    {
      notifyTitleId := map[];
    }
  }
}
