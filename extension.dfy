/**
 * The panel button of the current revision (`StatusTitleBarButton` in
 * src/extension.js): it subscribes to the shell's window, focus and
 * workspace signals, keeps one title handler per window it has shown, and
 * shows the focused window's title when it is maximized both ways and the
 * application's name otherwise.
 *
 * The focused window, its title and maximize state, the resolved
 * application and the list of window actors are inputs of each handler.
 */
module Extension {
  import opened Host
  import opened Signals
  import opened Utils
  import opened Title
  import opened Tracking

  /** The property under which the current revision's ledgers are stored. */
  const BOUND_SIGNALS := "_GnomeShellExtension_bound_signals"

  /** The five subscriptions `_init` tracks on the button itself, in order. */
  const INIT_SIGNALS: seq<Connection> := [
    Connection(WindowManager, HideTilePreview, CallsOnHideTitlePreview),
    Connection(WindowManager, SizeChange, CallsOnRedimension),
    Connection(WindowManager, DestroySignal, CallsOnWindowDestroy),
    Connection(WorkspaceManager, NotifyNWorkspaces, CallsWorkspacesChanged),
    Connection(Display, NotifyFocusWindow, CallsSync)
  ]

  /** None of the handlers a button tracks in its two ledgers is on a window. */
  lemma TrackedOffWindows(live: map<HandlerId, Connection>, own: seq<Binding>, workspaces: seq<Binding>, n: nat)
    requires TracksInOrder(live, own, INIT_SIGNALS) && WorkspaceLedger(live, workspaces, n)
    ensures forall id | id in Ids(own) + Ids(workspaces) :: id in live && !live[id].subject.Window?
  {
    LedgersOffWindows(live, own, INIT_SIGNALS, workspaces, n);
  }

  /** Clearing one more window extends the cleared prefix by that window. */
  lemma ClearStep(live: map<HandlerId, Connection>, tags: map<HostObject, HandlerId>, prefix: seq<WindowId>, w: WindowId)
    ensures tags - MetaWindows(prefix) - {MetaWindowObj(w)} == tags - MetaWindows(prefix + [w])
    ensures live - TagIds(tags, prefix) - TagIds(tags - MetaWindows(prefix), [w]) == live - TagIds(tags, prefix + [w])
  {
    assert MetaWindows(prefix + [w]) == MetaWindows(prefix) + {MetaWindowObj(w)};
    assert TagIds(tags, prefix + [w]) == TagIds(tags, prefix) + TagIds(tags - MetaWindows(prefix), [w]);
  }

  class StatusTitleBarButton {
    const hub: SignalHub
    const ledger: Ledger
    const tags: TitleTags
    /** `this._wsSignals`: the owner of the workspace subscriptions. */
    const wsSignals: Holder
    /** The text of `this._label`. */
    var labelText: string
    var accessibleName: string

    /** Both ledgers and the stored title ids agree with the shell. */
    ghost predicate Valid()
      reads this, hub, ledger, tags
    {
      && hub.Valid()
      && Attributed(hub.live, ledger.Entries(this)) && Issued(ledger.Entries(this), hub.nextId)
      && Attributed(hub.live, ledger.Entries(wsSignals)) && Issued(ledger.Entries(wsSignals), hub.nextId)
      && TagsSound(hub.live, hub.nextId, tags.notifyTitleId)
      && TitleHandlersTagged(hub.live, tags.notifyTitleId)
    }

    /** The handlers recorded in the button's own ledger and in its workspace ledger. */
    ghost function TrackedIds(): (ids: set<HandlerId>)
      reads ledger
    {
      Ids(ledger.Entries(this)) + Ids(ledger.Entries(wsSignals))
    }

    /**
     * `_init`: subscribe the button to the shell's signals, tracked under the
     * button, then subscribe to every current workspace.
     */
    constructor (hub: SignalHub, ledger: Ledger, tags: TitleTags, nWorkspaces: nat)
      requires ledger.property == BOUND_SIGNALS
      requires hub.Valid()
      requires TagsSound(hub.live, hub.nextId, tags.notifyTitleId)
      requires TitleHandlersTagged(hub.live, tags.notifyTitleId)
      modifies hub, ledger
      ensures Valid()
      ensures this.hub == hub && this.ledger == ledger && this.tags == tags && fresh(wsSignals)
      ensures labelText == "" && accessibleName == ""
      ensures ledger.bound - {this, wsSignals} == old(ledger.bound)
      ensures TracksInOrder(hub.live, ledger.Entries(this), INIT_SIGNALS)
      ensures WorkspaceLedger(hub.live, ledger.Entries(wsSignals), nWorkspaces)
      ensures Submap(old(hub.live), hub.live)
      ensures hub.live.Keys == old(hub.live.Keys) + TrackedIds()
    {
      this.hub := hub;
      this.ledger := ledger;
      this.tags := tags;
      wsSignals := new Holder();
      labelText := "";
      accessibleName := "";
      new;
      assert this !in ledger.bound && wsSignals !in ledger.bound;
      ghost var bound0 := ledger.bound;
      TrackInitSignals();
      ghost var live1, own, bound1 := hub.live, ledger.Entries(this), ledger.bound;
      ProgressComplete(old(hub.live), live1, own, INIT_SIGNALS);
      assert wsSignals !in bound0 - {this};
      assert wsSignals !in bound1;
      WorkspacesChanged(nWorkspaces);
      assert this in bound1 - {wsSignals};
      assert ledger.Entries(this) == own;
      OtherOwnersUntouched(bound0, bound1, ledger.bound, this, wsSignals);
      TracksInOrderSubmap(live1, hub.live, own, INIT_SIGNALS);
    }

    /** The five `connectAndTrack` calls of `_init`, made on an empty own ledger. */
    method TrackInitSignals()
      requires Valid() && ledger.Entries(this) == []
      modifies hub, ledger
      ensures Valid()
      ensures ledger.bound - {this} == old(ledger.bound) - {this}
      ensures TrackProgress(old(hub.live), hub.live, ledger.Entries(this), INIT_SIGNALS, |INIT_SIGNALS|)
    {
      TrackOwn(0, hub.live);
      TrackOwn(1, old(hub.live));
      TrackOwn(2, old(hub.live));
      TrackOwn(3, old(hub.live));
      TrackOwn(4, old(hub.live));
    }

    /**
     * The `k`-th `connectAndTrack(this, ...)` call of `_init`, `live0` being
     * the live handlers before the first.
     */
    method TrackOwn(k: nat, ghost live0: map<HandlerId, Connection>)
      requires Valid() && k < |INIT_SIGNALS|
      requires TrackProgress(live0, hub.live, ledger.Entries(this), INIT_SIGNALS, k)
      modifies hub, ledger
      ensures Valid()
      ensures TrackProgress(live0, hub.live, ledger.Entries(this), INIT_SIGNALS, k + 1)
      ensures ledger.bound - {this} == old(ledger.bound) - {this}
    {
      ghost var own, ws, live, next := ledger.Entries(this), ledger.Entries(wsSignals), hub.live, hub.nextId;
      var c := INIT_SIGNALS[k];
      assert !c.subject.Window?;
      var id := ledger.ConnectAndTrack(hub, this, c.subject, c.signal, c.callback);
      assert ledger.Entries(this) == own + [Binding(c.subject, id)];
      FreshKeepsLedger(live, next, own, id, c, hub.nextId);
      FreshKeepsLedger(live, next, ws, id, c, hub.nextId);
      FreshKeepsTags(live, next, tags.notifyTitleId, id, c, hub.nextId);
      TrackStep(live0, live, own, INIT_SIGNALS, k, id);
      assert ledger.Entries(wsSignals) == ws;
    }

    /**
     * `_sync`: with no focused window, nothing happens. Otherwise attach a
     * title handler to the window unless it already carries one, then show
     * the title the display rule gives.
     */
    method Sync(focus: Option<WindowInfo>, app: Option<App>)
      requires Valid()
      modifies this`labelText, this`accessibleName, hub, tags
      ensures Valid()
      ensures focus.None? ==> unchanged(this, hub, tags)
      ensures focus.Some? ==>
                && labelText == DisplayText(focus.value.maximized, focus.value.title, app)
                && accessibleName == labelText
      ensures focus.Some? && old(MetaWindowObj(focus.value.id) in tags.notifyTitleId) ==>
                unchanged(hub, tags)
      ensures focus.Some? && old(MetaWindowObj(focus.value.id) !in tags.notifyTitleId) ==>
                && MetaWindowObj(focus.value.id) in tags.notifyTitleId
                && var id := tags.notifyTitleId[MetaWindowObj(focus.value.id)];
                && id !in old(hub.live)
                && tags.notifyTitleId == old(tags.notifyTitleId)[MetaWindowObj(focus.value.id) := id]
                && hub.live == old(hub.live)[id := Connection(Window(focus.value.id), NotifyTitle, CallsOnWindowTitleChanged)]
    {
      if focus.None? {
        return;
      }
      var win := focus.value;
      if MetaWindowObj(win.id) !in tags.notifyTitleId {
        InitWindow(win.id);
      }
      SetTitle(win, app);
    }

    /**
     * `_workspacesChanged`: release every workspace subscription, then
     * subscribe 'window-removed' once on each workspace index.
     */
    method WorkspacesChanged(nWorkspaces: nat)
      requires Valid()
      modifies hub, ledger
      ensures Valid()
      ensures ledger.bound - {wsSignals} == old(ledger.bound) - {wsSignals}
      ensures WorkspaceLedger(hub.live, ledger.Entries(wsSignals), nWorkspaces)
      ensures forall b | b in ledger.Entries(wsSignals) :: b.id !in old(hub.live)
      ensures hub.live.Keys == old(hub.live.Keys) - old(Ids(ledger.Entries(wsSignals))) + Ids(ledger.Entries(wsSignals))
      ensures forall id | id in hub.live && id in old(hub.live) :: hub.live[id] == old(hub.live[id])
      ensures old(ledger.Entries(wsSignals)) == [] ==> Submap(old(hub.live), hub.live)
    {
      ghost var live0, ws0, own := hub.live, ledger.Entries(wsSignals), ledger.Entries(this);
      ledger.DisconnectTrackedSignals(hub, wsSignals);
      DisconnectedRemovesTracked(live0, ws0);
      DisconnectedTouchesOnlyTracked(live0, ws0);
      AttributedSubmap(hub.live, live0, own);
      SubmapKeepsTags(hub.live, live0, hub.nextId, tags.notifyTitleId);
      SubscribeWorkspaces(nWorkspaces);
    }

    /** The loop of `_workspacesChanged`, entered with an empty workspace ledger. */
    method SubscribeWorkspaces(nWorkspaces: nat)
      requires Valid() && ledger.Entries(wsSignals) == []
      modifies hub, ledger
      ensures Valid()
      ensures ledger.bound - {wsSignals} == old(ledger.bound) - {wsSignals}
      ensures WorkspaceLedger(hub.live, ledger.Entries(wsSignals), nWorkspaces)
      ensures forall b | b in ledger.Entries(wsSignals) :: old(hub.nextId) <= b.id
      ensures hub.live.Keys == old(hub.live.Keys) + Ids(ledger.Entries(wsSignals))
      ensures Submap(old(hub.live), hub.live)
    {
      ghost var own := ledger.Entries(this);
      var i := 0;
      while i < nWorkspaces
        invariant 0 <= i <= nWorkspaces
        invariant hub.Valid() && old(hub.nextId) <= hub.nextId
        invariant ledger.bound - {wsSignals} == old(ledger.bound) - {wsSignals}
        invariant ledger.Entries(this) == own
        invariant WorkspaceLedger(hub.live, ledger.Entries(wsSignals), i)
        invariant forall b | b in ledger.Entries(wsSignals) :: old(hub.nextId) <= b.id < hub.nextId
        invariant hub.live.Keys == old(hub.live.Keys) + Ids(ledger.Entries(wsSignals))
        invariant Submap(old(hub.live), hub.live)
        invariant Attributed(hub.live, own) && Issued(own, hub.nextId)
        invariant Attributed(hub.live, ledger.Entries(wsSignals)) && Issued(ledger.Entries(wsSignals), hub.nextId)
        invariant TagsSound(hub.live, hub.nextId, tags.notifyTitleId)
        invariant TitleHandlersTagged(hub.live, tags.notifyTitleId)
      {
        ghost var before, liveBefore, nextBefore := ledger.Entries(wsSignals), hub.live, hub.nextId;
        var id := ledger.ConnectAndTrack(hub, wsSignals, Workspace(i), WindowRemoved, CallsSync);
        ghost var c := Connection(Workspace(i), WindowRemoved, CallsSync);
        FreshKeepsLedger(liveBefore, nextBefore, own, id, c, hub.nextId);
        FreshKeepsLedger(liveBefore, nextBefore, before, id, c, hub.nextId);
        FreshKeepsTags(liveBefore, nextBefore, tags.notifyTitleId, id, c, hub.nextId);
        assert ledger.Entries(wsSignals) == before + [Binding(Workspace(i), id)];
        assert ledger.Entries(this) == own;
        WorkspaceStep(old(hub.live), liveBefore, before, i, id);
        i := i + 1;
      }
    }

    /**
     * `_initWindow`: drop the window's previous title handler, if any, and
     * store a fresh one on it.
     */
    method InitWindow(w: WindowId)
      requires Valid()
      modifies hub, tags
      ensures Valid()
      ensures MetaWindowObj(w) in tags.notifyTitleId
      ensures var id := tags.notifyTitleId[MetaWindowObj(w)];
              && id !in old(hub.live)
              && tags.notifyTitleId == old(tags.notifyTitleId)[MetaWindowObj(w) := id]
              && hub.live == (if old(MetaWindowObj(w) in tags.notifyTitleId)
                              then old(hub.live) - {old(tags.notifyTitleId[MetaWindowObj(w)])}
                              else old(hub.live))[id := Connection(Window(w), NotifyTitle, CallsOnWindowTitleChanged)]
    {
      if MetaWindowObj(w) in tags.notifyTitleId {
        hub.Disconnect(Window(w), tags.notifyTitleId[MetaWindowObj(w)]);
      }
      var id := hub.Connect(Window(w), NotifyTitle, CallsOnWindowTitleChanged);
      tags.notifyTitleId := tags.notifyTitleId[MetaWindowObj(w) := id];
    }

    /** `_onWindowTitleChanged`: re-show the title only for the window that has focus. */
    method OnWindowTitleChanged(win: WindowInfo, app: Option<App>)
      modifies this`labelText, this`accessibleName
      ensures win.hasFocus ==> labelText == DisplayText(win.maximized, win.title, app) && accessibleName == labelText
      ensures !win.hasFocus ==> labelText == old(labelText) && accessibleName == old(accessibleName)
    {
      if win.hasFocus {
        SetTitle(win, app);
      }
    }

    /**
     * `_setTitle`: clear the labelText and the accessible name, then set both to
     * the window title when fully maximized, else to the app name when an app
     * was resolved.
     */
    method SetTitle(win: WindowInfo, app: Option<App>)
      modifies this`labelText, this`accessibleName
      ensures labelText == DisplayText(win.maximized, win.title, app)
      ensures accessibleName == labelText
    {
      labelText := "";
      accessibleName := "";
      if win.maximized == FLAGS_MAXED {
        labelText := win.title;
        accessibleName := win.title;
      } else if app.Some? {
        labelText := app.value.name;
        accessibleName := app.value.name;
      }
    }

    /**
     * `_onHideTitlePreview`: when the focused window is fully maximized but
     * the labelText does not show its title, re-show the title.
     */
    method OnHideTitlePreview(focus: Option<WindowInfo>, app: Option<App>)
      modifies this`labelText, this`accessibleName
      ensures if focus.Some? && focus.value.maximized == FLAGS_MAXED
                 && old(labelText) != focus.value.title && focus.value.hasFocus
              then labelText == focus.value.title && accessibleName == labelText
              else labelText == old(labelText) && accessibleName == old(accessibleName)
    {
      if focus.None? {
        return;
      }
      var win := focus.value;
      if win.maximized == FLAGS_MAXED && labelText != win.title {
        OnWindowTitleChanged(win, app);
      }
    }

    /** `_onRedimension`: the window of the resized actor is handled as a title change. */
    method OnRedimension(win: WindowInfo, app: Option<App>)
      modifies this`labelText, this`accessibleName
      ensures win.hasFocus ==> labelText == DisplayText(win.maximized, win.title, app) && accessibleName == labelText
      ensures !win.hasFocus ==> labelText == old(labelText) && accessibleName == old(accessibleName)
    {
      OnWindowTitleChanged(win, app);
    }

    /** `_onWindowDestroy`: forget the destroyed window's title handler. */
    method OnWindowDestroy(w: WindowId)
      requires Valid()
      modifies hub, tags
      ensures Valid() && hub.nextId == old(hub.nextId)
      ensures tags.notifyTitleId == old(tags.notifyTitleId) - {MetaWindowObj(w)}
      ensures hub.live == old(hub.live) - old(TagIds(tags.notifyTitleId, [w]))
    {
      ClearWindowSignal(w);
    }

    /**
     * `destroy`: release the own ledger, the workspace ledger and the title
     * handler stored on every listed window. `windows` are the MetaWindows of
     * the shell's window actors, in order.
     */
    method Destroy(windows: seq<WindowId>)
      requires Valid()
      modifies hub, ledger, tags
      ensures Valid()
      ensures ledger.bound == old(ledger.bound) - {this, wsSignals}
      ensures tags.notifyTitleId == old(tags.notifyTitleId) - MetaWindows(windows)
      ensures hub.live == old(hub.live) - old(TrackedIds()) - old(TagIds(tags.notifyTitleId, windows))
      ensures old(tags.notifyTitleId.Keys) <= MetaWindows(windows) ==>
                hub.live == old(hub.live) - old(TrackedIds() + tags.notifyTitleId.Values)
      ensures old(tags.notifyTitleId.Keys) <= MetaWindows(windows) ==>
                forall id | id in old(TrackedIds() + tags.notifyTitleId.Values) :: id !in hub.live
    {
      ghost var live0, own, ws := hub.live, ledger.Entries(this), ledger.Entries(wsSignals);
      ghost var tags0 := tags.notifyTitleId;
      ledger.DisconnectTrackedSignals(hub, this);
      DisconnectedRemovesTracked(live0, own);
      AttributedSubmap(hub.live, live0, ws);
      ghost var live1 := hub.live;
      ledger.DisconnectTrackedSignals(hub, wsSignals);
      DisconnectedRemovesTracked(live1, ws);
      MinusTwice(live0, Ids(own), Ids(ws));
      SubmapKeepsTags(hub.live, live0, hub.nextId, tags0);
      ClearWindowsSignals(windows);
      if tags0.Keys <= MetaWindows(windows) {
        TeardownReleasesAll(live0, own, ws, tags0, windows);
      }
    }

    /** `_clearWindowsSignals`: clear the title handler of every listed window, in order. */
    method ClearWindowsSignals(windows: seq<WindowId>)
      requires Valid()
      modifies hub, tags
      ensures Valid() && hub.nextId == old(hub.nextId)
      ensures tags.notifyTitleId == old(tags.notifyTitleId) - MetaWindows(windows)
      ensures hub.live == old(hub.live) - old(TagIds(tags.notifyTitleId, windows))
    {
      var i := 0;
      while i < |windows|
        invariant 0 <= i <= |windows|
        invariant Valid() && hub.nextId == old(hub.nextId)
        invariant tags.notifyTitleId == old(tags.notifyTitleId) - MetaWindows(windows[..i])
        invariant hub.live == old(hub.live) - TagIds(old(tags.notifyTitleId), windows[..i])
      {
        ClearWindowSignal(windows[i]);
        assert windows[..i + 1] == windows[..i] + [windows[i]];
        ClearStep(old(hub.live), old(tags.notifyTitleId), windows[..i], windows[i]);
        i := i + 1;
      }
      assert windows[..i] == windows;
    }

    /**
     * `_clearWindowSignal`: disconnect the window's stored title handler, if
     * any, and leave the property empty; a second call does nothing more.
     */
    method ClearWindowSignal(w: WindowId)
      requires Valid()
      modifies hub, tags
      ensures Valid() && hub.nextId == old(hub.nextId)
      ensures tags.notifyTitleId == old(tags.notifyTitleId) - {MetaWindowObj(w)}
      ensures hub.live == old(hub.live) - old(TagIds(tags.notifyTitleId, [w]))
      ensures forall id | id in hub.live :: hub.live[id].subject == Window(w) ==> !ButtonTitleHandler(hub.live[id])
    {
      if MetaWindowObj(w) in tags.notifyTitleId {
        hub.Disconnect(Window(w), tags.notifyTitleId[MetaWindowObj(w)]);
      }
      tags.notifyTitleId := tags.notifyTitleId - {MetaWindowObj(w)};
    }
  }
}
