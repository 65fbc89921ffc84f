/**
 * The panel button of the older revision (`StatusTitleBarButton` in the
 * root extension.js). It keeps its own copy of the signal ledger under the
 * property `_StatusTitleBar_bound_signals`, listens to 'maximize' and
 * 'unmaximize' rather than 'size-change', reads the workspace count from the
 * screen, and tears itself down when its actor is destroyed.
 *
 * Two behaviours differ from the current revision and are modelled as
 * written: `_changeTitle` calls `get_name()` on the resolved application
 * without checking for null, and `destroy` looks for `_notifyTitleId` on the
 * window actors, where `_initWindow` never stores it.
 */
module LegacyExtension {
  import opened Host
  import opened Signals
  import opened Utils
  import opened Title
  import opened Tracking

  /** The property under which the older revision's ledgers are stored. */
  const LEGACY_BOUND_SIGNALS := "_StatusTitleBar_bound_signals"

  /** The five subscriptions `_init` tracks on the button itself, in order. */
  const LEGACY_INIT_SIGNALS: seq<Connection> := [
    Connection(WindowManager, Maximize, CallsOnRedimension),
    Connection(WindowManager, Unmaximize, CallsOnRedimension),
    Connection(Screen, NotifyNWorkspaces, CallsChangeWorkspaces),
    Connection(Display, NotifyFocusWindow, CallsSync),
    Connection(ButtonActor, DestroySignal, CallsDestroy)
  ]

  /** The window actors of a list of windows, as objects that could carry a stored id. */
  function ActorObjs(actors: seq<WindowId>): (objs: set<HostObject>)
  {
    set w | w in actors :: ActorObj(w)
  }

  /** The ids stored on the window actors of `actors`. */
  function ActorTagIds(tags: map<HostObject, HandlerId>, actors: seq<WindowId>): (ids: set<HandlerId>)
  {
    set w | w in actors && ActorObj(w) in tags :: tags[ActorObj(w)]
  }

  /** Clearing one more actor extends the cleared prefix by that actor. */
  lemma ActorClearStep(live: map<HandlerId, Connection>, tags: map<HostObject, HandlerId>, prefix: seq<WindowId>, w: WindowId)
    ensures tags - ActorObjs(prefix) - {ActorObj(w)} == tags - ActorObjs(prefix + [w])
    ensures ActorObj(w) in tags - ActorObjs(prefix) ==>
              live - ActorTagIds(tags, prefix) - {tags[ActorObj(w)]} == live - ActorTagIds(tags, prefix + [w])
    ensures ActorObj(w) !in tags - ActorObjs(prefix) ==>
              live - ActorTagIds(tags, prefix) == live - ActorTagIds(tags, prefix + [w])
  {
    assert ActorObjs(prefix + [w]) == ActorObjs(prefix) + {ActorObj(w)};
    if ActorObj(w) in tags - ActorObjs(prefix) {
      assert ActorTagIds(tags, prefix + [w]) == ActorTagIds(tags, prefix) + {tags[ActorObj(w)]};
    } else {
      assert ActorTagIds(tags, prefix + [w]) == ActorTagIds(tags, prefix);
    }
  }

  /** Ids are stored only on MetaWindows, so a sweep over window actors finds none. */
  lemma NoIdsOnActors(tags: map<HostObject, HandlerId>, actors: seq<WindowId>)
    requires forall o | o in tags :: o.MetaWindowObj?
    ensures tags - ActorObjs(actors) == tags
    ensures ActorTagIds(tags, actors) == {}
  {
    forall w | w in actors
      ensures ActorObj(w) !in tags
    {
    }
  }

  class StatusTitleBarButton {
    const hub: SignalHub
    const ledger: Ledger
    const tags: TitleTags
    /** `this._wsSignals`: the owner of the workspace subscriptions. */
    const wsSignals: Holder
    /** The text of `this._label`. */
    var labelText: string

    /** Both ledgers and the stored title ids agree with the shell. */
    ghost predicate Valid()
      reads this, hub, ledger, tags
    {
      && hub.Valid()
      && Attributed(hub.live, ledger.Entries(this)) && Issued(ledger.Entries(this), hub.nextId)
      && Attributed(hub.live, ledger.Entries(wsSignals)) && Issued(ledger.Entries(wsSignals), hub.nextId)
      && TagsSound(hub.live, hub.nextId, tags.notifyTitleId)
      && TitleHandlersTagged(hub.live, tags.notifyTitleId)
    }

    /** The handlers recorded in the button's own ledger and in its workspace ledger. */
    ghost function TrackedIds(): (ids: set<HandlerId>)
      reads ledger
    {
      Ids(ledger.Entries(this)) + Ids(ledger.Entries(wsSignals))
    }

    /**
     * `_init`: subscribe the button to the shell's signals and to its own
     * actor's 'destroy', tracked under the button, then subscribe to every
     * current workspace.
     */
    constructor (hub: SignalHub, ledger: Ledger, tags: TitleTags, nWorkspaces: nat)
      requires ledger.property == LEGACY_BOUND_SIGNALS
      requires hub.Valid()
      requires TagsSound(hub.live, hub.nextId, tags.notifyTitleId)
      requires TitleHandlersTagged(hub.live, tags.notifyTitleId)
      modifies hub, ledger
      ensures Valid()
      ensures this.hub == hub && this.ledger == ledger && this.tags == tags && fresh(wsSignals)
      ensures labelText == ""
      ensures ledger.bound - {this, wsSignals} == old(ledger.bound)
      ensures TracksInOrder(hub.live, ledger.Entries(this), LEGACY_INIT_SIGNALS)
      ensures WorkspaceLedger(hub.live, ledger.Entries(wsSignals), nWorkspaces)
      ensures Submap(old(hub.live), hub.live)
      ensures hub.live.Keys == old(hub.live.Keys) + TrackedIds()
    {
      this.hub := hub;
      this.ledger := ledger;
      this.tags := tags;
      wsSignals := new Holder();
      labelText := "";
      new;
      assert this !in ledger.bound && wsSignals !in ledger.bound;
      ghost var bound0 := ledger.bound;
      TrackInitSignals();
      ghost var live1, own, bound1 := hub.live, ledger.Entries(this), ledger.bound;
      ProgressComplete(old(hub.live), live1, own, LEGACY_INIT_SIGNALS);
      assert wsSignals !in bound0 - {this};
      assert wsSignals !in bound1;
      ChangeWorkspaces(nWorkspaces);
      assert this in bound1 - {wsSignals};
      assert ledger.Entries(this) == own;
      OtherOwnersUntouched(bound0, bound1, ledger.bound, this, wsSignals);
      TracksInOrderSubmap(live1, hub.live, own, LEGACY_INIT_SIGNALS);
    }

    /** The five `connectAndTrack` calls of `_init`, made on an empty own ledger. */
    method TrackInitSignals()
      requires Valid() && ledger.Entries(this) == []
      modifies hub, ledger
      ensures Valid()
      ensures ledger.bound - {this} == old(ledger.bound) - {this}
      ensures TrackProgress(old(hub.live), hub.live, ledger.Entries(this), LEGACY_INIT_SIGNALS, |LEGACY_INIT_SIGNALS|)
    {
      TrackOwn(0, hub.live);
      TrackOwn(1, old(hub.live));
      TrackOwn(2, old(hub.live));
      TrackOwn(3, old(hub.live));
      TrackOwn(4, old(hub.live));
    }

    /**
     * The `k`-th `connectAndTrack(this, ...)` call of `_init`, `live0` being
     * the live handlers before the first.
     */
    method TrackOwn(k: nat, ghost live0: map<HandlerId, Connection>)
      requires Valid() && k < |LEGACY_INIT_SIGNALS|
      requires TrackProgress(live0, hub.live, ledger.Entries(this), LEGACY_INIT_SIGNALS, k)
      modifies hub, ledger
      ensures Valid()
      ensures TrackProgress(live0, hub.live, ledger.Entries(this), LEGACY_INIT_SIGNALS, k + 1)
      ensures ledger.bound - {this} == old(ledger.bound) - {this}
    {
      ghost var own, ws, live, next := ledger.Entries(this), ledger.Entries(wsSignals), hub.live, hub.nextId;
      var c := LEGACY_INIT_SIGNALS[k];
      assert !c.subject.Window?;
      var id := ledger.ConnectAndTrack(hub, this, c.subject, c.signal, c.callback);
      assert ledger.Entries(this) == own + [Binding(c.subject, id)];
      FreshKeepsLedger(live, next, own, id, c, hub.nextId);
      FreshKeepsLedger(live, next, ws, id, c, hub.nextId);
      FreshKeepsTags(live, next, tags.notifyTitleId, id, c, hub.nextId);
      TrackStep(live0, live, own, LEGACY_INIT_SIGNALS, k, id);
      assert ledger.Entries(wsSignals) == ws;
    }

    /**
     * `_sync`: with no focused window, nothing happens. Otherwise attach a
     * title handler to the window unless it already carries one, then change
     * the title; `thrown` is the error `_changeTitle` raises, if any.
     */
    method Sync(focus: Option<WindowInfo>, app: Option<App>) returns (thrown: Option<TitleError>)
      requires Valid()
      modifies this`labelText, hub, tags
      ensures Valid()
      ensures focus.None? ==> unchanged(this, hub, tags) && thrown == None
      ensures focus.Some? ==>
                var r := LegacyText(focus.value.maximized, focus.value.title, app);
                && (r.Ok? ==> labelText == r.value && thrown == None)
                && (r.Err? ==> labelText == "" && thrown == Some(r.error))
      ensures focus.Some? && old(MetaWindowObj(focus.value.id) in tags.notifyTitleId) ==>
                unchanged(hub, tags)
      ensures focus.Some? && old(MetaWindowObj(focus.value.id) !in tags.notifyTitleId) ==>
                && MetaWindowObj(focus.value.id) in tags.notifyTitleId
                && var id := tags.notifyTitleId[MetaWindowObj(focus.value.id)];
                && id !in old(hub.live)
                && tags.notifyTitleId == old(tags.notifyTitleId)[MetaWindowObj(focus.value.id) := id]
                && hub.live == old(hub.live)[id := Connection(Window(focus.value.id), NotifyTitle, CallsOnTitleChanged)]
    {
      if focus.None? {
        return None;
      }
      var win := focus.value;
      if MetaWindowObj(win.id) !in tags.notifyTitleId {
        InitWindow(win.id);
      }
      thrown := ChangeTitle(win, app);
    }

    /**
     * `_changeWorkspaces`: release every workspace subscription, then
     * subscribe 'window-removed' once on each workspace index of the screen.
     */
    method ChangeWorkspaces(nWorkspaces: nat)
      requires Valid()
      modifies hub, ledger
      ensures Valid()
      ensures ledger.bound - {wsSignals} == old(ledger.bound) - {wsSignals}
      ensures WorkspaceLedger(hub.live, ledger.Entries(wsSignals), nWorkspaces)
      ensures forall b | b in ledger.Entries(wsSignals) :: b.id !in old(hub.live)
      ensures hub.live.Keys == old(hub.live.Keys) - old(Ids(ledger.Entries(wsSignals))) + Ids(ledger.Entries(wsSignals))
      ensures forall id | id in hub.live && id in old(hub.live) :: hub.live[id] == old(hub.live[id])
      ensures old(ledger.Entries(wsSignals)) == [] ==> Submap(old(hub.live), hub.live)
    {
      ghost var live0, ws0, own := hub.live, ledger.Entries(wsSignals), ledger.Entries(this);
      ledger.DisconnectTrackedSignals(hub, wsSignals);
      DisconnectedRemovesTracked(live0, ws0);
      DisconnectedTouchesOnlyTracked(live0, ws0);
      AttributedSubmap(hub.live, live0, own);
      SubmapKeepsTags(hub.live, live0, hub.nextId, tags.notifyTitleId);
      SubscribeWorkspaces(nWorkspaces);
    }

    /** The loop of `_changeWorkspaces`, entered with an empty workspace ledger. */
    method SubscribeWorkspaces(nWorkspaces: nat)
      requires Valid() && ledger.Entries(wsSignals) == []
      modifies hub, ledger
      ensures Valid()
      ensures ledger.bound - {wsSignals} == old(ledger.bound) - {wsSignals}
      ensures WorkspaceLedger(hub.live, ledger.Entries(wsSignals), nWorkspaces)
      ensures forall b | b in ledger.Entries(wsSignals) :: old(hub.nextId) <= b.id
      ensures hub.live.Keys == old(hub.live.Keys) + Ids(ledger.Entries(wsSignals))
      ensures Submap(old(hub.live), hub.live)
    {
      ghost var own := ledger.Entries(this);
      var i := 0;
      while i < nWorkspaces
        invariant 0 <= i <= nWorkspaces
        invariant hub.Valid() && old(hub.nextId) <= hub.nextId
        invariant ledger.bound - {wsSignals} == old(ledger.bound) - {wsSignals}
        invariant ledger.Entries(this) == own
        invariant WorkspaceLedger(hub.live, ledger.Entries(wsSignals), i)
        invariant forall b | b in ledger.Entries(wsSignals) :: old(hub.nextId) <= b.id < hub.nextId
        invariant hub.live.Keys == old(hub.live.Keys) + Ids(ledger.Entries(wsSignals))
        invariant Submap(old(hub.live), hub.live)
        invariant Attributed(hub.live, own) && Issued(own, hub.nextId)
        invariant Attributed(hub.live, ledger.Entries(wsSignals)) && Issued(ledger.Entries(wsSignals), hub.nextId)
        invariant TagsSound(hub.live, hub.nextId, tags.notifyTitleId)
        invariant TitleHandlersTagged(hub.live, tags.notifyTitleId)
      {
        ghost var before, liveBefore, nextBefore := ledger.Entries(wsSignals), hub.live, hub.nextId;
        var id := ledger.ConnectAndTrack(hub, wsSignals, Workspace(i), WindowRemoved, CallsSync);
        ghost var c := Connection(Workspace(i), WindowRemoved, CallsSync);
        FreshKeepsLedger(liveBefore, nextBefore, own, id, c, hub.nextId);
        FreshKeepsLedger(liveBefore, nextBefore, before, id, c, hub.nextId);
        FreshKeepsTags(liveBefore, nextBefore, tags.notifyTitleId, id, c, hub.nextId);
        assert ledger.Entries(wsSignals) == before + [Binding(Workspace(i), id)];
        assert ledger.Entries(this) == own;
        WorkspaceStep(old(hub.live), liveBefore, before, i, id);
        i := i + 1;
      }
    }

    /**
     * `_initWindow`: drop the window's previous title handler, if any, and
     * store a fresh one bound to `_onTitleChanged` on it.
     */
    method InitWindow(w: WindowId)
      requires Valid()
      modifies hub, tags
      ensures Valid()
      ensures MetaWindowObj(w) in tags.notifyTitleId
      ensures var id := tags.notifyTitleId[MetaWindowObj(w)];
              && id !in old(hub.live)
              && tags.notifyTitleId == old(tags.notifyTitleId)[MetaWindowObj(w) := id]
              && hub.live == (if old(MetaWindowObj(w) in tags.notifyTitleId)
                              then old(hub.live) - {old(tags.notifyTitleId[MetaWindowObj(w)])}
                              else old(hub.live))[id := Connection(Window(w), NotifyTitle, CallsOnTitleChanged)]
    {
      if MetaWindowObj(w) in tags.notifyTitleId {
        hub.Disconnect(Window(w), tags.notifyTitleId[MetaWindowObj(w)]);
      }
      var id := hub.Connect(Window(w), NotifyTitle, CallsOnTitleChanged);
      tags.notifyTitleId := tags.notifyTitleId[MetaWindowObj(w) := id];
    }

    /** `_onTitleChanged`: change the title only for the window that has focus. */
    method OnTitleChanged(win: WindowInfo, app: Option<App>) returns (thrown: Option<TitleError>)
      modifies this`labelText
      ensures win.hasFocus ==>
                var r := LegacyText(win.maximized, win.title, app);
                && (r.Ok? ==> labelText == r.value && thrown == None)
                && (r.Err? ==> labelText == "" && thrown == Some(r.error))
      ensures !win.hasFocus ==> labelText == old(labelText) && thrown == None
    {
      thrown := None;
      if win.hasFocus {
        thrown := ChangeTitle(win, app);
      }
    }

    /**
     * `_changeTitle`: clear the label, then set it to the window title when
     * fully maximized, else to `app.get_name()`; with no application that
     * call throws and the label stays empty.
     */
    method ChangeTitle(win: WindowInfo, app: Option<App>) returns (thrown: Option<TitleError>)
      modifies this`labelText
      ensures var r := LegacyText(win.maximized, win.title, app);
              && (r.Ok? ==> labelText == r.value && thrown == None)
              && (r.Err? ==> labelText == "" && thrown == Some(r.error))
    {
      labelText := "";
      if win.maximized == HORIZONTAL | VERTICAL {
        labelText := win.title;
      } else if app.None? {
        return Some(NullApp);
      } else {
        labelText := app.value.name;
      }
      thrown := None;
    }

    /** `_onRedimension`: the window of the maximized or unmaximized actor is handled as a title change. */
    method OnRedimension(win: WindowInfo, app: Option<App>) returns (thrown: Option<TitleError>)
      modifies this`labelText
      ensures win.hasFocus ==>
                var r := LegacyText(win.maximized, win.title, app);
                && (r.Ok? ==> labelText == r.value && thrown == None)
                && (r.Err? ==> labelText == "" && thrown == Some(r.error))
      ensures !win.hasFocus ==> labelText == old(labelText) && thrown == None
    {
      thrown := OnTitleChanged(win, app);
    }

    /**
     * `destroy`: release the own ledger and the workspace ledger, then look
     * for a stored title id on every window actor. Ids are stored on
     * MetaWindows, so no title handler is released and none is forgotten.
     */
    method Destroy(actors: seq<WindowId>)
      requires Valid()
      modifies hub, ledger, tags
      ensures Valid()
      ensures ledger.bound == old(ledger.bound) - {this, wsSignals}
      ensures tags.notifyTitleId == old(tags.notifyTitleId)
      ensures hub.live == old(hub.live) - old(TrackedIds())
      ensures forall o | o in tags.notifyTitleId && tags.notifyTitleId[o] in old(hub.live) ::
                tags.notifyTitleId[o] !in old(TrackedIds()) ==> tags.notifyTitleId[o] in hub.live
    {
      ghost var live0, own, ws := hub.live, ledger.Entries(this), ledger.Entries(wsSignals);
      ghost var tags0 := tags.notifyTitleId;
      ledger.DisconnectTrackedSignals(hub, this);
      DisconnectedRemovesTracked(live0, own);
      AttributedSubmap(hub.live, live0, ws);
      ghost var live1 := hub.live;
      ledger.DisconnectTrackedSignals(hub, wsSignals);
      DisconnectedRemovesTracked(live1, ws);
      MinusTwice(live0, Ids(own), Ids(ws));
      ghost var live2 := hub.live;
      SubmapKeepsTags(live2, live0, hub.nextId, tags0);
      ClearActorsSignals(actors);
      NoIdsOnActors(tags0, actors);
    }

    /**
     * The actor loop of `destroy`: on every listed window actor that carries
     * a stored id, disconnect it there and delete the property.
     */
    method ClearActorsSignals(actors: seq<WindowId>)
      requires hub.Valid() && TagsIssued(hub.live, hub.nextId, tags.notifyTitleId)
      modifies hub, tags
      ensures hub.Valid() && hub.nextId == old(hub.nextId)
      ensures tags.notifyTitleId == old(tags.notifyTitleId) - ActorObjs(actors)
      ensures hub.live == old(hub.live) - ActorTagIds(old(tags.notifyTitleId), actors)
    {
      var i := 0;
      while i < |actors|
        invariant 0 <= i <= |actors|
        invariant hub.Valid() && hub.nextId == old(hub.nextId)
        invariant tags.notifyTitleId == old(tags.notifyTitleId) - ActorObjs(actors[..i])
        invariant hub.live == old(hub.live) - ActorTagIds(old(tags.notifyTitleId), actors[..i])
      {
        var w := actors[i];
        ActorClearStep(old(hub.live), old(tags.notifyTitleId), actors[..i], w);
        if ActorObj(w) in tags.notifyTitleId {
          ghost var id := tags.notifyTitleId[ActorObj(w)];
          assert id in hub.live ==> hub.live[id].subject == WindowActor(w);
          hub.Disconnect(WindowActor(w), tags.notifyTitleId[ActorObj(w)]);
          tags.notifyTitleId := tags.notifyTitleId - {ActorObj(w)};
        }
        assert actors[..i + 1] == actors[..i] + [w];
        i := i + 1;
      }
      assert actors[..i] == actors;
    }
  }
}
