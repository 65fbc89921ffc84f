/**
 * End-to-end scenarios of the model: a fresh shell, a fresh button, and a
 * few handler invocations, with what the panel shows and what stays connected
 * afterwards.
 */
module Scenarios {
  import opened Host
  import opened Signals
  import opened Utils
  import opened Title
  import Extension
  import LegacyExtension

  /** Window 1, maximized both ways, titled "Editor", gains focus: the panel shows "Editor". */
  method FocusMaximizedWindow() returns (shown: string, name: string)
    ensures shown == "Editor" && name == "Editor"
  {
    var hub := new SignalHub();
    var ledger := new Ledger(Extension.BOUND_SIGNALS);
    var tags := new TitleTags();
    var button := new Extension.StatusTitleBarButton(hub, ledger, tags, 1);
    button.Sync(Some(WindowInfo(1, "Editor", FLAGS_MAXED, true)), Some(App("Text Editor")));
    shown, name := button.labelText, button.accessibleName;
  }

  /** Window 2, not maximized, of the application "Terminal", gains focus: the panel shows "Terminal". */
  method FocusRestoredWindow() returns (shown: string)
    ensures shown == "Terminal"
  {
    var hub := new SignalHub();
    var ledger := new Ledger(Extension.BOUND_SIGNALS);
    var tags := new TitleTags();
    var button := new Extension.StatusTitleBarButton(hub, ledger, tags, 1);
    button.Sync(Some(WindowInfo(2, "~/src", 0, true)), Some(App("Terminal")));
    shown := button.labelText;
  }

  /**
   * Focus moves from window 1 to nothing: `_sync` returns at once, so the
   * panel keeps showing "Editor" and nothing is connected.
   */
  method FocusLost() returns (shown: string, connectedAgain: bool)
    ensures shown == "Editor" && !connectedAgain
  {
    var hub := new SignalHub();
    var ledger := new Ledger(Extension.BOUND_SIGNALS);
    var tags := new TitleTags();
    var button := new Extension.StatusTitleBarButton(hub, ledger, tags, 1);
    button.Sync(Some(WindowInfo(1, "Editor", FLAGS_MAXED, true)), None);
    var before := hub.live;
    button.Sync(None, None);
    shown, connectedAgain := button.labelText, hub.live != before;
  }

  /**
   * The focused, maximized window 1 is retitled: its title handler shows the
   * new title, and no handler is added or dropped.
   */
  method TitleChangesWhileFocused() returns (shown: string, resubscribed: bool)
    ensures shown == "Editor - modified" && !resubscribed
  {
    var hub := new SignalHub();
    var ledger := new Ledger(Extension.BOUND_SIGNALS);
    var tags := new TitleTags();
    var button := new Extension.StatusTitleBarButton(hub, ledger, tags, 1);
    button.Sync(Some(WindowInfo(1, "Editor", FLAGS_MAXED, true)), None);
    var before := hub.live;
    button.OnWindowTitleChanged(WindowInfo(1, "Editor - modified", FLAGS_MAXED, true), None);
    shown, resubscribed := button.labelText, hub.live != before;
  }

  /** The live title handlers of the button on window `w`. */
  function TitleHandlersOn(live: map<HandlerId, Connection>, w: WindowId): (ids: set<HandlerId>)
    ensures forall id | id in ids :: id in live && live[id].subject == Window(w)
  {
    set id | id in live && ButtonTitleHandler(live[id]) && live[id].subject == Window(w)
  }

  /** Focusing the same window twice leaves exactly one title handler on it. */
  method SyncTwice() returns (added: bool, handlers: nat)
    ensures !added && handlers == 1
  {
    var hub := new SignalHub();
    var ledger := new Ledger(Extension.BOUND_SIGNALS);
    var tags := new TitleTags();
    var button := new Extension.StatusTitleBarButton(hub, ledger, tags, 1);
    button.Sync(Some(WindowInfo(1, "Editor", FLAGS_MAXED, true)), None);
    var before := hub.live;
    button.Sync(Some(WindowInfo(1, "Editor", FLAGS_MAXED, true)), None);
    added := hub.live != before;
    var id := tags.notifyTitleId[MetaWindowObj(1)];
    assert TitleHandlersOn(hub.live, 1) == {id};
    handlers := |TitleHandlersOn(hub.live, 1)|;
  }

  /**
   * A button over three workspaces, focused on window 1, is destroyed with
   * window 1 on screen: nothing it connected is still live.
   */
  method Teardown() returns (remaining: map<HandlerId, Connection>)
    ensures remaining == map[]
  {
    var hub := new SignalHub();
    var ledger := new Ledger(Extension.BOUND_SIGNALS);
    var tags := new TitleTags();
    var button := new Extension.StatusTitleBarButton(hub, ledger, tags, 3);
    button.Sync(Some(WindowInfo(1, "Editor", FLAGS_MAXED, true)), None);
    ghost var tracked, tags0 := button.TrackedIds(), tags.notifyTitleId;
    ghost var titleId := tags0[MetaWindowObj(1)];
    assert hub.live.Keys == tracked + {titleId};
    assert TagIds(tags0, [1]) == {titleId};
    button.Destroy([1]);
    remaining := hub.live;
  }

  /** Removing every key but `other` leaves `other` alone. */
  lemma OnlyOtherLeft(live: map<HandlerId, Connection>, gone: set<HandlerId>, other: HandlerId)
    requires other in live && other !in gone && live.Keys == {other} + gone
    ensures live - gone == map[other := live[other]]
  {
  }

  /**
   * A fresh shell in which another part of the shell already listens to
   * window 1's title, and a button started in it over one workspace.
   */
  method StartBesideOtherTitleListener() returns (button: Extension.StatusTitleBarButton, other: HandlerId)
    ensures fresh(button) && fresh(button.hub) && fresh(button.ledger) && fresh(button.tags)
    ensures button.Valid() && button.tags.notifyTitleId == map[]
    ensures button.hub.live.Keys == {other} + button.TrackedIds() && other !in button.TrackedIds()
    ensures button.hub.live[other] == Connection(Window(1), NotifyTitle, OtherCode)
  {
    var hub := new SignalHub();
    other := hub.Connect(Window(1), NotifyTitle, OtherCode);
    var ledger := new Ledger(Extension.BOUND_SIGNALS);
    var tags := new TitleTags();
    button := new Extension.StatusTitleBarButton(hub, ledger, tags, 1);
    ghost var own, ws := ledger.Entries(button), ledger.Entries(button.wsSignals);
    assert other !in button.TrackedIds() by {
      Extension.TrackedOffWindows(hub.live, own, ws, 1);
    }
  }

  /**
   * Another part of the shell already listens to window 1's title. The button
   * starts, shows window 1, and is destroyed with window 1 on screen: only
   * that other handler is still live.
   */
  method OtherTitleListenerSurvives() returns (remaining: map<HandlerId, Connection>, other: HandlerId)
    ensures remaining == map[other := Connection(Window(1), NotifyTitle, OtherCode)]
  {
    var button;
    button, other := StartBesideOtherTitleListener();
    ghost var tracked := button.TrackedIds();
    button.Sync(Some(WindowInfo(1, "Editor", FLAGS_MAXED, true)), None);
    ghost var tags0 := button.tags.notifyTitleId;
    ghost var titleId := tags0[MetaWindowObj(1)];
    assert button.hub.live.Keys == {other} + tracked + {titleId};
    assert other != titleId;
    assert tags0 == map[MetaWindowObj(1) := titleId];
    assert tags0.Keys <= MetaWindows([1]);
    ghost var live1 := button.hub.live;
    button.Destroy([1]);
    remaining := button.hub.live;
    OnlyOtherLeft(live1, tracked + tags0.Values, other);
  }

  /**
   * Tracking two subscriptions under an owner and releasing them leaves the
   * shell's live handlers as they were, a handler connected by someone else
   * included.
   */
  method TrackThenRelease() returns (restored: bool, othersKept: bool)
    ensures restored && othersKept
  {
    var hub := new SignalHub();
    var kept := hub.Connect(Display, NotifyFocusWindow, CallsSync);
    var ledger := new Ledger(Extension.BOUND_SIGNALS);
    var owner := new Holder();
    var before := hub.live;
    var a := ledger.ConnectAndTrack(hub, owner, Workspace(0), WindowRemoved, CallsSync);
    var b := ledger.ConnectAndTrack(hub, owner, WindowManager, SizeChange, CallsOnRedimension);
    ghost var entries := [Binding(Workspace(0), a), Binding(WindowManager, b)];
    ghost var added := map[a := Connection(Workspace(0), WindowRemoved, CallsSync),
                           b := Connection(WindowManager, SizeChange, CallsOnRedimension)];
    assert ledger.Entries(owner) == entries;
    assert hub.live == before + added;
    assert Ids(entries) == added.Keys;
    ReleaseUndoesTracking(before, added, entries);
    ledger.DisconnectTrackedSignals(hub, owner);
    restored, othersKept := hub.live == before, kept in hub.live;
  }

  /** Releasing an owner a second time disconnects nothing. */
  method ReleaseTwice() returns (secondChanged: bool)
    ensures !secondChanged
  {
    var hub := new SignalHub();
    var ledger := new Ledger(Extension.BOUND_SIGNALS);
    var owner := new Holder();
    var a := ledger.ConnectAndTrack(hub, owner, Workspace(0), WindowRemoved, CallsSync);
    ledger.DisconnectTrackedSignals(hub, owner);
    var after := hub.live;
    ledger.DisconnectTrackedSignals(hub, owner);
    secondChanged := hub.live != after;
  }

  /**
   * The older revision, focused on window 1 and then destroyed with window
   * 1 on screen, leaves window 1's title handler connected and its id stored.
   */
  method LegacyTeardownLeaksTitleHandler() returns (leaked: bool, stillStored: bool)
    ensures leaked && stillStored
  {
    var hub := new SignalHub();
    var ledger := new Ledger(LegacyExtension.LEGACY_BOUND_SIGNALS);
    var tags := new TitleTags();
    var button := new LegacyExtension.StatusTitleBarButton(hub, ledger, tags, 1);
    var _ := button.Sync(Some(WindowInfo(1, "Editor", FLAGS_MAXED, true)), None);
    var id := tags.notifyTitleId[MetaWindowObj(1)];
    assert id !in button.TrackedIds();
    button.Destroy([1]);
    leaked, stillStored := id in hub.live, MetaWindowObj(1) in tags.notifyTitleId;
  }

  /**
   * The older revision focused on a half-maximized window whose application
   * is not resolved: `_changeTitle` throws, and the label is left empty.
   */
  method LegacyNullAppThrows() returns (thrown: Option<TitleError>, shown: string)
    ensures thrown == Some(NullApp) && shown == ""
  {
    var hub := new SignalHub();
    var ledger := new Ledger(LegacyExtension.LEGACY_BOUND_SIGNALS);
    var tags := new TitleTags();
    var button := new LegacyExtension.StatusTitleBarButton(hub, ledger, tags, 1);
    thrown := button.Sync(Some(WindowInfo(1, "Report", HORIZONTAL, true)), None);
    shown := button.labelText;
  }
}
