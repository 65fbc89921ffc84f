/**
 * The shell's publish/subscribe service, reduced to what the extension relies
 * on: `connect` hands out a fresh handler id and `disconnect` retires one.
 * Callbacks are recorded by name only; their delivery is not modelled.
 */
module Signals {
  import opened Host

  /** What the shell knows about a live handler. */
  datatype Connection = Connection(subject: Subject, signal: SignalName, callback: Callback)

  /** One entry of an owner's ledger: the pair `[subject, id]`. */
  datatype Binding = Binding(subject: Subject, id: HandlerId)

  /** A call into the shell, as seen by an observer of the hub. */
  datatype HubCall =
    | ConnectCall(subject: Subject, signal: SignalName, id: HandlerId)
    | DisconnectCall(subject: Subject, id: HandlerId)

  /**
   * The effect of `subject.disconnect(id)` on the live handlers: the handler
   * goes away only when `subject` issued it; an unknown or stale id leaves
   * everything as it was (the shell only logs a warning).
   */
  function Unsubscribe(live: map<HandlerId, Connection>, subject: Subject, id: HandlerId): (r: map<HandlerId, Connection>)
    ensures r == live || r == live - {id}
    ensures id in r <==> id in live && live[id].subject != subject
  {
    if id in live && live[id].subject == subject then live - {id} else live
  }

  /** The live handlers after `disconnect` has been called on every entry of `entries`, first to last. */
  function Disconnected(live: map<HandlerId, Connection>, entries: seq<Binding>): (r: map<HandlerId, Connection>)
    decreases |entries|
  {
    if entries == [] then live
    else
      var last := entries[|entries| - 1];
      Unsubscribe(Disconnected(live, entries[..|entries| - 1]), last.subject, last.id)
  }

  /** The calls made by disconnecting every entry of `entries`, first to last. */
  function DisconnectCalls(entries: seq<Binding>): (calls: seq<HubCall>)
    decreases |entries|
  {
    if entries == [] then []
    else
      var last := entries[|entries| - 1];
      DisconnectCalls(entries[..|entries| - 1]) + [DisconnectCall(last.subject, last.id)]
  }

  /** The handler ids recorded in `entries`. */
  function Ids(entries: seq<Binding>): (ids: set<HandlerId>)
  {
    set b | b in entries :: b.id
  }

  /** Every entry whose id is still live names the subject that issued it. */
  ghost predicate Attributed(live: map<HandlerId, Connection>, entries: seq<Binding>)
  {
    forall b | b in entries && b.id in live :: live[b.id].subject == b.subject
  }

  /** Every entry's id was issued before `nextId`. */
  ghost predicate Issued(entries: seq<Binding>, nextId: HandlerId)
  {
    forall b | b in entries :: b.id < nextId
  }

  /** `small` keeps some of the handlers of `big`, each unchanged. */
  ghost predicate Submap(small: map<HandlerId, Connection>, big: map<HandlerId, Connection>)
  {
    small.Keys <= big.Keys && forall id | id in small :: small[id] == big[id]
  }

  /**
   * The shell's signal service. `live` maps every connected handler id to
   * its connection; `calls` records every call made into it, in order.
   */
  class SignalHub {
    var live: map<HandlerId, Connection>
    var nextId: HandlerId
    ghost var calls: seq<HubCall>

    /** Ids are positive and never handed out twice. */
    ghost predicate Valid()
      reads this
    {
      0 < nextId && forall id | id in live :: 0 < id < nextId
    }

    constructor ()
      ensures Valid() && live == map[] && calls == []
    {
      live := map[];
      nextId := 1;
      calls := [];
    }

    /** `subject.connect(signal, callback)`: a fresh id, now live. */
    method Connect(subject: Subject, signal: SignalName, callback: Callback) returns (id: HandlerId)
      requires Valid()
      modifies this
      ensures Valid()
      ensures 0 < old(nextId) <= id < nextId
      ensures id !in old(live)
      ensures live == old(live)[id := Connection(subject, signal, callback)]
      ensures calls == old(calls) + [ConnectCall(subject, signal, id)]
    {
      id := nextId;
      live := live[id := Connection(subject, signal, callback)];
      nextId := nextId + 1;
      calls := calls + [ConnectCall(subject, signal, id)];
    }

    /** `subject.disconnect(id)`. */
    method Disconnect(subject: Subject, id: HandlerId)
      requires Valid()
      modifies this
      ensures Valid() && nextId == old(nextId)
      ensures live == Unsubscribe(old(live), subject, id)
      ensures calls == old(calls) + [DisconnectCall(subject, id)]
    {
      live := Unsubscribe(live, subject, id);
      calls := calls + [DisconnectCall(subject, id)];
    }
  }

  /** Ids of a prefix extended by one entry. */
  lemma IdsSnoc(entries: seq<Binding>, b: Binding)
    ensures Ids(entries + [b]) == Ids(entries) + {b.id}
  {
    var s := entries + [b];
    forall id | id in Ids(s) ensures id in Ids(entries) + {b.id} {
      var c :| c in s && c.id == id;
      if c != b { assert c in entries; }
    }
    forall id | id in Ids(entries) ensures id in Ids(s) {
      var c :| c in entries && c.id == id;
      assert c in s;
    }
    assert b in s;
  }

  /**
   * Releasing a ledger touches no handler it does not record: what remains is
   * a part of what was live, and every handler not in the ledger survives.
   */
  lemma {:induction false} DisconnectedTouchesOnlyTracked(live: map<HandlerId, Connection>, entries: seq<Binding>)
    ensures Submap(Disconnected(live, entries), live)
    ensures forall id | id in live && id !in Ids(entries) :: id in Disconnected(live, entries)
    decreases |entries|
  {
    if entries != [] {
      var init, last := entries[..|entries| - 1], entries[|entries| - 1];
      assert entries == init + [last];
      DisconnectedTouchesOnlyTracked(live, init);
      IdsSnoc(init, last);
    }
  }

  /**
   * When every recorded id that is live was issued by the recorded subject,
   * releasing the ledger removes exactly the recorded ids.
   */
  lemma {:induction false} DisconnectedRemovesTracked(live: map<HandlerId, Connection>, entries: seq<Binding>)
    requires Attributed(live, entries)
    ensures Disconnected(live, entries) == live - Ids(entries)
    decreases |entries|
  {
    if entries != [] {
      var init, last := entries[..|entries| - 1], entries[|entries| - 1];
      assert entries == init + [last];
      assert Attributed(live, init);
      DisconnectedRemovesTracked(live, init);
      IdsSnoc(init, last);
      assert last in entries;
    }
  }

  /** Releasing a ledger makes one `disconnect` call per entry, in entry order, on the recorded subject. */
  lemma {:induction false} DisconnectCallsOnePerEntry(entries: seq<Binding>)
    ensures |DisconnectCalls(entries)| == |entries|
    ensures forall k | 0 <= k < |entries| :: DisconnectCalls(entries)[k] == DisconnectCall(entries[k].subject, entries[k].id)
    decreases |entries|
  {
    if entries != [] {
      DisconnectCallsOnePerEntry(entries[..|entries| - 1]);
    }
  }

  /**
   * Tracking some fresh subscriptions and then releasing them leaves the
   * shell's live handlers exactly as they were before the tracking.
   */
  lemma ReleaseUndoesTracking(before: map<HandlerId, Connection>, added: map<HandlerId, Connection>, entries: seq<Binding>)
    requires before.Keys !! added.Keys
    requires Ids(entries) == added.Keys
    requires Attributed(added, entries)
    ensures Disconnected(before + added, entries) == before
  {
    var all := before + added;
    assert Attributed(all, entries) by {
      forall b | b in entries && b.id in all ensures all[b.id].subject == b.subject {
        assert b.id in Ids(entries);
      }
    }
    DisconnectedRemovesTracked(all, entries);
    assert all - Ids(entries) == before;
  }

  /** Dropping handlers keeps a ledger attributed. */
  lemma AttributedSubmap(small: map<HandlerId, Connection>, big: map<HandlerId, Connection>, entries: seq<Binding>)
    requires Submap(small, big) && Attributed(big, entries)
    ensures Attributed(small, entries)
  {
  }

  // ---- Title handlers stored on windows (`_notifyTitleId`) ----

  /**
   * Ids stored on host objects are stored only on MetaWindows, were issued by
   * the shell, and, while live, belong to that window.
   */
  ghost predicate TagsSound(live: map<HandlerId, Connection>, nextId: HandlerId, tags: map<HostObject, HandlerId>)
  {
    && (forall o | o in tags :: o.MetaWindowObj?)
    && TagsIssued(live, nextId, tags)
  }

  /** Every stored id was issued by the shell and, while live, belongs to the object it is stored on. */
  ghost predicate TagsIssued(live: map<HandlerId, Connection>, nextId: HandlerId, tags: map<HostObject, HandlerId>)
  {
    forall o | o in tags :: tags[o] < nextId && (tags[o] in live ==> live[tags[o]].subject == SubjectOf(o))
  }

  /**
   * A 'notify::title' handler on a window bound to the button's own title
   * callback. Other code in the shell may listen to a window's title too;
   * its handlers are not the button's.
   */
  predicate ButtonTitleHandler(c: Connection)
  {
    && c.signal == NotifyTitle && c.subject.Window?
    && (c.callback == CallsOnWindowTitleChanged || c.callback == CallsOnTitleChanged)
  }

  /** Every live title handler of the button on a window is the id stored on that window, so a window has at most one. */
  ghost predicate TitleHandlersTagged(live: map<HandlerId, Connection>, tags: map<HostObject, HandlerId>)
  {
    forall id | id in live && ButtonTitleHandler(live[id]) ::
      MetaWindowObj(live[id].subject.window) in tags && tags[MetaWindowObj(live[id].subject.window)] == id
  }

  /** The MetaWindows of a list of windows. */
  function MetaWindows(windows: seq<WindowId>): (objs: set<HostObject>)
  {
    set w | w in windows :: MetaWindowObj(w)
  }

  /** The ids stored on the MetaWindows of `windows`. */
  function TagIds(tags: map<HostObject, HandlerId>, windows: seq<WindowId>): (ids: set<HandlerId>)
  {
    set w | w in windows && MetaWindowObj(w) in tags :: tags[MetaWindowObj(w)]
  }

  /**
   * A window has at most one live title handler of the button, whatever other
   * title handlers the shell holds on it.
   */
  lemma AtMostOneTitleHandler(live: map<HandlerId, Connection>, tags: map<HostObject, HandlerId>, id1: HandlerId, id2: HandlerId)
    requires TitleHandlersTagged(live, tags)
    requires id1 in live && id2 in live
    requires ButtonTitleHandler(live[id1]) && ButtonTitleHandler(live[id2])
    requires live[id1].subject == live[id2].subject
    ensures id1 == id2
  {
  }

  /**
   * Teardown completeness: releasing the own ledger, then the workspace
   * ledger, then the ids stored on every listed window, removes from the live
   * handlers exactly the recorded and the stored ids, provided every tagged
   * window is listed. Every other handler survives unchanged.
   */
  lemma TeardownReleasesAll(live: map<HandlerId, Connection>, own: seq<Binding>, workspaces: seq<Binding>,
                            tags: map<HostObject, HandlerId>, windows: seq<WindowId>)
    requires Attributed(live, own) && Attributed(live, workspaces)
    requires tags.Keys <= MetaWindows(windows)
    ensures Disconnected(Disconnected(live, own), workspaces) - TagIds(tags, windows)
            == live - (Ids(own) + Ids(workspaces) + tags.Values)
  {
    DisconnectedRemovesTracked(live, own);
    var live1 := live - Ids(own);
    AttributedSubmap(live1, live, workspaces);
    DisconnectedRemovesTracked(live1, workspaces);
    forall id | id in tags.Values ensures id in TagIds(tags, windows) {
      var o :| o in tags && tags[o] == id;
      assert o in MetaWindows(windows);
      var w :| w in windows && MetaWindowObj(w) == o;
    }
    assert TagIds(tags, windows) == tags.Values;
  }

  // ---- What a single connect or a release preserves ----

  /**
   * A freshly issued handler leaves a ledger attributed and issued, also
   * when the ledger records it.
   */
  lemma FreshKeepsLedger(live: map<HandlerId, Connection>, nextId: HandlerId, entries: seq<Binding>,
                         id: HandlerId, c: Connection, nextId': HandlerId)
    requires Attributed(live, entries) && Issued(entries, nextId)
    requires nextId <= id < nextId'
    ensures Attributed(live[id := c], entries) && Issued(entries, nextId')
    ensures Attributed(live[id := c], entries + [Binding(c.subject, id)])
    ensures Issued(entries + [Binding(c.subject, id)], nextId')
  {
  }

  /** A freshly issued handler that is not a title handler of the button leaves the stored title ids sound. */
  lemma FreshKeepsTags(live: map<HandlerId, Connection>, nextId: HandlerId, tags: map<HostObject, HandlerId>,
                       id: HandlerId, c: Connection, nextId': HandlerId)
    requires TagsSound(live, nextId, tags) && TitleHandlersTagged(live, tags)
    requires id !in live && nextId <= id < nextId'
    requires !ButtonTitleHandler(c)
    ensures TagsSound(live[id := c], nextId', tags) && TitleHandlersTagged(live[id := c], tags)
  {
  }

  /** Dropping handlers leaves the stored title ids sound. */
  lemma SubmapKeepsTags(small: map<HandlerId, Connection>, live: map<HandlerId, Connection>, nextId: HandlerId,
                        tags: map<HostObject, HandlerId>)
    requires Submap(small, live)
    requires TagsSound(live, nextId, tags) && TitleHandlersTagged(live, tags)
    ensures TagsSound(small, nextId, tags) && TitleHandlersTagged(small, tags)
  {
  }
}
