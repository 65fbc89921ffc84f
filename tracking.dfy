/**
 * What the two ledgers of a panel button hold after its subscriptions: its
 * own ledger, filled by the fixed list of `_init` connections, and the
 * workspace ledger, one 'window-removed' subscription per workspace index.
 * The step lemmas extend these facts by one `connectAndTrack` at a time.
 */
module Tracking {
  import opened Host
  import opened Signals

  /** `entries` records, in order, one live handler for each connection of `conns`. */
  ghost predicate TracksInOrder(live: map<HandlerId, Connection>, entries: seq<Binding>, conns: seq<Connection>)
  {
    && |entries| == |conns|
    && forall k | 0 <= k < |conns| ::
         && entries[k].subject == conns[k].subject
         && entries[k].id in live
         && live[entries[k].id] == conns[k]
  }

  /**
   * The first `k` connections of `conns` are recorded in order, each live and
   * fresh with respect to `live0`, and nothing live in `live0` changed.
   */
  ghost predicate TrackProgress(live0: map<HandlerId, Connection>, live: map<HandlerId, Connection>,
                                entries: seq<Binding>, conns: seq<Connection>, k: nat)
  {
    && k <= |conns|
    && |entries| == k
    && (forall j | 0 <= j < k ::
          && entries[j].subject == conns[j].subject
          && entries[j].id !in live0
          && entries[j].id in live
          && live[entries[j].id] == conns[j])
    && live.Keys == live0.Keys + Ids(entries)
    && Submap(live0, live)
  }

  /** One more connection, made under a fresh id and recorded, extends the progress by one. */
  lemma TrackStep(live0: map<HandlerId, Connection>, live: map<HandlerId, Connection>,
                  entries: seq<Binding>, conns: seq<Connection>, k: nat, id: HandlerId)
    requires TrackProgress(live0, live, entries, conns, k) && k < |conns| && id !in live
    ensures TrackProgress(live0, live[id := conns[k]], entries + [Binding(conns[k].subject, id)], conns, k + 1)
  {
    var entries' := entries + [Binding(conns[k].subject, id)];
    IdsSnoc(entries, Binding(conns[k].subject, id));
    forall j | 0 <= j < k
      ensures entries'[j] == entries[j] && entries[j].id != id
    {
    }
  }

  /** Once every connection is made, the ledger is complete and in order. */
  lemma ProgressComplete(live0: map<HandlerId, Connection>, live: map<HandlerId, Connection>,
                         entries: seq<Binding>, conns: seq<Connection>)
    requires TrackProgress(live0, live, entries, conns, |conns|)
    ensures TracksInOrder(live, entries, conns)
  {
  }

  /** Handlers that stay connected keep a complete ledger complete. */
  lemma TracksInOrderSubmap(live: map<HandlerId, Connection>, big: map<HandlerId, Connection>,
                            entries: seq<Binding>, conns: seq<Connection>)
    requires TracksInOrder(live, entries, conns) && Submap(live, big)
    ensures TracksInOrder(big, entries, conns)
  {
  }

  /** `entries` records, one per index, a live 'window-removed' handler on each of the first `n` workspaces. */
  ghost predicate WorkspaceLedger(live: map<HandlerId, Connection>, entries: seq<Binding>, n: nat)
  {
    && |entries| == n
    && forall i | 0 <= i < n ::
         && entries[i].subject == Workspace(i)
         && entries[i].id in live
         && live[entries[i].id] == Connection(Workspace(i), WindowRemoved, CallsSync)
  }

  /**
   * The handlers recorded in a complete own ledger over connections that are
   * not on windows, and in a workspace ledger, are live and none of them is on
   * a window.
   */
  lemma LedgersOffWindows(live: map<HandlerId, Connection>, own: seq<Binding>, conns: seq<Connection>,
                          workspaces: seq<Binding>, n: nat)
    requires TracksInOrder(live, own, conns) && forall k | 0 <= k < |conns| :: !conns[k].subject.Window?
    requires WorkspaceLedger(live, workspaces, n)
    ensures forall id | id in Ids(own) + Ids(workspaces) :: id in live && !live[id].subject.Window?
  {
    forall id | id in Ids(own) ensures id in live && !live[id].subject.Window? {
      var b :| b in own && b.id == id;
      var k :| 0 <= k < |own| && own[k] == b;
    }
    forall id | id in Ids(workspaces) ensures id in live && !live[id].subject.Window? {
      var b :| b in workspaces && b.id == id;
      var i :| 0 <= i < |workspaces| && workspaces[i] == b;
    }
  }

  /** One more workspace subscription, made under a fresh id, extends the workspace ledger by one. */
  lemma WorkspaceStep(live0: map<HandlerId, Connection>, live: map<HandlerId, Connection>,
                      entries: seq<Binding>, i: nat, id: HandlerId)
    requires WorkspaceLedger(live, entries, i) && id !in live
    requires live.Keys == live0.Keys + Ids(entries) && Submap(live0, live)
    ensures var live' := live[id := Connection(Workspace(i), WindowRemoved, CallsSync)];
            var entries' := entries + [Binding(Workspace(i), id)];
            && WorkspaceLedger(live', entries', i + 1)
            && live'.Keys == live0.Keys + Ids(entries')
            && Submap(live0, live')
  {
    var entries' := entries + [Binding(Workspace(i), id)];
    IdsSnoc(entries, Binding(Workspace(i), id));
    forall j | 0 <= j < i
      ensures entries'[j] == entries[j] && entries[j].id != id
    {
    }
  }

  /** Two updates, each confined to one owner absent at first, leave every other owner's ledger as it was. */
  lemma OtherOwnersUntouched(bound0: map<object, seq<Binding>>, bound1: map<object, seq<Binding>>,
                             bound2: map<object, seq<Binding>>, a: object, b: object)
    requires a !in bound0 && b !in bound0
    requires bound1 - {a} == bound0 - {a} && bound2 - {b} == bound1 - {b}
    ensures bound2 - {a, b} == bound0
  {
    forall o | o in bound0
      ensures o in bound2 - {a, b} && (bound2 - {a, b})[o] == bound0[o]
    {
      assert o in bound0 - {a};
      assert o in bound1 - {b};
    }
    forall o | o in bound2 - {a, b}
      ensures o in bound0
    {
      assert o in bound2 - {b};
      assert o in bound1 - {a};
    }
  }

  /** Releasing two sets of handlers one after the other releases their union. */
  lemma MinusTwice(live: map<HandlerId, Connection>, a: set<HandlerId>, b: set<HandlerId>)
    ensures live - a - b == live - (a + b)
    ensures Submap(live - a - b, live)
  {
  }
}
