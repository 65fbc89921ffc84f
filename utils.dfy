/**
 * The per-owner signal ledger (`connectAndTrack` / `disconnectTrackedSignals`).
 * Each owner object carries, under one property name, a list of
 * `[subject, id]` pairs; the list is created on first use and deleted once
 * every pair has been disconnected.
 */
module Utils {
  import opened Host
  import opened Signals

  /** A plain object used only as an owner of tracked signals (`{}`). */
  class Holder {
    constructor () {}
  }

  /**
   * The ledgers stored under the property `property` on every owner object,
   * keyed by owner identity. An owner without the property has no key.
   */
  class Ledger {
    const property: string
    var bound: map<object, seq<Binding>>

    constructor (property: string)
      ensures this.property == property && bound == map[]
    {
      this.property := property;
      bound := map[];
    }

    /** The pairs recorded for `owner`; none for a null owner or one without a ledger. */
    function Entries(owner: object?): (entries: seq<Binding>)
      reads this
    {
      if owner != null && owner in bound then bound[owner] else []
    }

    /**
     * `connectAndTrack(owner, subject, signal, callback)`: connect once, and
     * append the pair to the owner's ledger, creating the ledger if absent.
     * `id` is the id `subject.connect` returned, exposed for callers' proofs.
     */
    method ConnectAndTrack(hub: SignalHub, owner: object, subject: Subject, signal: SignalName, callback: Callback)
      returns (id: HandlerId)
      requires hub.Valid()
      modifies this, hub
      ensures hub.Valid()
      ensures 0 < old(hub.nextId) <= id < hub.nextId && id !in old(hub.live)
      ensures hub.live == old(hub.live)[id := Connection(subject, signal, callback)]
      ensures hub.calls == old(hub.calls) + [ConnectCall(subject, signal, id)]
      ensures bound == old(bound)[owner := old(Entries(owner)) + [Binding(subject, id)]]
    {
      if owner !in bound {
        bound := bound[owner := []];
      }
      id := hub.Connect(subject, signal, callback);
      bound := bound[owner := bound[owner] + [Binding(subject, id)]];
    }

    /**
     * `disconnectTrackedSignals(owner)`: disconnect every recorded pair, first
     * to last, on the subject that issued it, then delete the owner's ledger.
     * A null owner or an owner without a ledger is left alone.
     */
    method DisconnectTrackedSignals(hub: SignalHub, owner: object?)
      requires hub.Valid()
      modifies this, hub
      ensures hub.Valid() && hub.nextId == old(hub.nextId)
      ensures hub.live == Disconnected(old(hub.live), old(Entries(owner)))
      ensures hub.calls == old(hub.calls) + DisconnectCalls(old(Entries(owner)))
      ensures owner == null ==> bound == old(bound)
      ensures owner != null ==> bound == old(bound) - {owner}
      ensures Entries(owner) == []
      ensures old(owner == null || owner !in bound) ==>
                bound == old(bound) && hub.live == old(hub.live) && hub.calls == old(hub.calls)
    {
      if owner == null || owner !in bound {
        return;
      }
      var entries := bound[owner];
      var i := 0;
      while i < |entries|
        invariant 0 <= i <= |entries|
        invariant hub.Valid() && hub.nextId == old(hub.nextId)
        invariant hub.live == Disconnected(old(hub.live), entries[..i])
        invariant hub.calls == old(hub.calls) + DisconnectCalls(entries[..i])
        invariant bound == old(bound)
      {
        hub.Disconnect(entries[i].subject, entries[i].id);
        assert entries[..i + 1][..i] == entries[..i];
        i := i + 1;
      }
      assert entries[..i] == entries;
      bound := bound - {owner};
    }
  }
}
