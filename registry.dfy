/**
 * The two-level registry both receivers keep: add-on (or signaler) id ->
 * callback name (or signal) -> whatever a slot holds.  These are the dict
 * updates of register_slot / unregister_slot / unregister_slots
 * (lib/addonconnector.py) and registerSlot / unRegisterSlot
 * (lib/AddonSignals.py), and the cleanup after a blocking call.
 */
module SlotRegistry {
  import opened Values
  import opened Polling

  type Table<V> = map<string, map<string, V>>

  function Lookup<V(==)>(slots: Table<V>, addonId: string, callbackName: string): Option<V> {
    if addonId in slots && callbackName in slots[addonId] then Some(slots[addonId][callbackName]) else None
  }

  /** The registry after register_slot: one slot set or replaced, the add-on entry created if absent. */
  function WithSlot<V(==)>(slots: Table<V>, addonId: string, callbackName: string, slot: V): (r: Table<V>)
    ensures r.Keys == slots.Keys + {addonId}
    ensures Lookup(r, addonId, callbackName) == Some(slot)
    ensures forall a, n | a != addonId || n != callbackName :: Lookup(r, a, n) == Lookup(slots, a, n)
  {
    var inner := if addonId in slots then slots[addonId] else map[];
    slots[addonId := inner[callbackName := slot]]
  }

  /** The registry after unregister_slot: that slot gone, the add-on entry kept even when empty. */
  function WithoutSlot<V(==)>(slots: Table<V>, addonId: string, callbackName: string): (r: Table<V>)
    ensures r.Keys == slots.Keys
    ensures Lookup(r, addonId, callbackName) == None
    ensures forall a, n | a != addonId || n != callbackName :: Lookup(r, a, n) == Lookup(slots, a, n)
    ensures addonId in slots ==> r[addonId].Keys == slots[addonId].Keys - {callbackName}
  {
    if addonId !in slots || callbackName !in slots[addonId] then slots
    else slots[addonId := slots[addonId] - {callbackName}]
  }

  /** The registry after unregister_slots: everything for None, else just that add-on. */
  function WithoutAddon<V(==)>(slots: Table<V>, addonId: Option<string>): (r: Table<V>)
    ensures addonId.None? ==> r == map[]
    ensures addonId.Some? ==> r.Keys == slots.Keys - {addonId.value}
    ensures forall a | a in r :: r[a] == slots[a]
  {
    if addonId.None? then map[] else slots - {addonId.value}
  }

  /**
   * The registry after a blocking call's wait unregisters name for addonId:
   * a finished or timed-out wait removes that one slot, an abort nothing.
   * Both CallHandlers register their return slot under a prefixed name; as
   * written they pass the bare name here, corrected the prefixed one.
   */
  function Cleanup<V(==)>(slots: Table<V>, exit: Exit, name: string, addonId: string): (r: Table<V>)
    ensures exit.Fulfilled? || exit.TimedOut? ==> Lookup(r, addonId, name) == None
    ensures forall a, n | !(exit.Fulfilled? || exit.TimedOut?) || a != addonId || n != name ::
              Lookup(r, a, n) == Lookup(slots, a, n)
  {
    if exit.Fulfilled? || exit.TimedOut? then WithoutSlot(slots, addonId, name) else slots
  }

  /** A name with a non-empty prefix is never the name it was made from. */
  lemma PrefixedNameDiffers(prefix: string, name: string)
    requires prefix != ""
    ensures prefix + name != name
  {
    assert |prefix + name| == |prefix| + |name|;
  }

  /**
   * Cleaning up the bare name leaves the prefixed return slot registered, and
   * removes whatever slot the add-on holds under the bare name.
   */
  lemma ReturnSlotOutlivesCall<V>(slots: Table<V>, prefix: string, addonId: string, name: string, slot: V, exit: Exit)
    requires prefix != ""
    ensures var registered := WithSlot(slots, addonId, prefix + name, slot);
            var after := Cleanup(registered, exit, name, addonId);
            && Lookup(after, addonId, prefix + name) == Some(slot)
            && (exit.Fulfilled? || exit.TimedOut? ==> Lookup(after, addonId, name) == None)
  {
    PrefixedNameDiffers(prefix, name);
  }

  /** Cleaning up the prefixed name a finished or timed-out call registered restores the registry. */
  lemma ReturnSlotRemovedAfterCall<V>(slots: Table<V>, prefix: string, addonId: string, name: string, slot: V, exit: Exit)
    requires exit.Fulfilled? || exit.TimedOut?
    requires Lookup(slots, addonId, prefix + name).None?
    ensures var after := Cleanup(WithSlot(slots, addonId, prefix + name, slot), exit, prefix + name, addonId);
            forall a, n :: Lookup(after, a, n) == Lookup(slots, a, n)
  {
  }
}
