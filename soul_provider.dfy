/**
 * The soul-selection context (src/providers/SoulProvider.tsx): the owner and
 * soul ids every scoped request uses, read from `localStorage` when the
 * provider mounts and written through by the two setters.
 */
module SoulProvider {
  import opened Common
  import opened WebStorage

  const OwnerKey: string := "cyberseed_owner"
  const SoulKey: string := "cyberseed_soul"
  const DefaultOwner: string := "dev"
  const DefaultSoul: string := "default"

  /** The id a provider mounting over `items` starts from: the stored one unless missing or empty. */
  function Initial(items: map<string, string>, key: string, default: string): (id: string)
    ensures key in items && items[key] != "" ==> id == items[key]
    ensures (key !in items || items[key] == "") ==> id == default
  {
    OrDefault(Item(items, key), default)
  }

  class Soul {
    var ownerId: string
    var soulId: string
    const store: Store

    constructor(store: Store)
      ensures ownerId == Initial(store.items, OwnerKey, DefaultOwner)
      ensures soulId == Initial(store.items, SoulKey, DefaultSoul)
      ensures this.store == store
    {
      var owner := store.GetItem(OwnerKey);
      var soul := store.GetItem(SoulKey);
      ownerId := OrDefault(owner, DefaultOwner);
      soulId := OrDefault(soul, DefaultSoul);
      this.store := store;
    }

    /** `setOwnerId(id)`: storage first, then state; the soul id and its key are untouched. */
    method SetOwnerId(id: string)
      modifies this, store
      ensures ownerId == id && soulId == old(soulId)
      ensures store.items == old(store.items)[OwnerKey := id]
    {
      store.SetItem(OwnerKey, id);
      ownerId := id;
    }

    /** `setSoulId(id)`: storage first, then state; the owner id and its key are untouched. */
    method SetSoulId(id: string)
      modifies this, store
      ensures soulId == id && ownerId == old(ownerId)
      ensures store.items == old(store.items)[SoulKey := id]
    {
      store.SetItem(SoulKey, id);
      soulId := id;
    }
  }

  /**
   * A choice survives a reload: a provider mounted after `setOwnerId(o)` and
   * `setSoulId(s)` starts from them, except that an empty id reloads as the
   * default because the initialiser treats "" as missing.
   */
  method ReloadAfterSet(store: Store, o: string, s: string) returns (reloaded: Soul)
    modifies store
    ensures reloaded.ownerId == (if o != "" then o else DefaultOwner)
    ensures reloaded.soulId == (if s != "" then s else DefaultSoul)
  {
    var first := new Soul(store);
    first.SetOwnerId(o);
    first.SetSoulId(s);
    reloaded := new Soul(store);
  }
}
