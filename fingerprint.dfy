/** The device identifier of the frontend (`lib/fingerprint.ts`): the module-level
    cache, then `localStorage`'s "deviceId", then a freshly computed browser
    fingerprint, which is stored and cached.

    The fingerprint library is a parameter: `visitorId` is what it would compute. */
module Fingerprint {
  import opened Common
  import opened Browser

  const DeviceIdKey: string := "deviceId"

  /** Where `getDeviceId` finds the identifier, given the cache and the stored value. */
  datatype Source = FromCache | FromStorage | Generated

  function SourceOf(cached: Option<string>, stored: Option<string>): Source {
    if Present(cached) then FromCache
    else if Present(stored) then FromStorage
    else Generated
  }

  /** The identifier `getDeviceId` returns: the cache when it is non-empty, else the
      stored value when it is non-empty, else the fingerprint. */
  function DeviceIdFor(cached: Option<string>, stored: Option<string>, visitorId: string): (id: string)
    ensures SourceOf(cached, stored) == FromCache ==> Some(id) == cached
    ensures SourceOf(cached, stored) == FromStorage ==> Some(id) == stored
    ensures SourceOf(cached, stored) == Generated ==> id == visitorId
  {
    match SourceOf(cached, stored)
    case FromCache => cached.value
    case FromStorage => stored.value
    case Generated => visitorId
  }

  /** The identifier is settled by the first call: whatever the second call's
      fingerprint would be, it returns the same identifier without computing one,
      provided the first identifier is not empty. */
  lemma SecondCallAgrees(cached: Option<string>, stored: Option<string>, v1: string, v2: string)
    requires DeviceIdFor(cached, stored, v1) != ""
    ensures var id := DeviceIdFor(cached, stored, v1);
      SourceOf(Some(id), Some(id)) == FromCache && DeviceIdFor(Some(id), Some(id), v2) == id
  {
  }

  /** The module-level cache together with the storage it reads. */
  class DeviceIdentity {
    var cachedDeviceId: Option<string>
    const storage: LocalStorage

    constructor (storage: LocalStorage)
      ensures this.storage == storage && cachedDeviceId == None
    {
      this.storage := storage;
      cachedDeviceId := None;
    }

    /** The cache agrees with storage whenever it is non-empty. */
    predicate Coherent()
      reads this, storage
    {
      Present(cachedDeviceId) ==> storage.GetItem(DeviceIdKey) == cachedDeviceId
    }

    /** `getDeviceId`. `generated` says whether a fingerprint was computed. */
    method GetDeviceId(visitorId: string) returns (id: string, generated: bool)
      modifies this, storage
      ensures var src := SourceOf(old(cachedDeviceId), old(storage.GetItem(DeviceIdKey)));
        && id == DeviceIdFor(old(cachedDeviceId), old(storage.GetItem(DeviceIdKey)), visitorId)
        && generated == (src == Generated)
        && (src == FromCache ==> cachedDeviceId == old(cachedDeviceId))
        && (src != FromCache ==> cachedDeviceId == Some(id))
        && (src == Generated ==> storage.items == old(storage.items)[DeviceIdKey := id])
        && (src != Generated ==> storage.items == old(storage.items))
      ensures old(Coherent()) ==> Coherent()
    {
      if Present(cachedDeviceId) {
        return cachedDeviceId.value, false;
      }
      var stored := storage.GetItem(DeviceIdKey);
      if Present(stored) {
        cachedDeviceId := stored;
        return stored.value, false;
      }
      storage.SetItem(DeviceIdKey, visitorId);
      cachedDeviceId := Some(visitorId);
      return visitorId, true;
    }
  }

  /** Two calls in a row return the same identifier, and the second computes nothing,
      unless the fingerprint was empty. */
  method CallTwice(identity: DeviceIdentity, v1: string, v2: string)
    returns (first: string, second: string, generatedAgain: bool)
    modifies identity, identity.storage
    ensures first != "" ==> second == first && !generatedAgain
  {
    var g1;
    first, g1 := identity.GetDeviceId(v1);
    second, generatedAgain := identity.GetDeviceId(v2);
  }
}
