/** server/upgrade.go: detecting the first run of the plugin on a server version,
    by a get-then-set of the record stored under "ServerUpgrade-<version>". */
module Upgrade {
  import opened Times
  import opened PluginApi
  import opened Utils

  /** ServerUpgradeKey, "ServerUpgrade-%s". */
  function UpgradeKey(serverVersion: string): string {
    "ServerUpgrade-" + serverVersion
  }

  /** Decoding into a nil `*serverUpgrade`: a serverUpgrade record, or nothing. */
  function DecodeUpgrade(v: Value): Option<Option<Value>> {
    if v.JsonServerUpgrade? then Some(Some(v)) else None
  }

  /** checkForServerUpgrade as a step on the store: whether this version is new,
      the error if any, and the new world. */
  function CheckForServerUpgradeStep(f: Faults, w: World, serverVersion: string, now: int)
    : (res: (bool, Option<AppError>, World))
    // A failed read: no upgrade, the read's error, nothing written.
    ensures var key := UpgradeKey(serverVersion);
            key in f.failGet ==> res == (false, Some(StoreError(Get(key))), Logged(w, Get(key)))
    // A record already stored: no upgrade, no error, nothing written.
    ensures var key := UpgradeKey(serverVersion);
            key !in f.failGet && key in w.kv && w.kv[key].JsonServerUpgrade? ==>
              res == (false, None, Logged(w, Get(key)))
    // Data that is not a record: no upgrade, a decoding error, nothing written.
    ensures var key := UpgradeKey(serverVersion);
            key !in f.failGet && key in w.kv && !w.kv[key].JsonServerUpgrade? ==>
              res == (false, Some(DecodeError(key)), Logged(w, Get(key)))
    // No record yet: store {serverVersion, now}; report the upgrade only when that succeeds.
    ensures var key := UpgradeKey(serverVersion);
            var record := JsonServerUpgrade(serverVersion, now);
            key !in f.failGet && key !in w.kv ==>
              && (res.0 <==> res.1.None?)
              && (res.0 <==> JsonEncodable(now) && key !in f.failSet)
              && res.2.kv == (if res.0 then w.kv[key := record] else w.kv)
              && res.2.log == w.log + [Get(key)] + (if JsonEncodable(now) then [Set(key, record)] else [])
  {
    var key := UpgradeKey(serverVersion);
    var (stored, w1) := KvGetStep(f, w, key, DecodeUpgrade, None);
    if stored.Err? then (false, Some(stored.error), w1)
    else if stored.value.Some? then (false, None, w1)
    else
      var (saved, w2) := KvSetStep(f, w1, key, JsonServerUpgrade(serverVersion, now));
      if saved.Err? then (false, Some(saved.error), w2) else (true, None, w2)
  }

  method CheckForServerUpgrade(store: Store, serverVersion: string, now: int)
    returns (upgraded: bool, err: Option<AppError>)
    modifies store
    ensures (upgraded, err, store.State())
         == CheckForServerUpgradeStep(store.faults, old(store.State()), serverVersion, now)
  {
    var key := UpgradeKey(serverVersion);
    var stored := KvGet(store, key, DecodeUpgrade, None);
    if stored.Err? {
      return false, Some(stored.error);
    }
    if stored.value.Some? {
      return false, None;
    }
    var saved := KvSet(store, key, JsonServerUpgrade(serverVersion, now));
    if saved.Err? {
      return false, Some(saved.error);
    }
    return true, None;
  }

  /** The only entry read or written is the one for the current version. */
  lemma CheckTouchesOnlyItsKey(f: Faults, w: World, serverVersion: string, now: int, k: string)
    requires k != UpgradeKey(serverVersion)
    ensures var res := CheckForServerUpgradeStep(f, w, serverVersion, now);
            && Lookup(res.2.kv, k) == Lookup(w.kv, k)
            && w.log <= res.2.log
            && forall i :: |w.log| <= i < |res.2.log| ==> !res.2.log[i].Touches(k)
  {
  }

  /** Once per version: a second check after a successful first one reports no
      upgrade, and the stored time of the upgrade stays the first one. */
  lemma UpgradeSeenOnce(listing: seq<seq<string>>, w: World, serverVersion: string, now: int, later: int)
    requires UpgradeKey(serverVersion) !in w.kv
    requires JsonEncodable(now)
    ensures var f := Reliable(listing);
            var first := CheckForServerUpgradeStep(f, w, serverVersion, now);
            var second := CheckForServerUpgradeStep(f, first.2, serverVersion, later);
            && first.0 && first.1.None?
            && !second.0 && second.1.None?
            && second.2.kv == first.2.kv
            && second.2.kv[UpgradeKey(serverVersion)] == JsonServerUpgrade(serverVersion, now)
  {
  }
}
