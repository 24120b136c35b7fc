/** The key-value locks of server/lock.go: a lock is an entry holding the JSON
    encoding of the time it was taken. `TryLock` takes it by compare-and-set
    from absent, `Unlock` deletes it, and `ClearStaleLocks` pages through every
    key of the store, releasing the locks held for an hour or more. */
module Lock {
  import opened Times
  import opened PluginApi

  /** Guards survey scheduling across plugin instances. */
  const LockKey: string := "Lock"
  /** Prefix of the per-user locks, "UserLock-%s" with a 26-character user id. */
  const UserLockPrefix: string := "UserLock-"
  /** How long a lock may be held before a sweep releases it. */
  const LockExpiration: int := Hour
  /** The page size `clearStaleLocks` lists keys with. */
  const KeysPerPage: nat := 100
  /** What a stale lock is set to before it is deleted. */
  const Releasing: Value := Raw("releasing")

  function UserLockKey(userId: string): string {
    UserLockPrefix + userId
  }

  /** userLockPattern, `^UserLock-.{26}$`: the prefix and then exactly 26
      characters, none of them a newline, which `.` does not match. */
  predicate IsUserLockKey(key: string) {
    && |key| == |UserLockPrefix| + 26
    && key[..|UserLockPrefix|] == UserLockPrefix
    && forall i :: |UserLockPrefix| <= i < |key| ==> key[i] != '\n'
  }

  /** The keys the sweep considers; every other key is skipped. */
  predicate IsLockKey(key: string) {
    key == LockKey || IsUserLockKey(key)
  }

  /** The pattern accepts exactly the per-user lock keys of 26-character ids without a newline. */
  lemma UserLockKeyPattern(userId: string)
    ensures IsUserLockKey(UserLockKey(userId)) <==> |userId| == 26 && '\n' !in userId
  {
    var key := UserLockKey(userId);
    assert key[..|UserLockPrefix|] == UserLockPrefix;
    assert forall i :: 0 <= i < |userId| ==> key[|UserLockPrefix| + i] == userId[i];
    if IsUserLockKey(key) {
      forall j | 0 <= j < |userId|
        ensures userId[j] != '\n'
      {
        assert key[|UserLockPrefix| + j] == userId[j];
      }
    }
  }

  /** The time a lock was taken, as `json.Unmarshal` into a zero `time.Time`
      leaves it with its error ignored: data that is not a JSON time, and an
      absent entry, read as the zero time. */
  function LockedAt(held: Option<Value>): int {
    match held
    case Some(JsonTime(t)) => t
    case _ => ZeroTime
  }

  /** `now.Sub(t) >= LOCK_EXPIRATION`. Go saturates the difference to the
      int64 range, which cannot move it across one hour, so the unbounded
      difference decides the same way. */
  predicate IsStale(now: int, held: Option<Value>) {
    now - LockedAt(held) >= LockExpiration
  }

  /** A lock whose data is not a time counts as stale at any time from one hour after year 1. */
  lemma GarbageIsStale(now: int, v: Value)
    requires !v.JsonTime?
    requires now >= ZeroTime + LockExpiration
    ensures IsStale(now, Some(v))
  {
  }

  /** The boundary: a lock is stale from exactly one hour after it was taken. */
  lemma StaleBoundary(t: int)
    ensures IsStale(t + LockExpiration, Some(JsonTime(t)))
    ensures !IsStale(t + LockExpiration - 1, Some(JsonTime(t)))
  {
  }

  // ---------------------------------------------------------------------------
  // tryLock and unlock

  /** tryLock: encode `now`, then compare-and-set the key from absent. */
  function TryLockStep(f: Faults, w: World, key: string, now: int): (res: (Result<bool>, World))
    ensures !JsonEncodable(now) ==> res == (Err(MarshalError), w)
    ensures JsonEncodable(now) && key !in f.failCas ==>
              (res.0 == Ok(true) <==> key !in w.kv && key !in f.lostCas)
    ensures res.0 == Ok(true) ==> res.1.kv == w.kv[key := JsonTime(now)]
    ensures res.0 != Ok(true) ==> res.1.kv == w.kv
    ensures JsonEncodable(now) ==> res.1.log == w.log + [CompareAndSet(key, None, JsonTime(now))]
  {
    if !JsonEncodable(now) then (Err(MarshalError), w)
    else CasStep(f, w, key, None, JsonTime(now))
  }

  /** unlock: delete the key. */
  function UnlockStep(f: Faults, w: World, key: string): (res: (Result<()>, World))
    ensures res.0.Ok? <==> key !in f.failDelete
    ensures res.0.Ok? ==> key !in res.1.kv
    ensures forall k :: k != key ==> Lookup(res.1.kv, k) == Lookup(w.kv, k)
    ensures res.0.Err? ==> res.1.kv == w.kv
  {
    DeleteStep(f, w, key)
  }

  method TryLock(store: Store, key: string, now: int) returns (r: Result<bool>)
    modifies store
    ensures (r, store.State()) == TryLockStep(store.faults, old(store.State()), key, now)
  {
    if !JsonEncodable(now) {
      return Err(MarshalError);
    }
    r := store.CompareAndSet(key, None, JsonTime(now));
  }

  method Unlock(store: Store, key: string) returns (r: Result<()>)
    modifies store
    ensures (r, store.State()) == UnlockStep(store.faults, old(store.State()), key)
  {
    r := store.Delete(key);
  }

  /** A held lock excludes a second taker, and unlocking lets the next one in. */
  lemma LockExclusive(listing: seq<seq<string>>, w: World, key: string, now: int, later: int)
    requires JsonEncodable(now) && JsonEncodable(later)
    requires key !in w.kv
    ensures var f := Reliable(listing);
            var first := TryLockStep(f, w, key, now);
            var second := TryLockStep(f, first.1, key, later);
            var third := TryLockStep(f, UnlockStep(f, second.1, key).1, key, later);
            first.0 == Ok(true) && second.0 == Ok(false) && third.0 == Ok(true)
            && third.1.kv == w.kv[key := JsonTime(later)]
  {
    var f := Reliable(listing);
    var first := TryLockStep(f, w, key, now);
    var second := TryLockStep(f, first.1, key, later);
    var unlocked := UnlockStep(f, second.1, key).1;
    assert unlocked.kv == w.kv by {
      assert second.1.kv == w.kv[key := JsonTime(now)];
      assert unlocked.kv == w.kv[key := JsonTime(now)] - {key};
    }
  }

  // ---------------------------------------------------------------------------
  // clearStaleLocks, specified on worlds. `None` means the sweep went on (or
  // finished); `Some(e)` means it stopped with the error `e`.

  /** The body of the inner loop for one listed key. */
  function SweepKey(f: Faults, now: int, w: World, key: string): (Option<AppError>, World) {
    if !IsLockKey(key) then (None, w)
    else
      var (got, w1) := GetStep(f, w, key);
      if got.Err? then (Some(got.error), w1)
      else if !IsStale(now, got.value) then (None, w1)
      else
        var (swapped, w2) := CasStep(f, w1, key, got.value, Releasing);
        if swapped.Err? then (Some(swapped.error), w2)
        else if !swapped.value then (None, w2)
        else
          var (deleted, w3) := DeleteStep(f, w2, key);
          if deleted.Err? then (Some(deleted.error), w3) else (None, w3)
  }

  /** The inner loop over one page of keys. */
  function SweepKeys(f: Faults, now: int, w: World, keys: seq<string>): (Option<AppError>, World)
    decreases |keys|
  {
    if keys == [] then (None, w)
    else
      var (e, w1) := SweepKey(f, now, w, keys[0]);
      if e.Some? then (e, w1) else SweepKeys(f, now, w1, keys[1..])
  }

  /** The outer loop from page `page` on. */
  function SweepFrom(f: Faults, now: int, w: World, page: nat): (Option<AppError>, World)
    decreases |f.listing| - page
  {
    var (listed, w1) := ListStep(f, w, page, KeysPerPage);
    if listed.Err? then (Some(listed.error), w1)
    else
      var (e, w2) := SweepKeys(f, now, w1, listed.value);
      if e.Some? then (e, w2)
      else if |listed.value| < KeysPerPage then (None, w2)
      else SweepFrom(f, now, w2, page + 1)
  }

  function Sweep(f: Faults, now: int, w: World): (Option<AppError>, World) {
    SweepFrom(f, now, w, 0)
  }

  method SweepOneKey(store: Store, now: int, key: string) returns (e: Option<AppError>)
    modifies store
    ensures (e, store.State()) == SweepKey(store.faults, now, old(store.State()), key)
  {
    if !IsLockKey(key) {
      return None;
    }
    var got := store.Get(key);
    if got.Err? {
      return Some(got.error);
    }
    if !IsStale(now, got.value) {
      return None;
    }
    var swapped := store.CompareAndSet(key, got.value, Releasing);
    if swapped.Err? {
      return Some(swapped.error);
    }
    if !swapped.value {
      return None;
    }
    var deleted := store.Delete(key);
    if deleted.Err? {
      return Some(deleted.error);
    }
    return None;
  }

  /** clearStaleLocks: list pages 0, 1, 2, ... of `KeysPerPage` keys, sweep each
      page's keys, and stop after the first page shorter than a full page. */
  method ClearStaleLocks(store: Store, now: int) returns (e: Option<AppError>)
    modifies store
    ensures (e, store.State()) == Sweep(store.faults, now, old(store.State()))
  {
    ghost var goal := Sweep(store.faults, now, store.State());
    var page: nat := 0;
    while true
      invariant page <= |store.faults.listing|
      invariant SweepFrom(store.faults, now, store.State(), page) == goal
      decreases |store.faults.listing| - page
    {
      ghost var before := store.State();
      var listed := store.List(page, KeysPerPage);
      if listed.Err? {
        return Some(listed.error);
      }
      var keys := listed.value;
      ghost var listedWorld := store.State();
      var i := 0;
      while i < |keys|
        invariant 0 <= i <= |keys|
        invariant SweepKeys(store.faults, now, store.State(), keys[i..])
               == SweepKeys(store.faults, now, listedWorld, keys)
      {
        assert keys[i..][1..] == keys[i + 1..];
        e := SweepOneKey(store, now, keys[i]);
        if e.Some? {
          return;
        }
        i := i + 1;
      }
      if |keys| < KeysPerPage {
        return None;
      }
      page := page + 1;
    }
  }

  // ---------------------------------------------------------------------------
  // What the sweep promises.

  /** Between `w` and `w2` the entry under `k` kept its value and no call touched it. */
  predicate Untouched(w: World, w2: World, k: string) {
    && w.log <= w2.log
    && Lookup(w2.kv, k) == Lookup(w.kv, k)
    && forall i :: |w.log| <= i < |w2.log| ==> !w2.log[i].Touches(k)
  }

  lemma UntouchedTrans(w1: World, w2: World, w3: World, k: string)
    requires Untouched(w1, w2, k) && Untouched(w2, w3, k)
    ensures Untouched(w1, w3, k)
  {
    forall i | |w1.log| <= i < |w3.log|
      ensures !w3.log[i].Touches(k)
    {
      if i < |w2.log| {
        assert w3.log[i] == w2.log[i];
      }
    }
  }

  lemma SweepKeyOther(f: Faults, now: int, w: World, key: string, k: string)
    requires key != k || !IsLockKey(k)
    ensures Untouched(w, SweepKey(f, now, w, key).1, k)
  {
  }

  lemma {:induction false} SweepKeysOther(f: Faults, now: int, w: World, keys: seq<string>, k: string)
    requires k !in keys || !IsLockKey(k)
    ensures Untouched(w, SweepKeys(f, now, w, keys).1, k)
    decreases |keys|
  {
    if keys != [] {
      var (e, w1) := SweepKey(f, now, w, keys[0]);
      SweepKeyOther(f, now, w, keys[0], k);
      if e.None? {
        assert k !in keys[1..] || !IsLockKey(k);
        SweepKeysOther(f, now, w1, keys[1..], k);
        UntouchedTrans(w, w1, SweepKeys(f, now, w1, keys[1..]).1, k);
      }
    }
  }

  /** Keys other than "Lock" and the per-user lock keys are never read, written or deleted. */
  lemma {:induction false} SweepSkipsOtherKeys(f: Faults, now: int, w: World, page: nat, k: string)
    requires !IsLockKey(k)
    ensures Untouched(w, SweepFrom(f, now, w, page).1, k)
    decreases |f.listing| - page
  {
    var (listed, w1) := ListStep(f, w, page, KeysPerPage);
    assert Untouched(w, w1, k);
    if listed.Ok? {
      var (e, w2) := SweepKeys(f, now, w1, listed.value);
      SweepKeysOther(f, now, w1, listed.value, k);
      UntouchedTrans(w, w1, w2, k);
      if e.None? && |listed.value| >= KeysPerPage {
        SweepSkipsOtherKeys(f, now, w2, page + 1, k);
        UntouchedTrans(w, w2, SweepFrom(f, now, w2, page + 1).1, k);
      }
    }
  }

  /** When the sweep leaves an entry as it is: it is not a lock, or its lock is
      younger than an hour, or reading it or replacing it by "releasing" fails,
      or another writer wins the compare-and-set. */
  predicate Spared(f: Faults, now: int, w: World, k: string) {
    || !IsLockKey(k)
    || !IsStale(now, Lookup(w.kv, k))
    || k in f.failGet
    || k in f.failCas
    || k in f.lostCas
  }

  lemma SweepKeySpares(f: Faults, now: int, w: World, key: string, k: string)
    requires Spared(f, now, w, k)
    ensures Lookup(SweepKey(f, now, w, key).1.kv, k) == Lookup(w.kv, k)
  {
    if key != k || !IsLockKey(k) {
      SweepKeyOther(f, now, w, key, k);
    }
  }

  lemma {:induction false} SweepKeysSpares(f: Faults, now: int, w: World, keys: seq<string>, k: string)
    requires Spared(f, now, w, k)
    ensures Lookup(SweepKeys(f, now, w, keys).1.kv, k) == Lookup(w.kv, k)
    decreases |keys|
  {
    if keys != [] {
      var (e, w1) := SweepKey(f, now, w, keys[0]);
      SweepKeySpares(f, now, w, keys[0], k);
      if e.None? {
        assert Spared(f, now, w1, k);
        SweepKeysSpares(f, now, w1, keys[1..], k);
      }
    }
  }

  /** A lock younger than one hour, and one whose release loses to another
      writer or fails before the write, keeps its value. */
  lemma {:induction false} SweepSpares(f: Faults, now: int, w: World, page: nat, k: string)
    requires Spared(f, now, w, k)
    ensures Lookup(SweepFrom(f, now, w, page).1.kv, k) == Lookup(w.kv, k)
    decreases |f.listing| - page
  {
    var (listed, w1) := ListStep(f, w, page, KeysPerPage);
    if listed.Ok? {
      var (e, w2) := SweepKeys(f, now, w1, listed.value);
      SweepKeysSpares(f, now, w1, listed.value, k);
      if e.None? && |listed.value| >= KeysPerPage {
        assert Spared(f, now, w2, k);
        SweepSpares(f, now, w2, page + 1, k);
      }
    }
  }

  /** An entry that is absent or holds a stale lock. */
  predicate Doomed(now: int, w: World, k: string) {
    k !in w.kv || IsStale(now, Lookup(w.kv, k))
  }

  lemma SweepKeyDooms(f: Faults, now: int, w: World, key: string, k: string)
    requires IsLockKey(k) && k !in f.lostCas
    requires Doomed(now, w, k)
    requires SweepKey(f, now, w, key).0.None?
    ensures Doomed(now, SweepKey(f, now, w, key).1, k)
    ensures key == k || k !in w.kv ==> k !in SweepKey(f, now, w, key).1.kv
  {
    if key != k {
      SweepKeyOther(f, now, w, key, k);
    }
  }

  lemma {:induction false} SweepKeysDooms(f: Faults, now: int, w: World, keys: seq<string>, k: string)
    requires IsLockKey(k) && k !in f.lostCas
    requires Doomed(now, w, k)
    requires SweepKeys(f, now, w, keys).0.None?
    ensures Doomed(now, SweepKeys(f, now, w, keys).1, k)
    ensures k in keys || k !in w.kv ==> k !in SweepKeys(f, now, w, keys).1.kv
    decreases |keys|
  {
    if keys != [] {
      var (e, w1) := SweepKey(f, now, w, keys[0]);
      SweepKeyDooms(f, now, w, keys[0], k);
      assert k in keys ==> keys[0] == k || k in keys[1..];
      SweepKeysDooms(f, now, w1, keys[1..], k);
    }
  }

  /** The keys on the pages a sweep from `page` lists when no listing fails:
      each page up to and including the first short one. */
  function Visited(f: Faults, page: nat): set<string>
    decreases |f.listing| - page
  {
    if page >= |f.listing| then {}
    else
      (set k | k in f.listing[page])
      + (if |f.listing[page]| < KeysPerPage then {} else Visited(f, page + 1))
  }

  /** A listed lock held for an hour or more (or an entry that no longer exists)
      is absent once a sweep finishes without an error, unless another writer
      wins its compare-and-set. */
  lemma {:induction false} SweepReleasesStale(f: Faults, now: int, w: World, page: nat, k: string)
    requires IsLockKey(k) && k !in f.lostCas
    requires Doomed(now, w, k)
    requires k in Visited(f, page)
    requires SweepFrom(f, now, w, page).0.None?
    ensures k !in SweepFrom(f, now, w, page).1.kv
    decreases |f.listing| - page
  {
    SweepKeepsDoomed(f, now, w, page, k);
    var (listed, w1) := ListStep(f, w, page, KeysPerPage);
    var (e, w2) := SweepKeys(f, now, w1, listed.value);
    SweepKeysDooms(f, now, w1, listed.value, k);
    if k in listed.value {
      assert k !in w2.kv;
      if |listed.value| >= KeysPerPage {
        SweepKeepsAbsent(f, now, w2, page + 1, k);
      }
    } else {
      SweepReleasesStale(f, now, w2, page + 1, k);
    }
  }

  lemma {:induction false} SweepKeepsDoomed(f: Faults, now: int, w: World, page: nat, k: string)
    requires IsLockKey(k) && k !in f.lostCas
    requires Doomed(now, w, k)
    requires SweepFrom(f, now, w, page).0.None?
    ensures Doomed(now, SweepFrom(f, now, w, page).1, k)
    ensures k !in w.kv ==> k !in SweepFrom(f, now, w, page).1.kv
    decreases |f.listing| - page
  {
    var (listed, w1) := ListStep(f, w, page, KeysPerPage);
    var (e, w2) := SweepKeys(f, now, w1, listed.value);
    SweepKeysDooms(f, now, w1, listed.value, k);
    if |listed.value| >= KeysPerPage {
      SweepKeepsDoomed(f, now, w2, page + 1, k);
    }
  }

  /** An absent entry stays absent through a sweep without errors. */
  lemma SweepKeepsAbsent(f: Faults, now: int, w: World, page: nat, k: string)
    requires k !in w.kv
    requires SweepFrom(f, now, w, page).0.None?
    ensures k !in SweepFrom(f, now, w, page).1.kv
  {
    if !IsLockKey(k) {
      SweepSkipsOtherKeys(f, now, w, page, k);
    } else if k in f.lostCas {
      assert Spared(f, now, w, k) || Doomed(now, w, k);
      if Spared(f, now, w, k) {
        SweepSpares(f, now, w, page, k);
      }
    } else {
      SweepKeepsDoomed(f, now, w, page, k);
    }
  }

  // ---------------------------------------------------------------------------
  // Errors abort the sweep, and pages are listed in order.

  /** No call logged after `before` in `after` fails. */
  predicate Clean(f: Faults, before: seq<Call>, after: seq<Call>) {
    before <= after && forall i :: |before| <= i < |after| ==> !Fails(f, after[i])
  }

  /** How a sweep step from `w` ended: without an error and without a failing call,
      or with the error of its last call, the first one that failed. */
  predicate Reported(f: Faults, w: World, res: (Option<AppError>, World)) {
    match res.0
    case None => Clean(f, w.log, res.1.log)
    case Some(e) =>
      var log := res.1.log;
      && |log| > |w.log|
      && Clean(f, w.log, log[..|log| - 1])
      && Fails(f, log[|log| - 1])
      && e == StoreError(log[|log| - 1])
  }

  lemma CleanTrans(f: Faults, a: seq<Call>, b: seq<Call>, c: seq<Call>)
    requires Clean(f, a, b) && Clean(f, b, c)
    ensures Clean(f, a, c)
  {
    forall i | |a| <= i < |c|
      ensures !Fails(f, c[i])
    {
      if i < |b| {
        assert c[i] == b[i];
      }
    }
  }

  /** A clean run followed by a reported step is reported as a whole. */
  lemma ReportedAfterClean(f: Faults, w: World, w1: World, res: (Option<AppError>, World))
    requires Clean(f, w.log, w1.log) && Reported(f, w1, res)
    ensures Reported(f, w, res)
  {
    var log := res.1.log;
    if res.0.None? {
      CleanTrans(f, w.log, w1.log, log);
    } else {
      assert w1.log <= log[..|log| - 1];
      CleanTrans(f, w.log, w1.log, log[..|log| - 1]);
    }
  }

  lemma SweepKeyReported(f: Faults, now: int, w: World, key: string)
    ensures Reported(f, w, SweepKey(f, now, w, key))
  {
    if IsLockKey(key) {
      var (got, w1) := GetStep(f, w, key);
      assert w1.log[..|w1.log| - 1] == w.log;
      if got.Ok? && IsStale(now, got.value) {
        var (swapped, w2) := CasStep(f, w1, key, got.value, Releasing);
        assert w2.log[..|w2.log| - 1] == w1.log;
        assert !Fails(f, w1.log[|w1.log| - 1]);
        CleanTrans(f, w.log, w1.log, w1.log);
        if swapped == Ok(true) {
          var (deleted, w3) := DeleteStep(f, w2, key);
          assert w3.log[..|w3.log| - 1] == w2.log;
          assert Clean(f, w.log, w2.log) by {
            assert w2.log == w.log + [Get(key), CompareAndSet(key, got.value, Releasing)];
          }
        }
      }
    }
  }

  lemma {:induction false} SweepKeysReported(f: Faults, now: int, w: World, keys: seq<string>)
    ensures Reported(f, w, SweepKeys(f, now, w, keys))
    decreases |keys|
  {
    if keys != [] {
      var (e, w1) := SweepKey(f, now, w, keys[0]);
      SweepKeyReported(f, now, w, keys[0]);
      if e.None? {
        SweepKeysReported(f, now, w1, keys[1..]);
        ReportedAfterClean(f, w, w1, SweepKeys(f, now, w1, keys[1..]));
      }
    }
  }

  /** Any failing store call ends the sweep with that call's error, and a sweep
      without an error made no failing call. */
  lemma {:induction false} SweepReportsFirstError(f: Faults, now: int, w: World, page: nat)
    ensures Reported(f, w, SweepFrom(f, now, w, page))
    decreases |f.listing| - page
  {
    var (listed, w1) := ListStep(f, w, page, KeysPerPage);
    if listed.Ok? {
      var (e, w2) := SweepKeys(f, now, w1, listed.value);
      SweepKeysReported(f, now, w1, listed.value);
      ReportedAfterClean(f, w, w1, (e, w2));
      if e.None? && |listed.value| >= KeysPerPage {
        SweepReportsFirstError(f, now, w2, page + 1);
        ReportedAfterClean(f, w, w2, SweepFrom(f, now, w2, page + 1));
      }
    }
  }

  /** The listing calls of a log, in order. */
  function Listings(log: seq<Call>): seq<Call> {
    if log == [] then []
    else (if log[0].List? then [log[0]] else []) + Listings(log[1..])
  }

  /** List(first, 100), List(first + 1, 100), ..., `n` calls in all. */
  function PageCalls(first: nat, n: nat): seq<Call>
    decreases n
  {
    if n == 0 then [] else [List(first, KeysPerPage)] + PageCalls(first + 1, n - 1)
  }

  lemma {:induction false} ListingsAppend(a: seq<Call>, b: seq<Call>)
    ensures Listings(a + b) == Listings(a) + Listings(b)
    decreases |a|
  {
    if a == [] {
      assert a + b == b;
    } else {
      var head := if a[0].List? then [a[0]] else [];
      assert (a + b)[0] == a[0];
      assert (a + b)[1..] == a[1..] + b;
      ListingsAppend(a[1..], b);
      calc {
        Listings(a + b);
        head + Listings(a[1..] + b);
        head + (Listings(a[1..]) + Listings(b));
        (head + Listings(a[1..])) + Listings(b);
      }
    }
  }

  /** Between `w` and `w2` calls were only added, and none of them is a listing. */
  predicate ListsNothing(w: World, w2: World) {
    w.log <= w2.log && forall i :: |w.log| <= i < |w2.log| ==> !w2.log[i].List?
  }

  lemma {:induction false} NoListings(log: seq<Call>)
    requires forall i :: 0 <= i < |log| ==> !log[i].List?
    ensures Listings(log) == []
    decreases |log|
  {
    if log != [] {
      NoListings(log[1..]);
    }
  }

  lemma SweepKeyListsNothing(f: Faults, now: int, w: World, key: string)
    ensures ListsNothing(w, SweepKey(f, now, w, key).1)
  {
  }

  lemma {:induction false} SweepKeysListNothing(f: Faults, now: int, w: World, keys: seq<string>)
    ensures ListsNothing(w, SweepKeys(f, now, w, keys).1)
    decreases |keys|
  {
    if keys != [] {
      var (e, w1) := SweepKey(f, now, w, keys[0]);
      SweepKeyListsNothing(f, now, w, keys[0]);
      if e.None? {
        var w2 := SweepKeys(f, now, w1, keys[1..]).1;
        SweepKeysListNothing(f, now, w1, keys[1..]);
        forall i | |w.log| <= i < |w2.log|
          ensures !w2.log[i].List?
        {
          if i < |w1.log| {
            assert w2.log[i] == w1.log[i];
          }
        }
      }
    }
  }

  /** The listings of a log that grew in two steps are those of each step, in order. */
  lemma ListingsOfSteps(a: seq<Call>, b: seq<Call>, c: seq<Call>)
    requires a <= b <= c
    ensures Listings(c[|a|..]) == Listings(b[|a|..]) + Listings(c[|b|..])
  {
    assert c[|a|..] == b[|a|..] + c[|b|..];
    ListingsAppend(b[|a|..], c[|b|..]);
  }

  /** One page of the sweep lists that page and nothing else. */
  lemma OnePageListing(f: Faults, now: int, w: World, page: nat)
    ensures var (listed, w1) := ListStep(f, w, page, KeysPerPage);
            listed.Ok? ==>
              var w2 := SweepKeys(f, now, w1, listed.value).1;
              w.log <= w2.log && Listings(w2.log[|w.log|..]) == [List(page, KeysPerPage)]
  {
    var (listed, w1) := ListStep(f, w, page, KeysPerPage);
    assert w1.log[|w.log|..] == [List(page, KeysPerPage)];
    assert Listings(w1.log[|w.log|..]) == [List(page, KeysPerPage)] by {
      assert [List(page, KeysPerPage)][1..] == [];
    }
    if listed.Ok? {
      var w2 := SweepKeys(f, now, w1, listed.value).1;
      SweepKeysListNothing(f, now, w1, listed.value);
      var tail := w2.log[|w1.log|..];
      forall i | 0 <= i < |tail|
        ensures !tail[i].List?
      {
        assert tail[i] == w2.log[|w1.log| + i];
      }
      NoListings(tail);
      ListingsOfSteps(w.log, w1.log, w2.log);
    }
  }

  /** The keys page `q` of the listing reports; a page past the end is empty. */
  function ListedKeys(f: Faults, q: nat): seq<string> {
    if q < |f.listing| then f.listing[q] else []
  }

  /** Pages `a` up to `b` (excluded) are listed without an error and hold 100 keys or more. */
  predicate FullListings(f: Faults, a: nat, b: nat) {
    forall q: nat :: a <= q < b ==> q !in f.failList && |ListedKeys(f, q)| >= KeysPerPage
  }

  /** The pages are listed as `page`, `page` + 1, `page` + 2, ..., 100 keys at a
      time, at least one of them; a sweep without an error lists every full page
      and stops after the first page holding fewer than 100 keys. */
  lemma SweepListsPagesInOrder(f: Faults, now: int, w: World, page: nat)
    ensures var r := SweepFrom(f, now, w, page);
            && w.log <= r.1.log
            && var listed := Listings(r.1.log[|w.log|..]);
               && |listed| >= 1
               && listed == PageCalls(page, |listed|)
               && (r.0.None? ==> StopsAtShortPage(f, page, |listed|))
  {
    SweepListsConsecutivePages(f, now, w, page);
    SweepStopsAtShortPage(f, now, w, page);
  }

  /** `n` pages from `page` were listed: all but the last full, the last fetched and short. */
  predicate StopsAtShortPage(f: Faults, page: nat, n: nat) {
    n >= 1 && FullListings(f, page, page + n - 1)
    && page + n - 1 !in f.failList && |ListedKeys(f, page + n - 1)| < KeysPerPage
  }

  lemma {:induction false} SweepListsConsecutivePages(f: Faults, now: int, w: World, page: nat)
    ensures var w2 := SweepFrom(f, now, w, page).1;
            && w.log <= w2.log
            && var listed := Listings(w2.log[|w.log|..]);
               |listed| >= 1 && listed == PageCalls(page, |listed|)
    decreases |f.listing| - page
  {
    var (listed, w1) := ListStep(f, w, page, KeysPerPage);
    if listed.Err? {
      assert w1.log[|w.log|..] == [List(page, KeysPerPage)];
      assert Listings(w1.log[|w.log|..]) == [List(page, KeysPerPage)] by {
        assert [List(page, KeysPerPage)][1..] == [];
      }
      assert PageCalls(page, 1) == [List(page, KeysPerPage)];
    } else {
      var (e, w2) := SweepKeys(f, now, w1, listed.value);
      OnePageListing(f, now, w, page);
      if e.Some? || |listed.value| < KeysPerPage {
        assert PageCalls(page, 1) == [List(page, KeysPerPage)];
      } else {
        var w3 := SweepFrom(f, now, w2, page + 1).1;
        SweepListsConsecutivePages(f, now, w2, page + 1);
        ListingsOfSteps(w.log, w2.log, w3.log);
        var rest := Listings(w3.log[|w2.log|..]);
        assert PageCalls(page, 1 + |rest|) == [List(page, KeysPerPage)] + PageCalls(page + 1, |rest|);
      }
    }
  }

  lemma {:induction false} SweepStopsAtShortPage(f: Faults, now: int, w: World, page: nat)
    ensures var r := SweepFrom(f, now, w, page);
            r.0.None? ==> w.log <= r.1.log && StopsAtShortPage(f, page, |Listings(r.1.log[|w.log|..])|)
    decreases |f.listing| - page
  {
    var (listed, w1) := ListStep(f, w, page, KeysPerPage);
    if listed.Ok? {
      assert listed.value == ListedKeys(f, page);
      var (e, w2) := SweepKeys(f, now, w1, listed.value);
      OnePageListing(f, now, w, page);
      if e.None? {
        if |listed.value| < KeysPerPage {
          assert FullListings(f, page, page);
        } else {
          var r3 := SweepFrom(f, now, w2, page + 1);
          SweepStopsAtShortPage(f, now, w2, page + 1);
          if r3.0.None? {
            ListingsOfSteps(w.log, w2.log, r3.1.log);
            var n := |Listings(r3.1.log[|w2.log|..])|;
            assert |Listings(r3.1.log[|w.log|..])| == 1 + n;
            assert FullListings(f, page, page + n) by {
              assert FullListings(f, page + 1, page + n);
            }
          }
        }
      }
    }
  }
}
