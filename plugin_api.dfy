/** The host side of a Mattermost server plugin, as far as this plugin uses it:
    the plugin's key-value store, with an explicit fault oracle standing for
    failures and for other plugin instances writing concurrently, and the
    user and version records the other modules exchange with the server. */
module PluginApi {
  import opened Times

  datatype Option<T> = None | Some(value: T)

  /** The `(value, *model.AppError)` pair a host call returns. */
  datatype Result<T> = Ok(value: T) | Err(error: AppError)

  /** A semantic version; pre-release and build metadata are not modelled. */
  datatype Version = Version(major: nat, minor: nat, patch: nat)

  /** A user as the server returns it. `createAt` and `deleteAt` are milliseconds
      since the Unix epoch, and `roles` is a space-separated list of role names. */
  datatype User = User(
    id: string,
    username: string,
    email: string,
    roles: string,
    createAt: int,
    deleteAt: int,
    isBot: bool)

  /** What a value stored in the key-value store holds: verbatim bytes, or the
      JSON encoding of one of the records the plugin stores. */
  datatype Value =
    | Raw(bytes: string)
    | JsonTime(time: int)
    | JsonBool(flag: bool)
    | JsonServerUpgrade(serverVersion: string, upgradeAt: int)
    | JsonVersionUpgrade(version: Version, timestamp: int)
    | JsonWelcomeMigration(createAt: int)
    | JsonSurveyState(startAt: int)

  /** Whether `json.Marshal` accepts the value: it refuses times outside years 0 to 9999. */
  predicate Encodable(v: Value) {
    match v
    case JsonTime(t) => JsonEncodable(t)
    case JsonServerUpgrade(_, t) => JsonEncodable(t)
    case JsonVersionUpgrade(_, t) => JsonEncodable(t)
    case JsonWelcomeMigration(t) => JsonEncodable(t)
    case JsonSurveyState(t) => JsonEncodable(t)
    case _ => true
  }

  /** A call into the key-value store, as recorded in the store's call log. */
  datatype Call =
    | Get(key: string)
    | Set(key: string, value: Value)
    | CompareAndSet(key: string, expected: Option<Value>, update: Value)
    | Delete(key: string)
    | DeleteAll
    | List(page: nat, perPage: nat)
  {
    /** Whether this call reads or writes the entry under `k`. */
    predicate Touches(k: string) {
      match this
      case Get(key) => key == k
      case Set(key, _) => key == k
      case CompareAndSet(key, _, _) => key == k
      case Delete(key) => key == k
      case DeleteAll => true
      case List(_, _) => false
    }

    predicate Writes() {
      Set? || CompareAndSet? || Delete? || DeleteAll?
    }
  }

  datatype AppError =
    | StoreError(call: Call)   // the store rejected this call
    | MarshalError             // json.Marshal refused the value (a time outside years 0 to 9999)
    | DecodeError(key: string) // the data stored under `key` does not decode into the target type
    | HostError(op: string)    // another host API reported a failure

  /** The fault oracle of a store: which calls fail, which compare-and-set calls
      lose to a concurrent writer, and which keys each page of a listing reports. */
  datatype Faults = Faults(
    listing: seq<seq<string>>,
    failList: set<nat>,
    failGet: set<string>,
    failSet: set<string>,
    failCas: set<string>,
    lostCas: set<string>,
    failDelete: set<string>,
    failDeleteAll: bool)

  /** A store in which nothing fails and no other writer interferes. */
  function Reliable(listing: seq<seq<string>>): Faults {
    Faults(listing, {}, {}, {}, {}, {}, {}, false)
  }

  predicate Fails(f: Faults, c: Call) {
    match c
    case Get(k) => k in f.failGet
    case Set(k, _) => k in f.failSet
    case CompareAndSet(k, _, _) => k in f.failCas
    case Delete(k) => k in f.failDelete
    case DeleteAll => f.failDeleteAll
    case List(p, _) => p in f.failList
  }

  /** The contents of a store together with the calls made on it so far. */
  datatype World = World(kv: map<string, Value>, log: seq<Call>)

  function Lookup(kv: map<string, Value>, key: string): Option<Value> {
    if key in kv then Some(kv[key]) else None
  }

  function Logged(w: World, c: Call): World {
    w.(log := w.log + [c])
  }

  // ---------------------------------------------------------------------------
  // One step of each store call: the result and the new world.

  function GetStep(f: Faults, w: World, key: string): (res: (Result<Option<Value>>, World))
    ensures res.1 == Logged(w, Get(key))
    ensures res.0.Ok? <==> key !in f.failGet
    ensures res.0.Ok? ==> res.0.value == Lookup(w.kv, key)
  {
    var c := Get(key);
    if Fails(f, c) then (Err(StoreError(c)), Logged(w, c))
    else (Ok(Lookup(w.kv, key)), Logged(w, c))
  }

  function SetStep(f: Faults, w: World, key: string, v: Value): (res: (Result<()>, World))
    ensures res.0.Ok? <==> key !in f.failSet
    ensures res.1.log == w.log + [Set(key, v)]
    ensures res.1.kv == if res.0.Ok? then w.kv[key := v] else w.kv
  {
    var c := Set(key, v);
    if Fails(f, c) then (Err(StoreError(c)), Logged(w, c))
    else (Ok(()), World(w.kv[key := v], w.log + [c]))
  }

  /** KVCompareAndSet: writes `update` when the current entry equals `expected`
      (`None` meaning absent) and reports whether it wrote. A key in `lostCas`
      always loses the race to another writer. */
  function CasStep(f: Faults, w: World, key: string, expected: Option<Value>, update: Value)
    : (res: (Result<bool>, World))
    ensures res.0.Ok? <==> key !in f.failCas
    ensures res.1.log == w.log + [CompareAndSet(key, expected, update)]
    ensures res.0.Ok? ==> (res.0.value <==> key !in f.lostCas && Lookup(w.kv, key) == expected)
    ensures res.1.kv == if res.0 == Ok(true) then w.kv[key := update] else w.kv
  {
    var c := CompareAndSet(key, expected, update);
    if Fails(f, c) then (Err(StoreError(c)), Logged(w, c))
    else if key in f.lostCas || Lookup(w.kv, key) != expected then (Ok(false), Logged(w, c))
    else (Ok(true), World(w.kv[key := update], w.log + [c]))
  }

  function DeleteStep(f: Faults, w: World, key: string): (res: (Result<()>, World))
    ensures res.0.Ok? <==> key !in f.failDelete
    ensures res.1.log == w.log + [Delete(key)]
    ensures res.1.kv == if res.0.Ok? then w.kv - {key} else w.kv
  {
    var c := Delete(key);
    if Fails(f, c) then (Err(StoreError(c)), Logged(w, c))
    else (Ok(()), World(w.kv - {key}, w.log + [c]))
  }

  function DeleteAllStep(f: Faults, w: World): (res: (Result<()>, World))
    ensures res.0.Ok? <==> !f.failDeleteAll
    ensures res.1.log == w.log + [DeleteAll]
    ensures res.1.kv == if res.0.Ok? then map[] else w.kv
  {
    var c := DeleteAll;
    if Fails(f, c) then (Err(StoreError(c)), Logged(w, c))
    else (Ok(()), World(map[], w.log + [c]))
  }

  /** KVList: page `page` of the listing; a page past the end is empty. */
  function ListStep(f: Faults, w: World, page: nat, perPage: nat): (res: (Result<seq<string>>, World))
    ensures res.1 == Logged(w, List(page, perPage))
    ensures res.0.Ok? <==> page !in f.failList
    ensures res.0.Ok? && page >= |f.listing| ==> res.0.value == []
  {
    var c := List(page, perPage);
    if Fails(f, c) then (Err(StoreError(c)), Logged(w, c))
    else (Ok(if page < |f.listing| then f.listing[page] else []), Logged(w, c))
  }

  /** The plugin's key-value store. */
  class Store {
    var kv: map<string, Value>
    var log: seq<Call>
    const faults: Faults

    function State(): World
      reads this
    {
      World(kv, log)
    }

    constructor (faults: Faults, kv: map<string, Value>)
      ensures this.faults == faults
      ensures State() == World(kv, [])
    {
      this.faults := faults;
      this.kv := kv;
      this.log := [];
    }

    method Get(key: string) returns (r: Result<Option<Value>>)
      modifies this
      ensures (r, State()) == GetStep(faults, old(State()), key)
    {
      var step := GetStep(faults, State(), key);
      r, kv, log := step.0, step.1.kv, step.1.log;
    }

    method Set(key: string, v: Value) returns (r: Result<()>)
      modifies this
      ensures (r, State()) == SetStep(faults, old(State()), key, v)
    {
      var step := SetStep(faults, State(), key, v);
      r, kv, log := step.0, step.1.kv, step.1.log;
    }

    method CompareAndSet(key: string, expected: Option<Value>, update: Value) returns (r: Result<bool>)
      modifies this
      ensures (r, State()) == CasStep(faults, old(State()), key, expected, update)
    {
      var step := CasStep(faults, State(), key, expected, update);
      r, kv, log := step.0, step.1.kv, step.1.log;
    }

    method Delete(key: string) returns (r: Result<()>)
      modifies this
      ensures (r, State()) == DeleteStep(faults, old(State()), key)
    {
      var step := DeleteStep(faults, State(), key);
      r, kv, log := step.0, step.1.kv, step.1.log;
    }

    method DeleteAll() returns (r: Result<()>)
      modifies this
      ensures (r, State()) == DeleteAllStep(faults, old(State()))
    {
      var step := DeleteAllStep(faults, State());
      r, kv, log := step.0, step.1.kv, step.1.log;
    }

    method List(page: nat, perPage: nat) returns (r: Result<seq<string>>)
      modifies this
      ensures (r, State()) == ListStep(faults, old(State()), page, perPage)
    {
      var step := ListStep(faults, State(), page, perPage);
      r, kv, log := step.0, step.1.kv, step.1.log;
    }
  }

  // ---------------------------------------------------------------------------
  // Channels and posts

  /** A post as the server stores it. */
  datatype PostRecord = PostRecord(userId: string, channelId: string, message: string, postType: string)

  /** GetDirectChannel(userId, bot): the id of the user's direct channel with the
      bot; a user without one makes the lookup fail. */
  function DirectChannelOf(directChannels: map<string, string>, userId: string): (r: Result<string>)
    ensures r.Ok? <==> userId in directChannels
    ensures r.Ok? ==> r.value == directChannels[userId]
  {
    if userId in directChannels then Ok(directChannels[userId]) else Err(HostError("GetDirectChannel"))
  }

  /** CreatePost: fails in a rejecting channel, otherwise appends the post. */
  function CreatePostStep(rejecting: set<string>, created: seq<PostRecord>, p: PostRecord)
    : (res: (Result<PostRecord>, seq<PostRecord>))
    ensures res.0.Ok? <==> p.channelId !in rejecting
    ensures res.0.Ok? ==> res.0.value == p && res.1 == created + [p]
    ensures res.0.Err? ==> res.1 == created
  {
    if p.channelId in rejecting then (Err(HostError("CreatePost")), created)
    else (Ok(p), created + [p])
  }

  /** The channel and post part of the server: each user's direct channel with
      the bot, the channels where creating a post fails, and the posts created. */
  class Chat {
    const directChannels: map<string, string>
    const rejecting: set<string>
    var created: seq<PostRecord>

    constructor (directChannels: map<string, string>, rejecting: set<string>)
      ensures this.directChannels == directChannels && this.rejecting == rejecting
      ensures created == []
    {
      this.directChannels := directChannels;
      this.rejecting := rejecting;
      this.created := [];
    }

    method GetDirectChannel(userId: string) returns (r: Result<string>)
      ensures r == DirectChannelOf(directChannels, userId)
    {
      r := DirectChannelOf(directChannels, userId);
    }

    method CreatePost(p: PostRecord) returns (r: Result<PostRecord>)
      modifies this
      ensures (r, created) == CreatePostStep(rejecting, old(created), p)
    {
      var step := CreatePostStep(rejecting, created, p);
      r, created := step.0, step.1;
    }
  }
}
