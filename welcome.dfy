/** server/welcome.go: a one-time feedback request sent by direct message to
    users some time after they join, for users who joined after the feature was
    first activated on the server. */
module Welcome {
  import opened Times
  import opened PluginApi
  import opened Utils

  /** WelcomeFeedbackMigrationKey */
  const MigrationKey: string := "WelcomeFeedbackMigration"

  /** UserWelcomeFeedbackKey, "UserWelcomeFeedback-%s". */
  function SentKey(userId: string): string {
    "UserWelcomeFeedback-" + userId
  }

  const WelcomePostType: string := "custom_nps_feedback"

  /** Decoding into a welcomeFeedbackMigration: its CreateAt. */
  function DecodeMigration(v: Value): Option<int> {
    if v.JsonWelcomeMigration? then Some(v.createAt) else None
  }

  /** Decoding into a bool. */
  function DecodeFlag(v: Value): Option<bool> {
    if v.JsonBool? then Some(v.flag) else None
  }

  // ---------------------------------------------------------------------------
  // setWelcomeFeedbackMigration

  /** setWelcomeFeedbackMigration as a step: the new `welcomeFeedbackAfter`
      (`after` when the step gives up) and the new world. `wait` is
      TimeUntilWelcomeFeedback. */
  function MigrationStep(f: Faults, w: World, now: int, wait: int, after: int): (res: (int, World))
    // A failed read, or data that is not a migration record: nothing changes.
    ensures MigrationKey in f.failGet || (MigrationKey in w.kv && !w.kv[MigrationKey].JsonWelcomeMigration?) ==>
              res == (after, Logged(w, Get(MigrationKey)))
    // A stored date: nothing is written and the gate opens `wait` before it.
    ensures MigrationKey !in f.failGet && MigrationKey in w.kv && w.kv[MigrationKey].JsonWelcomeMigration?
            && w.kv[MigrationKey].createAt != ZeroTime ==>
              res == (w.kv[MigrationKey].createAt - wait, Logged(w, Get(MigrationKey)))
    // No date yet (or the zero date): store `now`; the gate moves only when the write succeeds.
    ensures MigrationKey !in f.failGet
            && (MigrationKey !in w.kv || w.kv[MigrationKey] == JsonWelcomeMigration(ZeroTime)) ==>
              var (saved, w2) := KvSetStep(f, Logged(w, Get(MigrationKey)), MigrationKey, JsonWelcomeMigration(now));
              res == (if saved.Ok? then now - wait else after, w2)
  {
    var (stored, w1) := KvGetStep(f, w, MigrationKey, DecodeMigration, ZeroTime);
    if stored.Err? then (after, w1)
    else if stored.value == ZeroTime then
      var (saved, w2) := KvSetStep(f, w1, MigrationKey, JsonWelcomeMigration(now));
      if saved.Err? then (after, w2) else (now - wait, w2)
    else (stored.value - wait, w1)
  }

  /** The migration date is set once: a later activation keeps it and writes nothing. */
  lemma MigrationSetOnce(listing: seq<seq<string>>, w: World, now: int, later: int, wait: int, after: int)
    requires MigrationKey !in w.kv
    requires JsonEncodable(now) && now != ZeroTime
    ensures var f := Reliable(listing);
            var first := MigrationStep(f, w, now, wait, after);
            var second := MigrationStep(f, first.1, later, wait, after);
            && first.0 == now - wait
            && second.0 == now - wait
            && second.1.kv == first.1.kv
            && first.1.kv == w.kv[MigrationKey := JsonWelcomeMigration(now)]
  {
  }

  // ---------------------------------------------------------------------------
  // checkForWelcomeFeedback

  /** The guards before the store is read: the survey is enabled, the migration
      date is known, the user joined after it, and the wait has passed. */
  predicate Eligible(enableSurvey: bool, after: int, wait: int, user: User, now: int) {
    var createdAt := UnixMilli(user.createAt);
    && enableSurvey
    && after != ZeroTime
    && !(after > createdAt)
    && !(now < createdAt + wait)
  }

  /** The result of one check: whether the request was due, its error if any,
      the new world and the posts created. */
  datatype Check = Check(sent: bool, err: Option<AppError>, world: World, posts: seq<PostRecord>)

  /** sendWelcomeFeedbackDM: post the request, then remember it was sent. */
  function SendStep(f: Faults, w: World, chat: (map<string, string>, set<string>), posts: seq<PostRecord>,
                    botUserId: string, message: string, user: User): (Option<AppError>, World, seq<PostRecord>)
  {
    var (dm, posts1) := BotDMStep(chat, posts, botUserId, user.id, message, WelcomePostType);
    if dm.Err? then (Some(dm.error), w, posts1)
    else
      var (saved, w1) := KvSetStep(f, w, SentKey(user.id), JsonBool(true));
      (if saved.Err? then Some(saved.error) else None, w1, posts1)
  }

  /** checkForWelcomeFeedback as a step; `message` is welcomeFeedbackRequestBody
      rendered for the user. */
  function CheckStep(f: Faults, w: World, chat: (map<string, string>, set<string>), posts: seq<PostRecord>,
                     botUserId: string, enableSurvey: bool, after: int, wait: int,
                     user: User, now: int, message: string): (res: Check)
    // Not eligible: nothing is read, sent or written.
    ensures !Eligible(enableSurvey, after, wait, user, now) ==> res == Check(false, None, w, posts)
    // Eligible, but the flag cannot be read or says it was sent: nothing is sent.
    ensures var key := SentKey(user.id);
            Eligible(enableSurvey, after, wait, user, now)
            && (key in f.failGet || (key in w.kv && w.kv[key] != JsonBool(false))) ==>
              !res.sent && res.posts == posts && res.world == Logged(w, Get(key))
              && (res.err.None? <==> key !in f.failGet && w.kv[key] == JsonBool(true))
    // Due: exactly one request is posted if the post succeeds, and the flag is
    // stored only after it; a failed post is reported with `sent` still true.
    ensures var key := SentKey(user.id);
            var dm := BotDMStep(chat, posts, botUserId, user.id, message, WelcomePostType);
            Eligible(enableSurvey, after, wait, user, now)
            && key !in f.failGet && (key !in w.kv || w.kv[key] == JsonBool(false)) ==>
              && res.sent
              && res.posts == dm.1
              && (dm.0.Err? ==> res.err == Some(dm.0.error) && res.world == Logged(w, Get(key)))
              && (dm.0.Ok? ==> res.world == KvSetStep(f, Logged(w, Get(key)), key, JsonBool(true)).1)
              && (dm.0.Ok? ==> (res.err.None? <==> key !in f.failSet))
  {
    if !Eligible(enableSurvey, after, wait, user, now) then Check(false, None, w, posts)
    else
      var (alreadySent, w1) := KvGetStep(f, w, SentKey(user.id), DecodeFlag, false);
      if alreadySent.Err? then Check(false, Some(alreadySent.error), w1, posts)
      else if alreadySent.value then Check(false, None, w1, posts)
      else
        var (err, w2, posts2) := SendStep(f, w1, chat, posts, botUserId, message, user);
        Check(true, err, w2, posts2)
  }

  /** Once the request went out and was recorded, the same check again sends nothing. */
  lemma SentOnce(listing: seq<seq<string>>, w: World, chat: (map<string, string>, set<string>),
                 posts: seq<PostRecord>, botUserId: string, after: int, wait: int,
                 user: User, now: int, message: string)
    ensures var f := Reliable(listing);
            var first := CheckStep(f, w, chat, posts, botUserId, true, after, wait, user, now, message);
            var second := CheckStep(f, first.world, chat, first.posts, botUserId, true, after, wait, user, now, message);
            first.sent && first.err.None? ==>
              !second.sent && second.err.None? && second.posts == first.posts && second.world.kv == first.world.kv
  {
  }

  /** The plugin's welcome-feedback state. */
  class WelcomeFeedback {
    /** Users created before this time never get the request; the zero time means unknown. */
    var welcomeFeedbackAfter: int
    /** TimeUntilWelcomeFeedback: how long after joining the request is sent. */
    const timeUntilWelcomeFeedback: int
    const botUserId: string
    /** welcomeFeedbackRequestBody rendered with a user name. */
    const render: string -> string

    constructor (timeUntilWelcomeFeedback: int, botUserId: string, render: string -> string)
      ensures welcomeFeedbackAfter == ZeroTime
      ensures this.timeUntilWelcomeFeedback == timeUntilWelcomeFeedback
      ensures this.botUserId == botUserId && this.render == render
    {
      welcomeFeedbackAfter := ZeroTime;
      this.timeUntilWelcomeFeedback := timeUntilWelcomeFeedback;
      this.botUserId := botUserId;
      this.render := render;
    }

    method SetWelcomeFeedbackMigration(store: Store, now: int)
      modifies this, store
      ensures (welcomeFeedbackAfter, store.State())
           == MigrationStep(store.faults, old(store.State()), now, timeUntilWelcomeFeedback, old(welcomeFeedbackAfter))
    {
      var stored := KvGet(store, MigrationKey, DecodeMigration, ZeroTime);
      if stored.Err? {
        return;
      }
      var createAt := stored.value;
      if createAt == ZeroTime {
        createAt := now;
        var saved := KvSet(store, MigrationKey, JsonWelcomeMigration(createAt));
        if saved.Err? {
          return;
        }
      }
      welcomeFeedbackAfter := createAt - timeUntilWelcomeFeedback;
    }

    method CheckForWelcomeFeedback(store: Store, chat: Chat, enableSurvey: bool, user: User, now: int)
      returns (sent: bool, err: Option<AppError>)
      modifies store, chat
      ensures var res := CheckStep(store.faults, old(store.State()), (chat.directChannels, chat.rejecting),
                                   old(chat.created), botUserId, enableSurvey, welcomeFeedbackAfter,
                                   timeUntilWelcomeFeedback, user, now, render(user.username));
              (sent, err, store.State(), chat.created) == (res.sent, res.err, res.world, res.posts)
    {
      if !enableSurvey {
        return false, None;
      }
      if welcomeFeedbackAfter == ZeroTime {
        return false, None;
      }
      var createdAt := UnixMilli(user.createAt);
      if welcomeFeedbackAfter > createdAt {
        return false, None;
      }
      if now < createdAt + timeUntilWelcomeFeedback {
        return false, None;
      }
      var alreadySent := KvGet(store, SentKey(user.id), DecodeFlag, false);
      if alreadySent.Err? {
        return false, Some(alreadySent.error);
      }
      if alreadySent.value {
        return false, None;
      }
      err := SendWelcomeFeedbackDM(store, chat, user);
      sent := true;
    }

    method SendWelcomeFeedbackDM(store: Store, chat: Chat, user: User) returns (err: Option<AppError>)
      modifies store, chat
      ensures (err, store.State(), chat.created)
           == SendStep(store.faults, old(store.State()), (chat.directChannels, chat.rejecting), old(chat.created),
                       botUserId, render(user.username), user)
    {
      var post := new Post(render(user.username), WelcomePostType);
      var dm := CreateBotDMPost(chat, botUserId, user.id, post);
      if dm.Err? {
        return Some(dm.error);
      }
      var saved := KvSet(store, SentKey(user.id), JsonBool(true));
      if saved.Err? {
        return Some(saved.error);
      }
      return None;
    }
  }
}
