/** server/activate.go: plugin activation. Diagnostics must be enabled, the
    server version must parse, and the bot account must exist (it is created and
    its id stored on first activation) before the next survey is checked. */
module Activate {
  import opened Times
  import opened PluginApi
  import opened Survey

  /** BOT_USER_KEY; its value is not part of this model. */
  const BotUserKey: string := "BotUserKey"

  /** canSendDiagnostics: LogSettings.EnableDiagnostics is set and true. */
  predicate CanSendDiagnostics(enableDiagnostics: Option<bool>) {
    enableDiagnostics == Some(true)
  }

  lemma CanSendDiagnosticsCases()
    ensures !CanSendDiagnostics(None)
    ensures !CanSendDiagnostics(Some(false))
    ensures CanSendDiagnostics(Some(true))
  {
  }

  /** The bot id stored under BOT_USER_KEY: the raw bytes; a JSON record there
      is read as the empty id. */
  function StoredBotId(v: Value): string {
    if v.Raw? then v.bytes else ""
  }

  /** The answer of the host's CreateBot: the user id of the new bot, `None` when
      it fails. SetProfileImage's failure is only logged, so its answer is not
      part of the model. */
  datatype BotHost = BotHost(createdId: Option<string>)

  /** What ensureBotExists did: its error, the new botUserId, the new world, and
      whether a bot was created. */
  datatype BotSetup = BotSetup(err: Option<AppError>, botUserId: string, world: World, created: bool)

  /** ensureBotExists as a step: get the id from the store, or create the bot and store its id. */
  function EnsureBotStep(f: Faults, w: World, bots: BotHost, botUserId: string): (res: BotSetup)
    // A failed read: the error, nothing created or written.
    ensures BotUserKey in f.failGet ==>
              res == BotSetup(Some(StoreError(Get(BotUserKey))), botUserId, Logged(w, Get(BotUserKey)), false)
    // A stored id is used as it is, and no bot is created.
    ensures BotUserKey !in f.failGet && BotUserKey in w.kv ==>
              res == BotSetup(None, StoredBotId(w.kv[BotUserKey]), Logged(w, Get(BotUserKey)), false)
    // No id stored and CreateBot fails: an error, nothing written.
    ensures BotUserKey !in f.failGet && BotUserKey !in w.kv && bots.createdId.None? ==>
              res.err.Some? && !res.created && res.botUserId == botUserId && res.world == Logged(w, Get(BotUserKey))
    // No id stored: the new bot's id is stored, and becomes botUserId only when that write succeeds.
    ensures BotUserKey !in f.failGet && BotUserKey !in w.kv && bots.createdId.Some? ==>
              var id := bots.createdId.value;
              && res.created
              && res.world == SetStep(f, Logged(w, Get(BotUserKey)), BotUserKey, Raw(id)).1
              && (res.err.None? <==> BotUserKey !in f.failSet)
              && res.botUserId == (if res.err.None? then id else botUserId)
  {
    var (got, w1) := GetStep(f, w, BotUserKey);
    if got.Err? then BotSetup(Some(got.error), botUserId, w1, false)
    else if got.value.Some? then BotSetup(None, StoredBotId(got.value.value), w1, false)
    else if bots.createdId.None? then BotSetup(Some(HostError("CreateBot")), botUserId, w1, false)
    else
      var id := bots.createdId.value;
      var (saved, w2) := SetStep(f, w1, BotUserKey, Raw(id));
      if saved.Err? then BotSetup(Some(saved.error), botUserId, w2, true)
      else BotSetup(None, id, w2, true)
  }

  /** The bot is created once: after a successful first activation, the next
      one reads back the same id and creates nothing. */
  lemma BotCreatedOnce(listing: seq<seq<string>>, w: World, bots: BotHost, botUserId: string, later: BotHost)
    requires BotUserKey !in w.kv && bots.createdId.Some?
    ensures var f := Reliable(listing);
            var first := EnsureBotStep(f, w, bots, botUserId);
            var second := EnsureBotStep(f, first.world, later, first.botUserId);
            && first.err.None? && first.created && first.botUserId == bots.createdId.value
            && second.err.None? && !second.created && second.botUserId == first.botUserId
            && second.world.kv == first.world.kv
  {
  }

  /** The plugin fields activation sets. */
  class Plugin {
    var serverVersion: Version
    var botUserId: string

    constructor ()
      ensures serverVersion == Version(0, 0, 0) && botUserId == ""
    {
      serverVersion := Version(0, 0, 0);
      botUserId := "";
    }

    method EnsureBotExists(store: Store, bots: BotHost) returns (err: Option<AppError>)
      modifies this, store
      ensures var setup := EnsureBotStep(store.faults, old(store.State()), bots, old(botUserId));
              (err, botUserId, store.State()) == (setup.err, setup.botUserId, setup.world)
      ensures serverVersion == old(serverVersion)
    {
      var got := store.Get(BotUserKey);
      if got.Err? {
        return Some(got.error);
      }
      if got.value.None? {
        if bots.createdId.None? {
          return Some(HostError("CreateBot"));
        }
        var id := bots.createdId.value;
        // SetProfileImage's failure is only logged.
        var saved := store.Set(BotUserKey, Raw(id));
        if saved.Err? {
          return Some(saved.error);
        }
        botUserId := id;
      } else {
        botUserId := StoredBotId(got.value.value);
      }
      return None;
    }

    /** OnActivate. `parsedVersion` is semver.Parse of the server's version
        (`None` when it does not parse); the Segment client set up in between
        is not part of this model, and the survey check's result is ignored. */
    method OnActivate(store: Store, bots: BotHost, enableDiagnostics: Option<bool>, parsedVersion: Option<Version>,
                      d: Directory, templateFails: bool, mailer: Mailer, now: int)
      returns (err: Option<AppError>)
      modifies this, store, mailer
      // Diagnostics disabled or a version that does not parse: an error, and nothing changes.
      ensures !CanSendDiagnostics(enableDiagnostics) || parsedVersion.None? ==>
                && err.Some?
                && store.State() == old(store.State())
                && mailer.attempted == old(mailer.attempted) && mailer.delivered == old(mailer.delivered)
                && botUserId == old(botUserId) && serverVersion == old(serverVersion)
      // Otherwise the version is kept, then the bot is set up, and only then is the survey checked.
      ensures CanSendDiagnostics(enableDiagnostics) && parsedVersion.Some? ==>
                var setup := EnsureBotStep(store.faults, old(store.State()), bots, old(botUserId));
                var (check, w) := NextSurveyStep(store.faults, setup.world, d, templateFails, parsedVersion.value, now);
                && serverVersion == parsedVersion.value
                && botUserId == setup.botUserId
                && err == setup.err
                && (setup.err.Some? ==>
                      store.State() == setup.world
                      && mailer.attempted == old(mailer.attempted) && mailer.delivered == old(mailer.delivered))
                && (setup.err.None? ==>
                      store.State() == w
                      && mailer.attempted == old(mailer.attempted) + check.mails
                      && mailer.delivered == old(mailer.delivered) + Deliverable(check.mails, mailer.bouncing))
    {
      if !CanSendDiagnostics(enableDiagnostics) {
        return Some(HostError("Not activating NPS plugin because diagnostics are disabled"));
      }
      if parsedVersion.None? {
        return Some(HostError("failed to parse server version"));
      }
      serverVersion := parsedVersion.value;
      err := EnsureBotExists(store, bots);
      if err.Some? {
        return err;
      }
      var _ := CheckForNextSurvey(store, d, templateFails, mailer, serverVersion, now);
      return None;
    }
  }
}
