/** server/test_commands.go: the "/nps-test" slash command for testing, which
    resets the plugin's stored state or records a server upgrade by hand. It is
    compiled in only when ENABLE_TEST_COMMANDS is true, and that constant is false. */
module TestCommands {
  import opened Times
  import opened Text
  import opened PluginApi
  import opened Utils
  import opened Survey
  import opened Activate

  const EnableTestCommands: bool := false
  const CommandTest: string := "nps-test"
  const CommandTestReset: string := "reset"
  const CommandTestVersion: string := "version"

  const WrongParams: string :=
    "Wrong number of params specified. Expected `" + CommandTest + " " + CommandTestReset
    + " <version> [<unix timestamp of upgrade>]`."

  const ResetFailed: string := "Failed to reset plugin state. See log for more details."
  const RestoreFailed: string :=
    "Failed to re-add bot user ID after resetting plugin state. This will likely render the plugin inoperable. See log for more details."
  const ResetDone: string := "NPS plugin reset. Please re-enable it from the system console to continue testing."
  const StoreFailed: string := "Failed to store server version. See log for more details."

  /** parseCommandArgs: the first field without its leading character (the
      slash), the second field, and the fields after those; missing parts are empty. */
  function ParseCommandArgs(commandLine: string): (r: (string, string, seq<string>))
    ensures var split := Fields(commandLine);
            && (split == [] ==> r.0 == "")
            && (split != [] ==> [split[0][0]] + r.0 == split[0])
            && (|split| <= 1 ==> r.1 == "")
            && (|split| > 1 ==> r.1 == split[1])
            && (|split| <= 2 ==> r.2 == [])
            && (|split| > 2 ==> split == [split[0], split[1]] + r.2)
  {
    var split := Fields(commandLine);
    var command := if |split| > 0 then split[0][1..] else "";
    var action := if |split| > 1 then split[1] else "";
    var args := if |split| > 2 then split[2..] else [];
    assert |split| > 2 ==> split == [split[0], split[1]] + split[2..];
    (command, action, args)
  }

  /** A typed command line is taken apart into the command without its slash,
      the action and the arguments. */
  lemma ParseTypedCommand(command: string, action: string, args: seq<string>)
    requires NoSpace(command) && IsWord(action)
    requires forall i :: 0 <= i < |args| ==> IsWord(args[i])
    ensures ParseCommandArgs(Unfields(["/" + command, action] + args)) == (command, action, args)
  {
    var ws := TypedWords(command, action, args);
    FieldsOfUnfields(ws);
    ParseOfFields(Unfields(ws), ws);
    assert ws[2..] == args;
  }

  /** The fields of a typed command line: every one is a word, the first is the slashed command. */
  lemma TypedWords(command: string, action: string, args: seq<string>) returns (ws: seq<string>)
    requires NoSpace(command) && IsWord(action)
    requires forall i :: 0 <= i < |args| ==> IsWord(args[i])
    ensures ws == ["/" + command, action] + args
    ensures forall i :: 0 <= i < |ws| ==> IsWord(ws[i])
    ensures ws[0][1..] == command && ws[1] == action
  {
    var first := "/" + command;
    SlashedWord(command);
    ws := [first, action] + args;
    forall i | 0 <= i < |ws|
      ensures IsWord(ws[i])
    {
      if i >= 2 {
        assert ws[i] == args[i - 2];
      }
    }
  }

  lemma SlashedWord(command: string)
    requires NoSpace(command)
    ensures IsWord("/" + command) && ("/" + command)[1..] == command
  {
    var first := "/" + command;
    forall i | 0 <= i < |first|
      ensures !IsSpace(first[i])
    {
      if i > 0 {
        assert first[i] == command[i - 1];
      }
    }
  }

  lemma ParseOfFields(commandLine: string, ws: seq<string>)
    requires Fields(commandLine) == ws && |ws| >= 2
    ensures ParseCommandArgs(commandLine) == (ws[0][1..], ws[1], if |ws| > 2 then ws[2..] else [])
  {
  }

  /** What the command answers: nothing (a nil response), an ephemeral text,
      the upgrade it stored, or a panic of semver.MustParse. */
  datatype Outcome = NoResponse | Reply(text: string) | Stored(version: Version, timestamp: int) | Panicked

  /** executeTestResetCommand: delete everything, then put the bot id back. */
  function ResetStep(f: Faults, w: World, botUserId: string): (res: (Outcome, World))
    ensures f.failDeleteAll ==> res.1.kv == w.kv && res.0 == Reply(ResetFailed)
    ensures !f.failDeleteAll && BotUserKey in f.failSet ==> res.1.kv == map[] && res.0 == Reply(RestoreFailed)
    ensures !f.failDeleteAll && BotUserKey !in f.failSet ==>
              res.1.kv == map[BotUserKey := Raw(botUserId)]
              && res.0 == Reply(ResetDone)
    ensures res.1.log == w.log + [DeleteAll] + (if f.failDeleteAll then [] else [Set(BotUserKey, Raw(botUserId))])
  {
    var (deleted, w1) := DeleteAllStep(f, w);
    if deleted.Err? then (Reply(ResetFailed), w1)
    else
      var (saved, w2) := SetStep(f, w1, BotUserKey, Raw(botUserId));
      if saved.Err? then
        (Reply(RestoreFailed), w2)
      else (Reply(ResetDone), w2)
  }

  /** The upgrade time the version command records: the second argument as Unix
      seconds (what ParseInt returns, its error ignored), or else `now`. */
  function UpgradeTime(args: seq<string>, now: int): int {
    if |args| == 2 then UnixSeconds(ParseInt64(args[1]).Returned()) else now
  }

  /** executeTestVersionCommand; `parseVersion` is semver.MustParse, `None` where it panics. */
  function VersionStep(f: Faults, w: World, args: seq<string>, parseVersion: string -> Option<Version>, now: int)
    : (res: (Outcome, World))
    // Without a version, or with too many arguments: the usage text, and nothing is written.
    ensures |args| == 0 || |args| > 2 ==> res == (Reply(WrongParams), w)
    ensures 1 <= |args| <= 2 && parseVersion(args[0]).None? ==> res == (Panicked, w)
    // Otherwise the upgrade is stored under SERVER_UPGRADE_KEY, where the survey check reads it.
    ensures 1 <= |args| <= 2 && parseVersion(args[0]).Some? ==>
              var u := LastUpgrade(parseVersion(args[0]).value, UpgradeTime(args, now));
              && res.1 == KvSetStep(f, w, LastUpgradeKey, Encode(u)).1
              && (res.0.Stored? <==> KvSetStep(f, w, LastUpgradeKey, Encode(u)).0.Ok?)
              && (res.0.Stored? ==> res.0 == Stored(u.version, u.timestamp))
              && (!res.0.Stored? ==> res.0 == Reply(StoreFailed))
  {
    if |args| == 0 || |args| > 2 then (Reply(WrongParams), w)
    else
      var version := parseVersion(args[0]);
      if version.None? then (Panicked, w)
      else
        var timestamp := UpgradeTime(args, now);
        var (saved, w1) := KvSetStep(f, w, LastUpgradeKey, Encode(LastUpgrade(version.value, timestamp)));
        if saved.Err? then (Reply(StoreFailed), w1)
        else (Stored(version.value, timestamp), w1)
  }

  /** A recorded upgrade is what the survey check then sees as the last one. */
  lemma VersionCommandFeedsSurvey(f: Faults, w: World, version: string, seconds: nat,
                                  parseVersion: string -> Option<Version>, now: int)
    requires parseVersion(version).Some? && seconds <= MaxInt64
    requires LastUpgradeKey !in f.failSet && LastUpgradeKey !in f.failGet
    requires JsonEncodable(UnixSeconds(seconds))
    ensures var res := VersionStep(f, w, [version, DecimalString(seconds)], parseVersion, now);
            && res.0 == Stored(parseVersion(version).value, UnixSeconds(seconds))
            && LastServerUpgradeStep(f, res.1).0 == Some(LastUpgrade(parseVersion(version).value, UnixSeconds(seconds)))
  {
    ParseFormatted(seconds);
    StoredUpgradeReadBack(f, w, LastUpgrade(parseVersion(version).value, UnixSeconds(seconds)));
  }

  /** executeTestCommand: dispatch on the action. */
  function TestCommandStep(f: Faults, w: World, botUserId: string, action: string, args: seq<string>,
                           parseVersion: string -> Option<Version>, now: int): (res: (Outcome, World))
    ensures action == "" ==> res == (Reply("No action specified."), w)
    ensures action !in {"", CommandTestReset, CommandTestVersion} ==> res == (Reply("Incorrect action specified."), w)
    ensures action == CommandTestReset ==> res == ResetStep(f, w, botUserId)
    ensures action == CommandTestVersion ==> res == VersionStep(f, w, args, parseVersion, now)
  {
    if action == "" then (Reply("No action specified."), w)
    else if action == CommandTestReset then ResetStep(f, w, botUserId)
    else if action == CommandTestVersion then VersionStep(f, w, args, parseVersion, now)
    else (Reply("Incorrect action specified."), w)
  }

  /** ExecuteCommand, with ENABLE_TEST_COMMANDS as `enabled`. */
  function ExecuteCommandStep(f: Faults, w: World, enabled: bool, botUserId: string, commandLine: string,
                              parseVersion: string -> Option<Version>, now: int): (res: (Outcome, World))
    ensures !enabled || ParseCommandArgs(commandLine).0 != CommandTest ==> res == (NoResponse, w)
    ensures var (command, action, args) := ParseCommandArgs(commandLine);
            enabled && command == CommandTest ==> res == TestCommandStep(f, w, botUserId, action, args, parseVersion, now)
  {
    var (command, action, args) := ParseCommandArgs(commandLine);
    if enabled && command == CommandTest then TestCommandStep(f, w, botUserId, action, args, parseVersion, now)
    else (NoResponse, w)
  }

  /** As compiled, the command answers nothing and touches nothing. */
  lemma CommandsDisabled(f: Faults, w: World, botUserId: string, commandLine: string,
                         parseVersion: string -> Option<Version>, now: int)
    ensures ExecuteCommandStep(f, w, EnableTestCommands, botUserId, commandLine, parseVersion, now) == (NoResponse, w)
  {
  }

  /** After a successful reset only the bot id is left in the store. */
  lemma ResetKeepsOnlyBotId(listing: seq<seq<string>>, w: World, botUserId: string)
    ensures ResetStep(Reliable(listing), w, botUserId).1.kv == map[BotUserKey := Raw(botUserId)]
  {
  }

  method ExecuteTestResetCommand(store: Store, botUserId: string) returns (r: Outcome)
    modifies store
    ensures (r, store.State()) == ResetStep(store.faults, old(store.State()), botUserId)
  {
    var deleted := store.DeleteAll();
    if deleted.Err? {
      return Reply(ResetFailed);
    }
    var saved := store.Set(BotUserKey, Raw(botUserId));
    if saved.Err? {
      return Reply(RestoreFailed);
    }
    return Reply(ResetDone);
  }

  method ExecuteTestVersionCommand(store: Store, args: seq<string>, parseVersion: string -> Option<Version>, now: int)
    returns (r: Outcome)
    modifies store
    ensures (r, store.State()) == VersionStep(store.faults, old(store.State()), args, parseVersion, now)
  {
    if |args| == 0 || |args| > 2 {
      return Reply(WrongParams);
    }
    var version := parseVersion(args[0]);
    if version.None? {
      return Panicked;
    }
    var timestamp: int;
    if |args| == 2 {
      var t := ParseInt64(args[1]).Returned();
      timestamp := UnixSeconds(t);
    } else {
      timestamp := now;
    }
    var saved := KvSet(store, LastUpgradeKey, Encode(LastUpgrade(version.value, timestamp)));
    if saved.Err? {
      return Reply(StoreFailed);
    }
    return Stored(version.value, timestamp);
  }

  method ExecuteTestCommand(store: Store, botUserId: string, action: string, args: seq<string>,
                            parseVersion: string -> Option<Version>, now: int) returns (r: Outcome)
    modifies store
    ensures (r, store.State()) == TestCommandStep(store.faults, old(store.State()), botUserId, action, args, parseVersion, now)
  {
    if action == "" {
      return Reply("No action specified.");
    }
    if action == CommandTestReset {
      r := ExecuteTestResetCommand(store, botUserId);
    } else if action == CommandTestVersion {
      r := ExecuteTestVersionCommand(store, args, parseVersion, now);
    } else {
      r := Reply("Incorrect action specified.");
    }
  }

  method ExecuteCommand(store: Store, enabled: bool, botUserId: string, commandLine: string,
                        parseVersion: string -> Option<Version>, now: int) returns (r: Outcome)
    modifies store
    ensures (r, store.State())
         == ExecuteCommandStep(store.faults, old(store.State()), enabled, botUserId, commandLine, parseVersion, now)
  {
    var (command, action, args) := ParseCommandArgs(commandLine);
    if enabled && command == CommandTest {
      r := ExecuteTestCommand(store, botUserId, action, args, parseVersion, now);
    } else {
      r := NoResponse;
    }
  }
}
