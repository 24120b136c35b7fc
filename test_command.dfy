/** server/test_command.go: the "/nps-test next-survey" command, which reports
    when the survey for the current server version starts. */
module TestCommand {
  import opened Text
  import opened PluginApi
  import opened Utils

  const Trigger: string := "/nps-test"
  const NextSurveyAction: string := "next-survey"

  /** SURVEY_KEY for a server version; this follows the "Survey-%s" format of
      server/plugin.go. */
  function SurveyKey(serverVersion: string): string {
    "Survey-" + serverVersion
  }

  /** parseCommand: the first field, the second, and the rest; missing parts are empty. */
  function ParseCommand(commandLine: string): (r: (string, string, seq<string>))
    ensures var split := Fields(commandLine);
            && r.0 == (if |split| > 0 then split[0] else "")
            && r.1 == (if |split| > 1 then split[1] else "")
            && split == (if |split| > 2 then [r.0, r.1] + r.2 else split[..|split|])
            && (|split| <= 2 ==> r.2 == [])
  {
    var split := Fields(commandLine);
    if |split| == 0 then ("", "", [])
    else if |split| == 1 then (split[0], "", [])
    else if |split| == 2 then (split[0], split[1], [])
    else
      assert split == [split[0], split[1]] + split[2..];
      (split[0], split[1], split[2..])
  }

  /** A typed command line is taken apart into its words, slash included. */
  lemma ParseTypedLine(ws: seq<string>)
    requires forall i :: 0 <= i < |ws| ==> IsWord(ws[i])
    ensures var r := ParseCommand(Unfields(ws));
            && r.0 == (if |ws| > 0 then ws[0] else "")
            && r.1 == (if |ws| > 1 then ws[1] else "")
            && r.2 == (if |ws| > 2 then ws[2..] else [])
  {
    FieldsOfUnfields(ws);
  }

  /** fmt.Sprint of two strings: no space is put between operands that are both strings. */
  function Sprint(a: string, b: string): string {
    a + b
  }

  /** What the command answers: nothing, a text, or the state of the scheduled survey. */
  datatype Reply =
    | NoResponse
    | Text(text: string)
    | NoSurveyScheduled
    | SurveyStarted(startAt: int)
    | SurveyScheduled(startAt: int)
    | SurveyDisabled(startAt: int)

  /** Decoding into a nil `*surveyState`. */
  function DecodeSurvey(v: Value): Option<Option<int>> {
    if v.JsonSurveyState? then Some(Some(v.startAt)) else None
  }

  /** executeNextSurveyCommand as a step: reads the survey state of the current
      server version; `now` is p.now(). */
  function NextSurveyCommandStep(f: Faults, w: World, serverVersion: string, enableSurvey: bool, now: int)
    : (res: (Result<Reply>, World))
    ensures res.1 == Logged(w, Get(SurveyKey(serverVersion)))
    ensures var key := SurveyKey(serverVersion);
            && (key in f.failGet ==> res.0 == Err(StoreError(Get(key))))
            && (key !in f.failGet && key in w.kv && !w.kv[key].JsonSurveyState? ==> res.0 == Err(DecodeError(key)))
            && (key !in f.failGet && key !in w.kv ==> res.0 == Ok(NoSurveyScheduled))
    ensures var key := SurveyKey(serverVersion);
            key !in f.failGet && key in w.kv && w.kv[key].JsonSurveyState? ==>
              var startAt := w.kv[key].startAt;
              && (enableSurvey && now > startAt ==> res.0 == Ok(SurveyStarted(startAt)))
              && (enableSurvey && now <= startAt ==> res.0 == Ok(SurveyScheduled(startAt)))
              && (!enableSurvey ==> res.0 == Ok(SurveyDisabled(startAt)))
  {
    var (next, w1) := KvGetStep(f, w, SurveyKey(serverVersion), DecodeSurvey, None);
    if next.Err? then (Err(next.error), w1)
    else if next.value.None? then (Ok(NoSurveyScheduled), w1)
    else
      var startAt := next.value.value;
      var started := now > startAt;
      if enableSurvey && started then (Ok(SurveyStarted(startAt)), w1)
      else if enableSurvey then (Ok(SurveyScheduled(startAt)), w1)
      else (Ok(SurveyDisabled(startAt)), w1)
  }

  /** ExecuteCommand as a step. */
  function ExecuteCommandStep(f: Faults, w: World, serverVersion: string, enableSurvey: bool, now: int,
                              commandLine: string): (res: (Result<Reply>, World))
    ensures ParseCommand(commandLine).0 != Trigger ==> res == (Ok(NoResponse), w)
    ensures var (command, action, _) := ParseCommand(commandLine);
            command == Trigger && action != NextSurveyAction ==>
              res == (Ok(Text("Invalid action specified" + action)), w)
    ensures var (command, action, _) := ParseCommand(commandLine);
            command == Trigger && action == NextSurveyAction ==>
              res == NextSurveyCommandStep(f, w, serverVersion, enableSurvey, now)
  {
    var (command, action, _) := ParseCommand(commandLine);
    if command != Trigger then (Ok(NoResponse), w)
    else if action == NextSurveyAction then NextSurveyCommandStep(f, w, serverVersion, enableSurvey, now)
    else (Ok(Text(Sprint("Invalid action specified", action))), w)
  }

  /** The trigger must be typed with its slash: "nps-test next-survey" is not answered. */
  lemma SlashRequired(f: Faults, w: World, serverVersion: string, enableSurvey: bool, now: int)
    ensures ExecuteCommandStep(f, w, serverVersion, enableSurvey, now, "nps-test next-survey") == (Ok(NoResponse), w)
    ensures ExecuteCommandStep(f, w, serverVersion, enableSurvey, now, "/nps-test next-survey")
         == NextSurveyCommandStep(f, w, serverVersion, enableSurvey, now)
  {
    UnslashedIgnored(f, w, serverVersion, enableSurvey, now);
    SlashedAnswered(f, w, serverVersion, enableSurvey, now);
  }

  lemma UnslashedIgnored(f: Faults, w: World, serverVersion: string, enableSurvey: bool, now: int)
    ensures ExecuteCommandStep(f, w, serverVersion, enableSurvey, now, "nps-test next-survey") == (Ok(NoResponse), w)
  {
    var ws := ["nps-test", "next-survey"];
    assert IsWord("nps-test") && IsWord("next-survey");
    ParseTypedLine(ws);
    var line := Unfields(ws);
    assert line == "nps-test next-survey";
    assert ParseCommand(line).0 == "nps-test";
    assert "nps-test" != Trigger;
  }

  lemma SlashedAnswered(f: Faults, w: World, serverVersion: string, enableSurvey: bool, now: int)
    ensures ExecuteCommandStep(f, w, serverVersion, enableSurvey, now, "/nps-test next-survey")
         == NextSurveyCommandStep(f, w, serverVersion, enableSurvey, now)
  {
    var ws := ["/nps-test", "next-survey"];
    assert IsWord("/nps-test") && IsWord("next-survey");
    ParseTypedLine(ws);
    var line := Unfields(ws);
    assert line == "/nps-test next-survey";
    var r := ParseCommand(line);
    assert r.0 == Trigger && r.1 == NextSurveyAction;
  }

  /** An unknown action is appended to the message with no separator. */
  lemma InvalidActionText(f: Faults, w: World, serverVersion: string, enableSurvey: bool, now: int)
    ensures ExecuteCommandStep(f, w, serverVersion, enableSurvey, now, "/nps-test foo")
         == (Ok(Text("Invalid action specifiedfoo")), w)
  {
    var ws := ["/nps-test", "foo"];
    assert IsWord("/nps-test") && IsWord("foo");
    ParseTypedLine(ws);
    var line := Unfields(ws);
    assert line == "/nps-test foo";
    var r := ParseCommand(line);
    assert r.0 == "/nps-test" && r.1 == "foo";
    assert "foo" != NextSurveyAction;
    assert ExecuteCommandStep(f, w, serverVersion, enableSurvey, now, line)
        == (Ok(Text(Sprint("Invalid action specified", "foo"))), w);
    assert Sprint("Invalid action specified", "foo") == "Invalid action specifiedfoo";
  }

  method ExecuteNextSurveyCommand(store: Store, serverVersion: string, enableSurvey: bool, now: int)
    returns (r: Result<Reply>)
    modifies store
    ensures (r, store.State()) == NextSurveyCommandStep(store.faults, old(store.State()), serverVersion, enableSurvey, now)
  {
    var next := KvGet(store, SurveyKey(serverVersion), DecodeSurvey, None);
    if next.Err? {
      return Err(next.error);
    }
    if next.value.None? {
      return Ok(NoSurveyScheduled);
    }
    var startAt := next.value.value;
    var started := now > startAt;
    if enableSurvey && started {
      r := Ok(SurveyStarted(startAt));
    } else if enableSurvey {
      r := Ok(SurveyScheduled(startAt));
    } else {
      r := Ok(SurveyDisabled(startAt));
    }
  }

  method ExecuteCommand(store: Store, serverVersion: string, enableSurvey: bool, now: int, commandLine: string)
    returns (r: Result<Reply>)
    modifies store
    ensures (r, store.State())
         == ExecuteCommandStep(store.faults, old(store.State()), serverVersion, enableSurvey, now, commandLine)
  {
    var (command, action, _) := ParseCommand(commandLine);
    if command != Trigger {
      return Ok(NoResponse);
    }
    if action == NextSurveyAction {
      r := ExecuteNextSurveyCommand(store, serverVersion, enableSurvey, now);
    } else {
      r := Ok(Text(Sprint("Invalid action specified", action)));
    }
  }
}
