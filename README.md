# Mattermost NPS plugin: a verified model

This project models the decision logic of the Mattermost NPS (Net Promoter Score) feedback plugin,
in Dafny, and proves what that logic promises. The plugin has a Go server part and a JavaScript
webapp part.

On the server, the plugin does the following:

- It notices server upgrades and schedules a survey 21 days after a new major or minor release.
- It mails the system admins about a scheduled survey, at most once a week.
- It sends new users a welcome feedback request, once each.
- It takes part in a store-based lock protocol, and sweeps away locks that are an hour old.
- It answers survey scores over HTTP and forwards them, with feedback messages, to telemetry.
- It sets up its bot on activation, and answers two test slash commands.

In the webapp, it decides whether the window has room for its survey post, keeps a small redux
state, registers its post component while the post fits, and builds channel URLs.

Each source file is one Dafny module. Shared modules carry the rest:

- `Times`: Go times as integer nanoseconds since the Unix epoch.
- `Text`: `strings.Fields`, `unicode.IsSpace`, and base-10 `strconv.ParseInt` with its range errors.
- `PluginApi`: the host's key-value store and the post API the code calls.
- `Analytics`: the role search and the team-membership scan shared by telemetry.go and segment.go.

Each store is a class whose fields are the entries and a log of the calls made to it. A `Faults`
value says which calls fail. Every operation that changes the store is written twice:

- a pure step function on the store's state, about which the lemmas are proved;
- a method on the store, proved to compute exactly that step.

## Model

| member | source | states |
|---|---|---|
| Lock.UserLockKeyPattern | server/lock.go:24 | `^UserLock-.{26}$` accepts a per-user lock key exactly when the id has 26 characters and no newline |
| Lock.GarbageIsStale | server/lock.go:61-65 | a lock whose data is not a time reads as the zero time and is stale |
| Lock.StaleBoundary | server/lock.go:21 | a lock becomes stale exactly one hour after it was taken, boundary included |
| Lock.TryLockStep | server/lock.go:26-33 | an unencodable time is an error with no call; otherwise a single compare-and-set from absent, which stores the time exactly when it succeeds and changes nothing otherwise |
| Lock.UnlockStep | server/lock.go:35-37 | unlock deletes exactly the key; every other key keeps its value |
| Lock.TryLock | server/lock.go:26-33 | the method performs exactly TryLockStep on the store |
| Lock.Unlock | server/lock.go:35-37 | the method performs exactly UnlockStep on the store |
| Lock.LockExclusive | server/lock.go:26-37 | a held lock refuses a second taker; after unlock the next taker gets it |
| Lock.SweepOneKey | server/lock.go:51-79 | one pass of the inner loop for a key: it skips keys that are not locks, reads, compares with the hour, compare-and-sets to "releasing", and deletes only if that succeeded |
| Lock.ClearStaleLocks | server/lock.go:41-90 | the method performs exactly the sweep of pages 0, 1, 2, … on the store |
| Lock.SweepSkipsOtherKeys | server/lock.go:52-54 | keys other than "Lock" and the per-user lock keys are never read, written or deleted |
| Lock.SweepSpares | server/lock.go:65-72 | a lock younger than an hour, or one whose release compare-and-set is lost, keeps its value |
| Lock.SweepReleasesStale | server/lock.go:65-79 | a listed lock an hour old or more is absent after a sweep that reports no error |
| Lock.SweepKeepsDoomed | server/lock.go:65-79 | a stale lock stays stale through the sweep, and an absent entry stays absent |
| Lock.SweepKeepsAbsent | server/lock.go:41-90 | an absent entry stays absent through a sweep without errors |
| Lock.SweepReportsFirstError | server/lock.go:46-48 | any failing store call ends the sweep with that call's error; a sweep without an error made no failing call |
| Lock.SweepListsPagesInOrder | server/lock.go:42-86 | at least one page is listed, and the pages are listed as `page`, `page` + 1, … with 100 keys per page; a sweep that ends without an error listed every page before the last without a failure and with 100 keys or more, and its last page without a failure and with fewer than 100 keys |
| Upgrade.CheckForServerUpgradeStep | server/upgrade.go:20-43 | a failed read is an error with no write; a stored entry gives false with no write; otherwise the version and now are stored, giving true, or the write error |
| Upgrade.CheckForServerUpgrade | server/upgrade.go:20-43 | the method performs exactly CheckForServerUpgradeStep on the store |
| Upgrade.CheckTouchesOnlyItsKey | server/upgrade.go:22 | no key other than `ServerUpgrade-<version>` is read or written |
| Upgrade.UpgradeSeenOnce | server/upgrade.go:27-30 | after a successful first check, a second one reports no upgrade, and the first time stays stored |
| Survey.NewReleaseSchedules | server/survey.go:92-94 | with no last upgrade, or a higher major or a higher minor, a survey is scheduled |
| Survey.PatchReleaseDoesNotSchedule | server/survey.go:92-94 | the same major and minor never schedule a survey, whatever the patch numbers |
| Survey.DowngradeCases | server/survey.go:92-94 | major and minor are compared separately: 5.1 back to 4.9 schedules, 5.9 back to 5.8 does not |
| Survey.EmailThrottleBoundary | server/survey.go:96-100 | an email is due exactly 7 days after the last upgrade; 1 µs less is too early |
| Survey.EmailThrottleMonotone | server/survey.go:96-100 | once an email is due, it stays due at every later time |
| Survey.LastServerUpgradeStep | server/survey.go:67-81 | a failed read, an absent entry and data that is not an upgrade record all read as no upgrade; nothing is written |
| Survey.StoredUpgradeReadBack | server/survey.go:67-90 | what storeServerUpgrade stores, getLastServerUpgrade reads back |
| Survey.GetAdminUsers | server/survey.go:143-164 | the loop returns the admins of the pages from page 0 on, up to the first short page, or the first page error |
| Survey.RequestedPages | server/survey.go:143-164 | the pages requested are the full ones, then the first short one |
| Survey.AdminUsersArePages | server/survey.go:143-164 | getAdminUsers fails exactly when a requested page fails; otherwise it returns those pages in order, with the sum of their sizes as its length |
| Survey.ActiveEmailsAreActiveAdmins | server/survey.go:130-135 | an address is mailed exactly when some listed admin with it is not deactivated |
| Survey.SendSurveyScheduledEmail | server/survey.go:102-141 | every active admin is mailed, none when the admins cannot be listed or the body cannot be rendered, and a bounce does not stop the rest |
| Survey.MailActiveAdmins | server/survey.go:130-140 | the loop tries one mail per active admin, in order; the delivered mails are those except the bounced ones |
| Survey.NextSurveyStep | server/survey.go:35-65 | with no survey due, nothing is written and nobody is mailed; otherwise the upgrade record is stored, the start is now plus 21 days, the admins are mailed when the throttle allows, and the answer is true even when the store fails |
| Survey.CheckForNextSurvey | server/survey.go:35-65 | the method performs exactly NextSurveyStep on the store, mails the addresses it chooses, and delivers those that do not bounce |
| Survey.ScheduledOnce | server/survey.go:38-42 | after a scheduled survey, a second check on the same version schedules nothing and mails nobody |
| Api.GetScore | server/api.go:154-165 | no error exactly for a base-10 integer from 0 to 10, with that value; 0 and an error otherwise |
| Api.ScoresAccepted | server/api.go:154-165 | every score from 0 to 10, written out, is accepted as itself |
| Api.ScoresRejected | server/api.go:155-162 | an empty string, "-1", "11" and "abc" are rejected with 0; "+7" is read as 7 |
| Api.SelectRoute | server/api.go:36-49 | the handler of the first route whose path and method both match, or none when no route matches |
| Api.RequiresUserId | server/api.go:167-176 | an empty user id gives 401 and the handler is not run; otherwise the handler runs |
| Api.ServeHTTP | server/api.go:18-50 | not found exactly when no route matches; otherwise 401 without a user id, or exactly one handler, the right one for the path |
| Api.CheckForDMs | server/api.go:66-72 | an error exactly when diagnostics are on and the user cannot be fetched |
| Api.SubmitScoreStep | server/api.go:96-152 | the first failing check decides: undecodable body 400, nil body a panic, nil Context 400, unknown user 500, missing or non-string option a panic, invalid score 400; otherwise the survey is answered with a score from 0 to 10 and the time in ms, and a failure to mark it answered is only a warning |
| Api.ScoreAnswered | server/api.go:121-151 | for a known user, every score from 0 to 10 ends in an answered survey |
| Utils.TrailingDigits | server/utils.go:17-19 | the number of digits ending the string: all digits, and not preceded by one |
| Utils.ServerVersion | server/utils.go:17-19 | a trailing `.N`, where N is a positive number without a leading zero, becomes `.0`; any other string is unchanged |
| Utils.ServerVersionIdempotent | server/utils.go:17-19 | normalising twice is normalising once |
| Utils.ServerVersionExamples | server/utils.go:17-19 | "5.11.1" becomes "5.11.0" and "5.9.12" becomes "5.9.0"; "5.10.0" and "5.10.01" stay as they are |
| Utils.KvGetStep | server/utils.go:21-36 | an absent key leaves the target and gives no error; a failed read or undecodable data is an error |
| Utils.KvSetStep | server/utils.go:38-45 | a value that cannot be marshalled is an error before any call; otherwise a single Set |
| Utils.KvRoundTrip | server/utils.go:21-45 | KVSet then KVGet on the same key gives the value back, whatever the target held |
| Utils.KvGet | server/utils.go:21-36 | the method performs exactly KvGetStep on the store |
| Utils.KvSet | server/utils.go:38-45 | the method performs exactly KvSetStep on the store |
| Utils.BotDMStep | server/utils.go:47-64 | the post has the bot as its author and the user's DM channel as its channel; a failed channel lookup creates nothing |
| Utils.CreateBotDMPost | server/utils.go:47-64 | the method fills in the post's author and channel, then creates it, as BotDMStep says |
| Utils.BotDMChannelNames | server/utils.go:66-76 | a direct channel named "bot__user" or "user__bot" is the bot's DM channel; no other channel type is |
| Utils.BotDMChannelDecomposes | server/utils.go:66-76 | a recognised channel's name is the bot id, "__" and something, or something, "__" and the bot id |
| Welcome.MigrationStep | server/welcome.go:16-35 | a failed read or write leaves the gate unchanged; a stored date gives that date less the wait, with no write; otherwise now is stored and the gate is now less the wait |
| Welcome.MigrationSetOnce | server/welcome.go:19-33 | the migration date is set once: a later activation keeps it and writes nothing |
| Welcome.CheckStep | server/welcome.go:37-69 | a user who is not yet eligible gets nothing and the store is not read; a failed read or a flag already set sends nothing; otherwise the DM is posted and the flag set, or the DM error is returned and nothing is written |
| Welcome.SentOnce | server/welcome.go:58-66 | once the request has gone out and been recorded, the same check sends nothing |
| Welcome.WelcomeFeedback.SetWelcomeFeedbackMigration | server/welcome.go:16-35 | the method performs exactly MigrationStep and assigns the gate |
| Welcome.WelcomeFeedback.CheckForWelcomeFeedback | server/welcome.go:37-69 | the method performs exactly CheckStep |
| Welcome.WelcomeFeedback.SendWelcomeFeedbackDM | server/welcome.go:71-91 | the DM is posted, then the flag is set; a failed DM writes nothing |
| Analytics.Override | server/telemetry.go:75-77 | the keys are the union; other's entries win; the base entries are kept otherwise |
| Analytics.ReachedAdmin | server/segment.go:110-135 | a page the scan reaches that holds an admin membership makes it answer true |
| Analytics.AdminReached | server/segment.go:110-135 | an answer of true comes from an admin membership on a page the scan reaches |
| Analytics.TeamAdminFromMeans | server/telemetry.go:93-118 | a user is a team admin exactly when a reached page, after full fetched pages only, holds a membership with "team_admin" among its roles |
| Analytics.AdminAmong | server/telemetry.go:102-110 | the two inner loops find a membership with "team_admin" as one of its role fields exactly when one exists |
| Analytics.IsUserTeamAdmin | server/telemetry.go:93-118 | the scan, with the page advanced, computes exactly the intended answer |
| Analytics.IsUserTeamAdminAsWritten | server/telemetry.go:93-118 | the scan as written never ends when page 0 is full and has no admin; otherwise it answers from page 0 alone |
| Analytics.AsWrittenAgrees | server/telemetry.go:93-118 | wherever the written scan ends, the intended scan gives its answer: whether page 0 is fetched and holds an admin membership |
| Analytics.TeamAdminScanNeverAdvances | server/segment.go:110-135 | a user with 50 plain memberships and then an admin one is a team admin, yet the scan as written never ends |
| Telemetry.UserRole | server/telemetry.go:82-91 | system_admin comes before team_admin, and team_admin before user |
| Telemetry.GetUserRole | server/telemetry.go:82-91 | the method answers UserRole of the system-admin test and the intended scan; wherever the source's getUserRole returns (a system admin, or a written scan that is not stuck), that is the role the written scan gives |
| Telemetry.GetEventProperties | server/telemetry.go:48-80 | the six base keys are always there, with their fallbacks (0, "" and ""), and then other's entries win |
| Telemetry.SendScore | server/telemetry.go:31-35 | one nps_score event with the base keys and "score" |
| Telemetry.SendFeedback | server/telemetry.go:37-42 | one nps_feedback event with the base keys, "feedback" and "email" |
| Telemetry.SendUserDisabledEvent | server/telemetry.go:44-46 | one nps_disable event with the base keys only |
| Segment.IsUserSystemAdmin | server/segment.go:100-108 | true exactly when "system_admin" is one of the whitespace fields of the user's roles |
| Segment.UserRole | server/segment.go:90-98 | system_admin first, team_admin next, user otherwise, each as an if-and-only-if; wherever the source's getUserRole returns, the role the written scan gives |
| Segment.GetUserRole | server/segment.go:90-98 | the method answers UserRole |
| Segment.GetEventProperties | server/segment.go:53-88 | the nine base keys are always there, with their fallbacks, and then other's entries win |
| Segment.SendToSegment | server/segment.go:39-51 | nothing is sent while diagnostics are off; otherwise exactly the one message |
| Segment.SendScore | server/segment.go:27-31 | at most one nps_score message, carrying the score |
| Segment.SendFeedback | server/segment.go:33-37 | at most one nps_feedback message, carrying the feedback |
| TestCommands.ParseCommandArgs | server/test_commands.go:31-53 | the first field without its first character, the second field, and the remaining fields; missing parts are empty |
| TestCommands.ParseTypedCommand | server/test_commands.go:31-53 | a typed line "/command action args…" is taken apart into exactly those parts |
| TestCommands.ResetStep | server/test_commands.go:89-110 | everything is deleted and the bot id put back, leaving it the only entry; a failed DeleteAll answers the reset-failed text and leaves the store as it was; a failed restore of the bot id answers the restore-failed text and leaves the store empty |
| TestCommands.VersionStep | server/test_commands.go:112-145 | with 0 or more than 2 arguments, the usage text and no write; a bad version panics; otherwise the upgrade is stored |
| TestCommands.VersionCommandFeedsSurvey | server/test_commands.go:112-145 | a recorded upgrade is what the survey check then reads as the last one |
| TestCommands.TestCommandStep | server/test_commands.go:65-87 | an empty action and an unknown action get their texts; reset and version run their handlers |
| TestCommands.ExecuteCommandStep | server/test_commands.go:55-63 | nothing happens unless the test commands are enabled and the command is "nps-test"; then the action and arguments go to TestCommandStep |
| TestCommands.CommandsDisabled | server/test_commands.go:16 | as compiled, the command answers nothing and touches nothing |
| TestCommands.ResetKeepsOnlyBotId | server/test_commands.go:89-110 | after a successful reset the bot id is the only entry |
| TestCommands.ExecuteTestResetCommand | server/test_commands.go:89-110 | the method performs exactly ResetStep |
| TestCommands.ExecuteTestVersionCommand | server/test_commands.go:112-145 | the method performs exactly VersionStep |
| TestCommands.ExecuteTestCommand | server/test_commands.go:65-87 | the method performs exactly TestCommandStep |
| TestCommands.ExecuteCommand | server/test_commands.go:55-63 | the method performs exactly ExecuteCommandStep |
| TestCommand.ParseCommand | server/test_command.go:37-50 | 0, 1, 2 or more fields give empty parts, the first field, the first two fields, or the first two and the rest |
| TestCommand.ParseTypedLine | server/test_command.go:37-50 | a typed line is taken apart into its words, slash included |
| TestCommand.NextSurveyCommandStep | server/test_command.go:52-78 | a read error, no survey, or started, scheduled or disabled, by the stored start and now |
| TestCommand.ExecuteCommandStep | server/test_command.go:22-35 | no answer unless the first field is exactly "/nps-test"; an unknown action gets the invalid-action text |
| TestCommand.SlashRequired | server/test_command.go:25-27 | "nps-test next-survey" is not answered; "/nps-test next-survey" is |
| TestCommand.InvalidActionText | server/test_command.go:33 | the unknown action is appended with no separator: "Invalid action specifiedfoo" |
| TestCommand.ExecuteNextSurveyCommand | server/test_command.go:52-78 | the method performs exactly NextSurveyCommandStep |
| TestCommand.ExecuteCommand | server/test_command.go:22-35 | the method performs exactly ExecuteCommandStep |
| Hooks.ChannelHasBeenCreated | server/hooks.go:8-19 | only the bot's DM channels get the bot's description as their header; other channels are untouched |
| Hooks.MessageHasBeenPosted | server/hooks.go:21-64 | the bot's own posts, and all posts while diagnostics are off, are ignored before any lookup; unless every guard passes, nothing is sent; otherwise one feedback message and one thank-you reply |
| Activate.CanSendDiagnosticsCases | server/activate.go:37-40 | diagnostics may be sent exactly when the setting is there and true |
| Activate.EnsureBotStep | server/activate.go:42-82 | a stored id is used and no bot is created; otherwise the bot is created and its id stored, and a create or store failure is an error |
| Activate.BotCreatedOnce | server/activate.go:42-82 | after a successful first activation, the next one reads back the same id and creates nothing |
| Activate.Plugin.EnsureBotExists | server/activate.go:42-82 | the method performs exactly EnsureBotStep and keeps the bot id |
| Activate.Plugin.OnActivate | server/activate.go:9-35 | diagnostics off, or a version that does not parse, is an error before any other step, and nothing changes; otherwise the version is kept and the bot set up, and only after both does the survey check run, with its mails attempted and delivered; its answer is ignored |
| Times.UnixMillisOf | server/api.go:131-133 | Go's truncating division of nanoseconds by a millisecond, also before the epoch |
| Times.UnixMillisRoundTrip | server/api.go:131 | milliseconds survive the round trip through a time |
| Text.Fields | server/test_command.go:38 | strings.Fields: every field is a non-empty run of characters without white space (Text.FieldsOfUnfields gives the converse) |
| Text.FieldsOfUnfields | server/test_commands.go:32 | words joined by single spaces split back into the same words |
| Text.ParseInt64 | server/api.go:155 | strconv.ParseInt in base 10: the value of an optionally signed decimal number in range, a range error outside it, a syntax error otherwise |
| Text.ParseFormatted | server/test_commands.go:122 | a number written in decimal parses back to itself |
| Selectors.Find | webapp/src/selectors.js:56 | Array.find: the first matching row, or none exactly when no row matches |
| Selectors.RowForEverySetting | webapp/src/selectors.js:43-48 | every combination of settings has its row, with the widths of the table, and the full width is at least the small one |
| Selectors.UseSurveyPost | webapp/src/selectors.js:50-65 | true exactly when the width is over 768 and at least the row's small width, less 65 when the team sidebar is hidden |
| Selectors.UseFullSurveyPost | webapp/src/selectors.js:67-82 | the same for the row's full width |
| Selectors.IsSurveyPostSmall | webapp/src/selectors.js:25-27 | the post is small in the right-hand sidebar or where the full post does not fit, and always where no post fits |
| Selectors.NarrowWindows | webapp/src/selectors.js:63 | neither post is used in a window 768 pixels wide or narrower |
| Selectors.FullImpliesSmall | webapp/src/selectors.js:43-48 | where the full post fits, the small one does |
| Selectors.Monotone | webapp/src/selectors.js:63 | widening the window never takes room away |
| Selectors.DefaultLayoutThresholds | webapp/src/selectors.js:43-82 | with the default layout the small post needs 769 pixels, and the full one needs 856, or 791 with a single team |
| Selectors.TeamSidebarNeedsRoom | webapp/src/selectors.js:38-40 | gaining a second team, which shows the team sidebar, never makes a post fit that did not |
| Reducers.ConfirmationModal | webapp/src/reducers.js:8-26 | SHOW opens the modal with the action's callbacks; HIDE closes it with null callbacks; anything else keeps the state, starting from `{show: false}` |
| Reducers.WindowWidth | webapp/src/reducers.js:28-36 | WINDOW_RESIZED sets the width; anything else keeps it, starting from 0 |
| Reducers.Reduce | webapp/src/reducers.js:38-41 | each slice gets only its own part of the state |
| Reducers.InitialState | webapp/src/reducers.js:8-41 | the initial state is a closed modal with no callbacks and width 0 |
| Reducers.OtherActionsIgnored | webapp/src/reducers.js:23-24 | an action the plugin does not handle leaves its state as it was |
| Reducers.SlicesIndependent | webapp/src/reducers.js:38-41 | resizing leaves the modal alone, and the modal actions leave the width alone |
| Reducers.HideAfterShow | webapp/src/reducers.js:10-21 | hiding after showing ends with a closed modal and null callbacks |
| Reducers.LastResizeWins | webapp/src/reducers.js:30-31 | the last resize decides the width |
| WebappPlugin.ChangeFor | webapp/src/index.js:41-51 | register exactly on false to true, unregister exactly on true to false, and otherwise nothing |
| WebappPlugin.ChangesAlternate | webapp/src/index.js:36-52 | over any run of answers, register and unregister alternate; the first change undoes the starting state; the last leaves the component registered exactly when the last answer says it fits |
| WebappPlugin.Plugin.RegisterSurveyPost | webapp/src/index.js:36-52 | afterwards overrideSurveyPost is useSurveyPost's answer, and an id is kept exactly while the component is registered; register is called only on false to true, and unregister with the stored id only on true to false; one id is issued per registration and none otherwise |
| BrowserRouting.TeamPrefix | webapp/src/browser_routing.js:11 | one leading slash is removed, and nothing else changes |
| BrowserRouting.ChannelPath | webapp/src/browser_routing.js:10-13 | a rooted path made of the team part, "/channels/" and the channel name, each of which can be read back |
| BrowserRouting.LeadingSlashOptional | webapp/src/browser_routing.js:11 | "t" and "/t" give the same path |
| BrowserRouting.OneSlashStripped | webapp/src/browser_routing.js:11 | only one slash is stripped: "//t" keeps one |

## Left out

- Concurrency: the goroutine in checkForDMs, its random delay and its lock are not modelled. Store calls are atomic. Another node's interference is a fault: a compare-and-set is lost, or a call fails.
- HTTP I/O: response writing, header reading and JSON body decoding are not modelled. Only the outcome of each handler is modelled, and the decoded body is an input.
- JSON encodings: stored values are records of a `Value` datatype. A value of another record kind decodes as an error, where Go's decoder would be lenient. The only case where JSON time marshalling can fail is a year outside 0 to 9999.
- Semantic versions: semver.Parse and semver.MustParse are not part of this model. They are inputs that may fail, and a MustParse failure is a panic outcome.
- Templates and text: email and DM bodies are not modelled. They become parameters, such as `render` and `message`, or a template failure flag.
- Telemetry transport: Segment and Rudder clients are modelled only as the list of events handed to them.
- Webapp UI: React components are not modelled. The webapp's actions, hooks and client glue are left out.
- The push onto the browser history: only the URL string it receives is modelled.
- Constants not defined in the shown files have stand-in values: SERVER_UPGRADE_KEY, BOT_USER_KEY, SURVEYBOT_DESCRIPTION, TimeUntilWelcomeFeedback and POST_NPS_SURVEY.
  - SURVEYBOT_DESCRIPTION and TimeUntilWelcomeFeedback are parameters.
  - The other three are named constants with placeholder text; webapp/src/constants.js is not part of this model.
- KVList: its answers are a listing input to the store, not derived from the entries.
- Characters: Go strings are bytes, and the model's strings are characters. `command[1:]` in parseCommandArgs drops a whole character where Go drops one byte.
- Telemetry.GetUserRole: the host's system-admin test used by telemetry.go is not part of this model. It is an input.
- Telemetry.GetUserRole: built on the corrected membership scan (see Findings). For a user who is not a system admin and whose first membership page is full, fetched and without an admin, the source never returns; the model answers the intended role. Elsewhere its second ensures gives the source's answer.
- Telemetry.GetEventProperties: its user_role comes from Telemetry.GetUserRole, so for the user above it returns where the source never does.
- Telemetry.SendScore: built on the corrected scan; for the user above the source never tracks the event, while the model tracks one.
- Telemetry.SendFeedback: built on the corrected scan; for the user above the source never tracks the event, while the model tracks one.
- Telemetry.SendUserDisabledEvent: built on the corrected scan; for the user above the source never tracks the event, while the model tracks one.
- Segment.UserRole: defined with the corrected scan; for a user who is not a system admin and whose first membership page is full, fetched and without an admin, the source's getUserRole never returns. Elsewhere its last ensures gives the source's answer.
- Segment.GetUserRole: calls the corrected scan, so for the user above it returns where the source never does.
- Segment.GetEventProperties: its user_role comes from Segment.GetUserRole, so for the user above it returns where the source never does.
- Segment.SendScore: built on the corrected scan. The source builds the properties before the diagnostics gate, so for the user above it never returns, even with diagnostics off; the model sends per the gate.
- Segment.SendFeedback: built on the corrected scan. For the user above the source never returns, even with diagnostics off; the model sends per the gate.
- Hooks.MessageHasBeenPosted: built on the corrected scan; for a poster as above, sendFeedback never returns in the source, so neither the feedback event nor the thank-you reply happens, while the model promises both.
- Api.SubmitScoreStep: the Answered outcome assumes sendScore returns; for a user as above, submitScore never responds in the source.
- WebappPlugin.Plugin.RegisterSurveyPost: registerPostTypeComponent calls registerSurveyPost again while the first call is still running. That nested call is not modelled. It would see overrideSurveyPost already true, the same state and so the same useSurveyPost answer, and would change nothing.
- Times.UnixMillisOf: Go's UnixNano is defined only for times whose nanoseconds fit in 64 bits (about the years 1678 to 2262); the model's integers are unbounded, so it gives the mathematical value outside that range.
- Api.SubmitScoreStep: markSurveyAnswered, buildFeedbackRequestPost and buildAnsweredSurveyPost are not part of this model. Their effects appear only as the answered outcome and its warning flag.
- Api.CheckForDMs: checkForAdminNoticeDM and checkForSurveyDM are not part of this model.
- Survey.GetAdminUsers: a page size of 0 is excluded by its precondition, because the loop would then never end.
- Activate.EnsureBotStep: a bot id stored as a JSON record is read as an empty id.
- userConnected: its status is not a member of its own. It is 500 exactly when Api.CheckForDMs gives an error.

## Findings

| source | as written | input that shows it | evidently intended | confidence | as-written member | corrected member |
|---|---|---|---|---|---|---|
| server/telemetry.go:93-118, server/segment.go:110-135 | isUserTeamAdmin fetches page `page` in a loop but never increments `page`, so a full first page is fetched again and again | a user with 50 non-admin team memberships, then a team_admin membership on page 1 | fetch page 0, 1, 2, … until a page holds a team admin, fails, or is not full | high; not executed | Analytics.IsUserTeamAdminAsWritten, Analytics.TeamAdminScanNeverAdvances | Analytics.IsUserTeamAdmin, Analytics.TeamAdminFromMeans |
