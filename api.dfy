/** server/api.go: the plugin's HTTP routes, the user-id check in front of
    them, and the validation of a submitted survey score. */
module Api {
  import opened Times
  import opened Text
  import opened PluginApi
  import opened Activate

  // ---------------------------------------------------------------------------
  // getScore

  /** getScore: the selected option as a base-10 integer from 0 to 10; any
      other input gives 0 and an error (`true` in the second component). */
  function GetScore(selectedOption: string): (r: (int, bool))
    ensures !r.1 <==> IsDecimalInteger(selectedOption) && 0 <= DecimalIntegerValue(selectedOption) <= 10
    ensures !r.1 ==> r.0 == DecimalIntegerValue(selectedOption)
    ensures r.1 ==> r.0 == 0
  {
    var parsed := ParseInt64(selectedOption);
    if !parsed.Parsed? then (0, true)
    else if parsed.value < 0 || parsed.value > 10 then (0, true)
    else (parsed.value, false)
  }

  /** Every score from 0 to 10, written out, is accepted as itself. */
  lemma ScoresAccepted(n: nat)
    requires n <= 10
    ensures GetScore(DecimalString(n)) == (n, false)
  {
    ParseFormatted(n);
  }

  lemma ScoresRejected()
    ensures GetScore("") == (0, true)
    ensures GetScore("-1") == (0, true)
    ensures GetScore("11") == (0, true)
    ensures GetScore("abc") == (0, true)
    ensures GetScore("+7") == (7, false)
  {
    assert !IsDecimalInteger("");
    assert !IsDecimalInteger("abc") by {
      assert !IsDigit("abc"[0]);
    }
    assert Unsigned("-1") == "1" && Unsigned("11") == "11" && Unsigned("+7") == "7";
    assert DigitsValue("1") == 1 && DigitsValue("7") == 7;
    assert DigitsValue("11") == 11 by {
      assert "11"[..1] == "1";
    }
  }

  // ---------------------------------------------------------------------------
  // Routing

  datatype Handler = UserConnected | SubmitScore
  datatype Route = Route(path: string, httpMethod: string, handler: Handler)

  /** The route table of ServeHTTP. */
  const Routes: seq<Route> := [
    Route("/api/v1/connected", "POST", UserConnected),
    Route("/api/v1/score", "POST", SubmitScore)]

  predicate Matches(route: Route, path: string, httpMethod: string) {
    route.path == path && route.httpMethod == httpMethod
  }

  /** The route loop of ServeHTTP: the handler of the first route whose path and
      method both match, or none. */
  method SelectRoute(routes: seq<Route>, path: string, httpMethod: string) returns (found: Option<Handler>)
    ensures found.None? <==> forall i :: 0 <= i < |routes| ==> !Matches(routes[i], path, httpMethod)
    ensures found.Some? ==>
              exists i :: 0 <= i < |routes| && Matches(routes[i], path, httpMethod) && routes[i].handler == found.value
                          && forall j :: 0 <= j < i ==> !Matches(routes[j], path, httpMethod)
  {
    found := None;
    var routeFound := false;
    var i := 0;
    while i < |routes|
      invariant 0 <= i <= |routes|
      invariant !routeFound && found.None?
      invariant forall j :: 0 <= j < i ==> !Matches(routes[j], path, httpMethod)
    {
      if Matches(routes[i], path, httpMethod) {
        found := Some(routes[i].handler);
        routeFound := true;
        break;
      }
      i := i + 1;
    }
  }

  /** What ServeHTTP does with a request: not found, refused for lack of a user
      id, or handed to exactly one handler. */
  datatype Dispatch = NotFound | Unauthorized | Handled(handler: Handler)

  /** requiresUserId: a request without the Mattermost-User-ID header gets 401
      and the handler is not called. */
  function RequiresUserId(userId: string, handler: Handler): (d: Dispatch)
    ensures d == Unauthorized <==> userId == ""
    ensures d != Unauthorized ==> d == Handled(handler)
  {
    if userId == "" then Unauthorized else Handled(handler)
  }

  method ServeHTTP(path: string, httpMethod: string, userId: string) returns (d: Dispatch)
    ensures d == NotFound <==> !Matches(Routes[0], path, httpMethod) && !Matches(Routes[1], path, httpMethod)
    ensures d.Handled? ==> userId != ""
    ensures d.Handled? ==> (d.handler == UserConnected <==> path == "/api/v1/connected")
    ensures d == Unauthorized <==> userId == "" && (Matches(Routes[0], path, httpMethod) || Matches(Routes[1], path, httpMethod))
  {
    var found := SelectRoute(Routes, path, httpMethod);
    if found.None? {
      return NotFound;
    }
    d := RequiresUserId(userId, found.value);
  }

  // ---------------------------------------------------------------------------
  // userConnected and checkForDMs

  /** The part of checkForDMs before its goroutine: with diagnostics enabled the
      user must be found. */
  function CheckForDMs(enableDiagnostics: Option<bool>, users: map<string, User>, userId: string): (err: Option<AppError>)
    ensures err.Some? <==> CanSendDiagnostics(enableDiagnostics) && userId !in users
  {
    if CanSendDiagnostics(enableDiagnostics) && userId !in users then Some(HostError("GetUser")) else None
  }

  // ---------------------------------------------------------------------------
  // submitScore

  /** A value in the request's Context map. */
  datatype ContextValue = CString(s: string) | CNonString

  /** The request body as json.Decoder leaves it in a `*PostActionIntegrationRequest`:
      undecodable, the JSON literal null (a nil pointer), or a request whose
      Context map may be nil. */
  datatype Body = Undecodable | Null | Request(context: Option<map<string, ContextValue>>)

  /** How submitScore ends: a status; a panic (reading Context through a nil
      request, or the `.(string)` assertion on a missing or non-string
      selected_option); or an answered survey. An answered survey has sent the
      score with its time in milliseconds, tried to mark the survey answered
      (`warned` when that failed), posted the feedback request and written the
      updated survey post. */
  datatype ScoreOutcome =
    | BadRequest
    | InternalServerError
    | Panicked
    | Answered(score: int, timestampMs: int, warned: bool)

  /** submitScore's ladder. `users` answers GetUser, `now` is p.now() and
      `markFails` is whether markSurveyAnswered fails. */
  function SubmitScoreStep(body: Body, users: map<string, User>, userId: string, now: int, markFails: bool)
    : (r: ScoreOutcome)
    // An answered survey carries a valid score; a failure to mark it answered changes only the warning.
    ensures r.Answered? ==> 0 <= r.score <= 10 && r.warned == markFails
    ensures body.Undecodable? ==> r == BadRequest
    ensures body.Null? ==> r == Panicked
    ensures body.Request? && body.context.None? ==> r == BadRequest
    ensures body.Request? && body.context.Some? && userId !in users ==> r == InternalServerError
    ensures body.Request? && body.context.Some? && userId in users ==>
              var ctx := body.context.value;
              && (("selected_option" !in ctx || !ctx["selected_option"].CString?) ==> r == Panicked)
              && ("selected_option" in ctx && ctx["selected_option"].CString? ==>
                    var (score, invalid) := GetScore(ctx["selected_option"].s);
                    r == if invalid then BadRequest else Answered(score, UnixMillisOf(now), markFails))
  {
    if body.Undecodable? then BadRequest
    else if body.Null? then Panicked
    else if body.context.None? then BadRequest
    else if userId !in users then InternalServerError
    else
      var ctx := body.context.value;
      if "selected_option" !in ctx || !ctx["selected_option"].CString? then Panicked
      else
        var (score, invalid) := GetScore(ctx["selected_option"].s);
        if invalid then BadRequest
        else Answered(score, UnixMillisOf(now), markFails)
  }

  /** Every score from 0 to 10 is answered, for a known user. */
  lemma ScoreAnswered(users: map<string, User>, userId: string, now: int, n: nat, markFails: bool)
    requires userId in users && n <= 10
    ensures SubmitScoreStep(Request(Some(map["selected_option" := CString(DecimalString(n))])), users, userId, now, markFails)
         == Answered(n, UnixMillisOf(now), markFails)
  {
    ScoresAccepted(n);
  }
}
