/** server/survey.go: scheduling an NPS survey after a major or minor server
    upgrade, and telling the system admins about it by email at most once a week. */
module Survey {
  import opened Times
  import opened PluginApi
  import opened Utils

  /** MIN_DAYS_BETWEEN_SURVEY_EMAILS */
  const MinDaysBetweenSurveyEmails: nat := 7
  /** DAYS_UNTIL_SURVEY */
  const DaysUntilSurvey: nat := 21
  /** ADMIN_USERS_PER_PAGE */
  const AdminUsersPerPage: nat := 100

  /** SERVER_UPGRADE_KEY; server/survey.go uses this constant without showing its value. */
  const LastUpgradeKey: string := "ServerUpgrade"

  /** survey.go's serverUpgrade: the version upgraded to and when. */
  datatype LastUpgrade = LastUpgrade(version: Version, timestamp: int)

  function Encode(u: LastUpgrade): Value {
    JsonVersionUpgrade(u.version, u.timestamp)
  }

  // ---------------------------------------------------------------------------
  // The two gates

  /** shouldScheduleSurvey */
  predicate ShouldScheduleSurvey(current: Version, last: Option<LastUpgrade>) {
    last.None? || current.major > last.value.version.major || current.minor > last.value.version.minor
  }

  /** A strictly newer major or minor release than the last one schedules a survey. */
  lemma NewReleaseSchedules(current: Version, last: LastUpgrade)
    requires || current.major > last.version.major
             || (current.major == last.version.major && current.minor > last.version.minor)
    ensures ShouldScheduleSurvey(current, Some(last))
  {
  }

  /** The same major and minor release never schedules one, whatever the patch numbers. */
  lemma PatchReleaseDoesNotSchedule(current: Version, last: LastUpgrade)
    requires current.major == last.version.major && current.minor == last.version.minor
    ensures !ShouldScheduleSurvey(current, Some(last))
  {
  }

  /** Major and minor are compared separately: going from 5.1 back to 4.9 schedules
      a survey, going from 5.9 back to 5.8 does not. */
  lemma DowngradeCases()
    ensures ShouldScheduleSurvey(Version(4, 9, 0), Some(LastUpgrade(Version(5, 1, 0), 0)))
    ensures !ShouldScheduleSurvey(Version(5, 8, 0), Some(LastUpgrade(Version(5, 9, 0), 0)))
  {
  }

  /** shouldSendSurveyScheduledEmail: none before, or the last one a week ago or more. */
  predicate ShouldSendSurveyScheduledEmail(now: int, last: Option<LastUpgrade>) {
    last.None? || now - last.value.timestamp >= MinDaysBetweenSurveyEmails * Day
  }

  lemma EmailThrottleBoundary(last: LastUpgrade)
    ensures ShouldSendSurveyScheduledEmail(last.timestamp + 7 * Day, Some(last))
    ensures !ShouldSendSurveyScheduledEmail(last.timestamp + 7 * Day - Microsecond, Some(last))
  {
  }

  /** Once the throttle has let an email through, it does so at every later time. */
  lemma EmailThrottleMonotone(now: int, later: int, last: Option<LastUpgrade>)
    requires now <= later && ShouldSendSurveyScheduledEmail(now, last)
    ensures ShouldSendSurveyScheduledEmail(later, last)
  {
  }

  // ---------------------------------------------------------------------------
  // The stored upgrade record

  /** getLastServerUpgrade: a failed read, an absent entry and data that is not
      a record all read as no upgrade. */
  function LastServerUpgradeStep(f: Faults, w: World): (res: (Option<LastUpgrade>, World))
    ensures res.1 == Logged(w, Get(LastUpgradeKey))
    ensures res.0.Some? <==>
              LastUpgradeKey !in f.failGet && LastUpgradeKey in w.kv && w.kv[LastUpgradeKey].JsonVersionUpgrade?
    ensures res.0.Some? ==> Encode(res.0.value) == w.kv[LastUpgradeKey]
  {
    var (got, w1) := GetStep(f, w, LastUpgradeKey);
    if got.Err? || got.value.None? then (None, w1)
    else match got.value.value
      case JsonVersionUpgrade(v, t) => (Some(LastUpgrade(v, t)), w1)
      case _ => (None, w1)
  }

  /** storeServerUpgrade followed by getLastServerUpgrade gives the record back. */
  lemma StoredUpgradeReadBack(f: Faults, w: World, u: LastUpgrade)
    requires LastUpgradeKey !in f.failSet && LastUpgradeKey !in f.failGet
    requires JsonEncodable(u.timestamp)
    ensures LastServerUpgradeStep(f, KvSetStep(f, w, LastUpgradeKey, Encode(u)).1).0 == Some(u)
  {
  }

  // ---------------------------------------------------------------------------
  // getAdminUsers

  /** The answer of GetUsers for the system admins, page by page: a page number in
      `failing` makes the call fail, and a page past the end is empty. */
  datatype Directory = Directory(adminPages: seq<seq<User>>, failing: set<nat>) {
    function Page(page: nat): seq<User> {
      if page < |adminPages| then adminPages[page] else []
    }
  }

  /** The admins from page `page` on, as getAdminUsers accumulates them. */
  function AdminUsersFrom(d: Directory, perPage: nat, page: nat): Result<seq<User>>
    requires perPage > 0
    decreases |d.adminPages| - page
  {
    if page in d.failing then Err(HostError("GetUsers"))
    else if |d.Page(page)| < perPage then Ok(d.Page(page))
    else
      var rest := AdminUsersFrom(d, perPage, page + 1);
      if rest.Err? then rest else Ok(d.Page(page) + rest.value)
  }

  /** The admins already collected in front of the ones still to come. */
  function Prepend(admins: seq<User>, rest: Result<seq<User>>): Result<seq<User>> {
    if rest.Err? then rest else Ok(admins + rest.value)
  }

  /** getAdminUsers: page through the admins until a page is shorter than `perPage`. */
  method GetAdminUsers(d: Directory, perPage: nat) returns (r: Result<seq<User>>)
    requires perPage > 0
    ensures r == AdminUsersFrom(d, perPage, 0)
  {
    var admins: seq<User> := [];
    var page: nat := 0;
    assert forall xs: seq<User> :: [] + xs == xs;
    while true
      invariant page <= |d.adminPages|
      invariant AdminUsersFrom(d, perPage, 0) == Prepend(admins, AdminUsersFrom(d, perPage, page))
      decreases |d.adminPages| - page
    {
      if page in d.failing {
        return Err(HostError("GetUsers"));
      }
      var adminsPage := d.Page(page);
      assert admins + adminsPage + [] == admins + adminsPage;
      assert forall rest: seq<User> :: admins + adminsPage + rest == admins + (adminsPage + rest);
      admins := admins + adminsPage;
      if |adminsPage| < perPage {
        return Ok(admins);
      }
      page := page + 1;
    }
  }

  /** The pages getAdminUsers requests from `page` on: each one up to and
      including the first page shorter than `perPage`. */
  function RequestedPages(d: Directory, perPage: nat, page: nat): (pages: seq<seq<User>>)
    requires perPage > 0
    ensures |pages| >= 1
    decreases |d.adminPages| - page
  {
    if |d.Page(page)| < perPage then [d.Page(page)]
    else [d.Page(page)] + RequestedPages(d, perPage, page + 1)
  }

  function Flatten(pages: seq<seq<User>>): seq<User> {
    if pages == [] then [] else pages[0] + Flatten(pages[1..])
  }

  function TotalSize(pages: seq<seq<User>>): nat {
    if pages == [] then 0 else |pages[0]| + TotalSize(pages[1..])
  }

  lemma {:induction false} FlattenSize(pages: seq<seq<User>>)
    ensures |Flatten(pages)| == TotalSize(pages)
  {
    if pages != [] {
      FlattenSize(pages[1..]);
    }
  }

  /** getAdminUsers fails when one of the pages it requests fails; otherwise it
      returns those pages concatenated in order, as many users as they hold. */
  lemma {:induction false} AdminUsersArePages(d: Directory, perPage: nat, page: nat)
    requires perPage > 0
    ensures var requested := RequestedPages(d, perPage, page);
            var r := AdminUsersFrom(d, perPage, page);
            && (r.Err? <==> exists p :: page <= p < page + |requested| && p in d.failing)
            && (r.Ok? ==> r.value == Flatten(requested) && |r.value| == TotalSize(requested))
    decreases |d.adminPages| - page
  {
    var requested := RequestedPages(d, perPage, page);
    FlattenSize(requested);
    if |d.Page(page)| >= perPage {
      AdminUsersArePages(d, perPage, page + 1);
      var rest := RequestedPages(d, perPage, page + 1);
      assert requested[1..] == rest;
      assert Flatten(requested) == d.Page(page) + Flatten(rest);
    } else {
      assert requested[1..] == [];
    }
  }

  // ---------------------------------------------------------------------------
  // sendSurveyScheduledEmail

  /** The mail part of the server: SendMail fails for the addresses in `bouncing`. */
  class Mailer {
    const bouncing: set<string>
    var attempted: seq<string>
    var delivered: seq<string>

    constructor (bouncing: set<string>)
      ensures this.bouncing == bouncing && attempted == [] && delivered == []
    {
      this.bouncing := bouncing;
      attempted := [];
      delivered := [];
    }

    method SendMail(to: string) returns (r: Result<()>)
      modifies this
      ensures attempted == old(attempted) + [to]
      ensures r.Ok? <==> to !in bouncing
      ensures delivered == old(delivered) + (if r.Ok? then [to] else [])
    {
      attempted := attempted + [to];
      if to in bouncing {
        return Err(HostError("SendMail"));
      }
      delivered := delivered + [to];
      return Ok(());
    }
  }

  /** The addresses of the admins that are not deactivated, in order. */
  function ActiveEmails(admins: seq<User>): seq<string> {
    if admins == [] then []
    else (if admins[0].deleteAt == 0 then [admins[0].email] else []) + ActiveEmails(admins[1..])
  }

  /** An address is mailed exactly when some admin with it is still active. */
  lemma {:induction false} ActiveEmailsAreActiveAdmins(admins: seq<User>, email: string)
    ensures email in ActiveEmails(admins) <==>
              exists i :: 0 <= i < |admins| && admins[i].deleteAt == 0 && admins[i].email == email
  {
    if admins != [] {
      ActiveEmailsAreActiveAdmins(admins[1..], email);
      if exists i :: 1 <= i < |admins| && admins[i].deleteAt == 0 && admins[i].email == email {
        var i :| 1 <= i < |admins| && admins[i].deleteAt == 0 && admins[i].email == email;
        assert admins[1..][i - 1] == admins[i];
      }
      if exists i :: 0 <= i < |admins| - 1 && admins[1..][i].deleteAt == 0 && admins[1..][i].email == email {
        var i :| 0 <= i < |admins| - 1 && admins[1..][i].deleteAt == 0 && admins[1..][i].email == email;
        assert admins[i + 1] == admins[1..][i];
      }
    }
  }

  function Deliverable(emails: seq<string>, bouncing: set<string>): seq<string> {
    if emails == [] then []
    else (if emails[0] in bouncing then [] else [emails[0]]) + Deliverable(emails[1..], bouncing)
  }

  /** The wanted mails of one announcement: none when the admins cannot be
      listed or the body cannot be rendered, else one per active admin. */
  function AnnouncementMails(d: Directory, templateFails: bool): seq<string> {
    var admins := AdminUsersFrom(d, AdminUsersPerPage, 0);
    if admins.Err? || templateFails then [] else ActiveEmails(admins.value)
  }

  /** sendSurveyScheduledEmail: every active admin is mailed, whether or not
      mailing an earlier one failed. */
  method SendSurveyScheduledEmail(d: Directory, templateFails: bool, mailer: Mailer)
    modifies mailer
    ensures mailer.attempted == old(mailer.attempted) + AnnouncementMails(d, templateFails)
    ensures mailer.delivered == old(mailer.delivered) + Deliverable(AnnouncementMails(d, templateFails), mailer.bouncing)
  {
    var admins := GetAdminUsers(d, AdminUsersPerPage);
    if admins.Err? {
      return;
    }
    if templateFails {
      return;
    }
    MailActiveAdmins(admins.value, mailer);
  }

  /** The loop of sendSurveyScheduledEmail: a failed SendMail is only logged. */
  method MailActiveAdmins(admins: seq<User>, mailer: Mailer)
    modifies mailer
    ensures mailer.attempted == old(mailer.attempted) + ActiveEmails(admins)
    ensures mailer.delivered == old(mailer.delivered) + Deliverable(ActiveEmails(admins), mailer.bouncing)
  {
    var i := 0;
    while i < |admins|
      invariant 0 <= i <= |admins|
      invariant mailer.attempted == old(mailer.attempted) + ActiveEmails(admins[..i])
      invariant mailer.delivered == old(mailer.delivered) + Deliverable(ActiveEmails(admins[..i]), mailer.bouncing)
    {
      ActiveEmailsSnoc(admins, i);
      var admin := admins[i];
      if admin.deleteAt != 0 {
        assert ActiveEmails(admins[..i]) + [] == ActiveEmails(admins[..i]);
        i := i + 1;
        continue;
      }
      ghost var before := mailer.delivered;
      var _ := mailer.SendMail(admin.email);
      assert Deliverable([admin.email], mailer.bouncing)
          == (if admin.email in mailer.bouncing then [] else [admin.email]) + Deliverable([], mailer.bouncing);
      assert mailer.delivered == before + Deliverable([admin.email], mailer.bouncing);
      DeliverableAppend(ActiveEmails(admins[..i]), [admin.email], mailer.bouncing);
      i := i + 1;
    }
    assert admins[..i] == admins;
  }

  lemma {:induction false} ActiveEmailsAppend(a: seq<User>, b: seq<User>)
    ensures ActiveEmails(a + b) == ActiveEmails(a) + ActiveEmails(b)
    decreases |a|
  {
    if a == [] {
      assert a + b == b;
    } else {
      assert (a + b)[0] == a[0];
      assert (a + b)[1..] == a[1..] + b;
      ActiveEmailsAppend(a[1..], b);
    }
  }

  lemma ActiveEmailsSnoc(all: seq<User>, i: nat)
    requires i < |all|
    ensures ActiveEmails(all[..i + 1])
         == ActiveEmails(all[..i]) + (if all[i].deleteAt == 0 then [all[i].email] else [])
  {
    assert all[..i + 1] == all[..i] + [all[i]];
    ActiveEmailsAppend(all[..i], [all[i]]);
    assert ActiveEmails([all[i]]) == (if all[i].deleteAt == 0 then [all[i].email] else []) + ActiveEmails([]);
  }

  lemma {:induction false} DeliverableAppend(a: seq<string>, b: seq<string>, bouncing: set<string>)
    ensures Deliverable(a + b, bouncing) == Deliverable(a, bouncing) + Deliverable(b, bouncing)
    decreases |a|
  {
    if a == [] {
      assert a + b == b;
    } else {
      assert (a + b)[0] == a[0];
      assert (a + b)[1..] == a[1..] + b;
      DeliverableAppend(a[1..], b, bouncing);
    }
  }

  // ---------------------------------------------------------------------------
  // checkForNextSurvey

  /** What one check decides: whether a survey was scheduled, the start date its
      log line announces, and the admin addresses it tries to mail. */
  datatype SurveyCheck = SurveyCheck(scheduled: bool, surveyAt: Option<int>, mails: seq<string>)

  /** checkForNextSurvey as a step on the store, with `now` for time.Now. */
  function NextSurveyStep(f: Faults, w: World, d: Directory, templateFails: bool, current: Version, now: int)
    : (res: (SurveyCheck, World))
    ensures var (last, w1) := LastServerUpgradeStep(f, w);
            !ShouldScheduleSurvey(current, last) ==> res == (SurveyCheck(false, None, []), w1)
    ensures var (last, w1) := LastServerUpgradeStep(f, w);
            var record := Encode(LastUpgrade(current, now));
            ShouldScheduleSurvey(current, last) ==>
              && res.0.scheduled
              && res.0.surveyAt == Some(now + DaysUntilSurvey * Day)
              && res.0.mails == (if ShouldSendSurveyScheduledEmail(now, last) then AnnouncementMails(d, templateFails) else [])
              && res.1 == KvSetStep(f, w1, LastUpgradeKey, record).1
  {
    var (last, w1) := LastServerUpgradeStep(f, w);
    if !ShouldScheduleSurvey(current, last) then (SurveyCheck(false, None, []), w1)
    else
      var mails := if ShouldSendSurveyScheduledEmail(now, last) then AnnouncementMails(d, templateFails) else [];
      var (_, w2) := KvSetStep(f, w1, LastUpgradeKey, Encode(LastUpgrade(current, now)));
      (SurveyCheck(true, Some(now + DaysUntilSurvey * Day), mails), w2)
  }

  method CheckForNextSurvey(store: Store, d: Directory, templateFails: bool, mailer: Mailer, current: Version, now: int)
    returns (scheduled: bool)
    modifies store, mailer
    ensures var (check, w) := NextSurveyStep(store.faults, old(store.State()), d, templateFails, current, now);
            && scheduled == check.scheduled
            && store.State() == w
            && mailer.attempted == old(mailer.attempted) + check.mails
            && mailer.delivered == old(mailer.delivered) + Deliverable(check.mails, mailer.bouncing)
  {
    var got := store.Get(LastUpgradeKey);
    var last: Option<LastUpgrade> := None;
    if got.Ok? && got.value.Some? && got.value.value.JsonVersionUpgrade? {
      last := Some(LastUpgrade(got.value.value.version, got.value.value.timestamp));
    }
    if !ShouldScheduleSurvey(current, last) {
      return false;
    }
    if ShouldSendSurveyScheduledEmail(now, last) {
      SendSurveyScheduledEmail(d, templateFails, mailer);
    }
    var _ := KvSet(store, LastUpgradeKey, Encode(LastUpgrade(current, now)));
    return true;
  }

  /** After a scheduled survey the record is the current version at `now`, so a
      second check on the same version schedules nothing and mails nobody. */
  lemma ScheduledOnce(listing: seq<seq<string>>, w: World, d: Directory, templateFails: bool,
                      current: Version, now: int, later: int)
    requires JsonEncodable(now)
    ensures var f := Reliable(listing);
            var first := NextSurveyStep(f, w, d, templateFails, current, now);
            var second := NextSurveyStep(f, first.1, d, templateFails, current, later);
            first.0.scheduled ==> !second.0.scheduled && second.0.mails == [] && second.1.kv == first.1.kv
  {
  }
}
