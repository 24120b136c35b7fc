/** What server/telemetry.go and server/segment.go have in common: the event
    properties as a map from names to numbers or strings, the host data they are
    built from, the role-token search, and the scan of a user's team
    memberships for the team-admin role. */
module Analytics {
  import opened Text
  import opened PluginApi

  /** model.TeamAdminRoleId and model.SystemAdminRoleId. */
  const TeamAdminRoleId: string := "team_admin"
  const SystemAdminRoleId: string := "system_admin"

  /** The page size of GetTeamMembersForUser in isUserTeamAdmin. */
  const TeamMembersPerPage: nat := 50

  /** A property value: an integer or a string. */
  datatype Prop = PInt(n: int) | PStr(s: string)

  datatype License = License(id: string, skuShortName: string)

  /** The answers of the host calls the properties are built from. */
  datatype Host = Host(
    installDate: Option<int>,        // GetSystemInstallDate; None when it fails
    users: map<string, User>,        // GetUser; a missing id makes it fail
    license: Option<License>,        // GetLicense; None is a nil license
    teams: map<string, Memberships>, // GetTeamMembersForUser, by user id
    serverVersion: string,           // GetServerVersion
    diagnosticId: string)            // GetDiagnosticId

  /** GetTeamMembersForUser's pages for a user; for an unknown user the first request fails. */
  function TeamsOf(host: Host, userId: string): Memberships {
    if userId in host.teams then host.teams[userId] else Memberships([], {0})
  }

  /** Whether `role` is one of the whitespace-separated fields of `roles`. */
  predicate HasRole(roles: string, role: string) {
    role in Fields(roles)
  }

  // ---------------------------------------------------------------------------
  // Overriding properties

  /** `for key, value := range other { properties[key] = value }`. */
  method Override(properties: map<string, Prop>, other: map<string, Prop>) returns (r: map<string, Prop>)
    ensures r.Keys == properties.Keys + other.Keys
    ensures forall k :: k in other ==> r[k] == other[k]
    ensures forall k :: k in properties && k !in other ==> r[k] == properties[k]
  {
    r := properties;
    var rest := other.Keys;
    while rest != {}
      invariant rest <= other.Keys
      invariant r.Keys == properties.Keys + (other.Keys - rest)
      invariant forall k :: k in other && k !in rest ==> r[k] == other[k]
      invariant forall k :: k in properties && (k !in other || k in rest) ==> r[k] == properties[k]
      decreases rest
    {
      var k :| k in rest;
      r := r[k := other[k]];
      rest := rest - {k};
    }
  }

  // ---------------------------------------------------------------------------
  // Team memberships

  /** GetTeamMembersForUser for one user: the Roles string of each membership on
      each page, and the pages whose request fails; a page past the end is empty. */
  datatype Memberships = Memberships(pages: seq<seq<string>>, failing: set<nat>)

  function Page(t: Memberships, p: nat): seq<string> {
    if p < |t.pages| then t.pages[p] else []
  }

  /** Some membership on page `p` has the team-admin role. */
  predicate AdminOnPage(t: Memberships, p: nat) {
    exists i :: 0 <= i < |Page(t, p)| && HasRole(Page(t, p)[i], TeamAdminRoleId)
  }

  /** Pages `a` up to `b` (excluded) were fetched, were full, and did not fail. */
  predicate FullPages(t: Memberships, a: nat, b: nat) {
    forall q: nat :: a <= q < b ==> q !in t.failing && |Page(t, q)| == TeamMembersPerPage
  }

  /** The membership scan as intended: page after page until an admin role, an
      error, or a page that is not full. */
  function TeamAdminFrom(t: Memberships, page: nat): bool
    decreases |t.pages| - page
  {
    if page in t.failing then false
    else if AdminOnPage(t, page) then true
    else if |Page(t, page)| != TeamMembersPerPage then false
    else TeamAdminFrom(t, page + 1)
  }

  /** A page the scan reaches that holds an admin membership makes it answer true. */
  lemma {:induction false} ReachedAdmin(t: Memberships, page: nat, p: nat)
    requires page <= p && FullPages(t, page, p) && p !in t.failing && AdminOnPage(t, p)
    ensures TeamAdminFrom(t, page)
    decreases p - page
  {
    if page < p && !AdminOnPage(t, page) {
      assert page !in t.failing && |Page(t, page)| == TeamMembersPerPage;
      ReachedAdmin(t, page + 1, p);
    }
  }

  /** An answer true comes from an admin membership on a page the scan reaches. */
  lemma {:induction false} AdminReached(t: Memberships, page: nat)
    requires TeamAdminFrom(t, page)
    ensures exists p: nat :: page <= p && FullPages(t, page, p) && p !in t.failing && AdminOnPage(t, p)
    decreases |t.pages| - page
  {
    if AdminOnPage(t, page) {
      assert FullPages(t, page, page);
    } else {
      AdminReached(t, page + 1);
      var p: nat :| page + 1 <= p && FullPages(t, page + 1, p) && p !in t.failing && AdminOnPage(t, p);
      assert FullPages(t, page, p);
    }
  }

  /** The scan finds an admin exactly when some page it reaches holds an admin
      membership: all pages before it full and fetched, and the page itself fetched. */
  lemma TeamAdminFromMeans(t: Memberships, page: nat)
    ensures TeamAdminFrom(t, page) <==>
            exists p: nat :: page <= p && FullPages(t, page, p) && p !in t.failing && AdminOnPage(t, p)
  {
    if TeamAdminFrom(t, page) {
      AdminReached(t, page);
    }
    forall p: nat | page <= p && FullPages(t, page, p) && p !in t.failing && AdminOnPage(t, p)
      ensures TeamAdminFrom(t, page)
    {
      ReachedAdmin(t, page, p);
    }
  }

  /** The two inner loops of isUserTeamAdmin: some membership on the page has a
      role field equal to the team-admin role. */
  method AdminAmong(members: seq<string>) returns (found: bool)
    ensures found <==> exists i :: 0 <= i < |members| && HasRole(members[i], TeamAdminRoleId)
  {
    var i := 0;
    while i < |members|
      invariant 0 <= i <= |members|
      invariant forall j :: 0 <= j < i ==> !HasRole(members[j], TeamAdminRoleId)
    {
      var roles := Fields(members[i]);
      var j := 0;
      while j < |roles|
        invariant 0 <= j <= |roles|
        invariant forall l :: 0 <= l < j ==> roles[l] != TeamAdminRoleId
      {
        if roles[j] == TeamAdminRoleId {
          return true;
        }
        j := j + 1;
      }
      i := i + 1;
    }
    return false;
  }

  /** isUserTeamAdmin with the page advanced after each full page. */
  method IsUserTeamAdmin(t: Memberships) returns (admin: bool)
    ensures admin == TeamAdminFrom(t, 0)
    ensures admin <==> exists p: nat :: FullPages(t, 0, p) && p !in t.failing && AdminOnPage(t, p)
  {
    TeamAdminFromMeans(t, 0);
    var page: nat := 0;
    while true
      invariant TeamAdminFrom(t, page) == TeamAdminFrom(t, 0)
      decreases |t.pages| - page
    {
      if page in t.failing {
        return false;
      }
      var teamMembers := Page(t, page);
      var found := AdminAmong(teamMembers);
      if found {
        return true;
      }
      if |teamMembers| != TeamMembersPerPage {
        return false;
      }
      page := page + 1;
    }
  }

  /** isUserTeamAdmin as written never leaves page 0: it is stuck when page 0
      is fetched, full, and holds no admin. */
  predicate StuckAsWritten(t: Memberships) {
    0 !in t.failing && !AdminOnPage(t, 0) && |Page(t, 0)| == TeamMembersPerPage
  }

  /** The answer of isUserTeamAdmin as written, where it ends: page 0 is fetched
      and holds an admin membership. */
  predicate AdminOnFirstPage(t: Memberships) {
    0 !in t.failing && AdminOnPage(t, 0)
  }

  /** Wherever the written scan ends, the intended scan gives the same answer. */
  lemma AsWrittenAgrees(t: Memberships)
    ensures !StuckAsWritten(t) ==> (TeamAdminFrom(t, 0) <==> AdminOnFirstPage(t))
  {
  }

  /** isUserTeamAdmin as written, run for at most `fuel` rounds: `None` when the
      rounds run out. It runs out whatever the fuel exactly when it is stuck,
      and otherwise answers from page 0 alone. */
  method IsUserTeamAdminAsWritten(t: Memberships, fuel: nat) returns (r: Option<bool>)
    ensures r.None? <==> fuel == 0 || StuckAsWritten(t)
    ensures r.Some? ==> r.value == AdminOnFirstPage(t)
  {
    var page: nat := 0;
    var rounds := 0;
    while rounds < fuel
      invariant page == 0 && rounds <= fuel
      invariant rounds > 0 ==> StuckAsWritten(t)
    {
      if page in t.failing {
        return Some(false);
      }
      var teamMembers := Page(t, page);
      var found := AdminAmong(teamMembers);
      if found {
        return Some(true);
      }
      if |teamMembers| != TeamMembersPerPage {
        return Some(false);
      }
      rounds := rounds + 1;
    }
    return None;
  }

  /** A user with 50 plain memberships on page 0 and an admin one on page 1:
      the intended scan finds the admin, the written one never ends. */
  function FiftyPlainThenAdmin(): Memberships {
    Memberships([seq(50, _ => "team_user"), ["team_admin"]], {})
  }

  lemma PlainIsNotAdmin()
    ensures !HasRole("team_user", TeamAdminRoleId)
    ensures HasRole("team_admin", TeamAdminRoleId)
  {
    LowercaseIsWord("team_user");
    LowercaseIsWord("team_admin");
    FieldsOfWord("team_user");
    FieldsOfWord("team_admin");
  }

  /** Role names made of lower-case letters and underscores are single fields. */
  lemma LowercaseIsWord(s: string)
    requires s != [] && forall i :: 0 <= i < |s| ==> 'a' <= s[i] <= 'z' || s[i] == '_'
    ensures IsWord(s)
  {
  }

  lemma TeamAdminScanNeverAdvances()
    ensures StuckAsWritten(FiftyPlainThenAdmin())
    ensures TeamAdminFrom(FiftyPlainThenAdmin(), 0)
  {
    var t := FiftyPlainThenAdmin();
    FirstPagePlain();
    SecondPageAdmin();
    assert FullPages(t, 0, 1);
    ReachedAdmin(t, 0, 1);
  }

  lemma FirstPagePlain()
    ensures var t := FiftyPlainThenAdmin();
            0 !in t.failing && |Page(t, 0)| == TeamMembersPerPage && !AdminOnPage(t, 0)
  {
    var t := FiftyPlainThenAdmin();
    var plain: seq<string> := seq(50, _ => "team_user");
    assert Page(t, 0) == plain;
    PlainIsNotAdmin();
    forall i | 0 <= i < |plain|
      ensures !HasRole(plain[i], TeamAdminRoleId)
    {
      assert plain[i] == "team_user";
    }
  }

  lemma SecondPageAdmin()
    ensures var t := FiftyPlainThenAdmin();
            1 !in t.failing && AdminOnPage(t, 1)
  {
    var t := FiftyPlainThenAdmin();
    assert Page(t, 1) == ["team_admin"];
    PlainIsNotAdmin();
    assert HasRole(Page(t, 1)[0], TeamAdminRoleId);
  }
}
