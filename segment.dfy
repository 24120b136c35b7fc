/** server/segment.go: the events sent to Segment, only while diagnostics are
    enabled, with the properties attached to them. */
module Segment {
  import opened Text
  import opened PluginApi
  import opened Analytics
  import opened Activate

  const NpsFeedback: string := "nps_feedback"
  const NpsScore: string := "nps_score"

  /** The properties every event carries, whatever `other` holds. */
  const BaseKeys: set<string> :=
    {"user_id", "timestamp", "server_version", "server_id", "server_install_date",
     "user_role", "user_create_at", "license_id", "license_sku"}

  /** isUserSystemAdmin: "system_admin" is one of the fields of the user's roles. */
  method IsUserSystemAdmin(user: User) returns (admin: bool)
    ensures admin <==> HasRole(user.roles, SystemAdminRoleId)
  {
    var roles := Fields(user.roles);
    var i := 0;
    while i < |roles|
      invariant 0 <= i <= |roles|
      invariant forall j :: 0 <= j < i ==> roles[j] != SystemAdminRoleId
    {
      if roles[i] == SystemAdminRoleId {
        return true;
      }
      i := i + 1;
    }
    return false;
  }

  /** getUserRole never returns when it reaches the written membership scan and
      that scan is stuck. */
  predicate RoleReturns(host: Host, user: User) {
    HasRole(user.roles, SystemAdminRoleId) || !StuckAsWritten(TeamsOf(host, user.id))
  }

  /** The role getUserRole reports: system admin first, then team admin, then user. */
  function UserRole(host: Host, user: User): (role: string)
    ensures role == SystemAdminRoleId <==> HasRole(user.roles, SystemAdminRoleId)
    ensures role == TeamAdminRoleId <==>
              !HasRole(user.roles, SystemAdminRoleId) && TeamAdminFrom(TeamsOf(host, user.id), 0)
    ensures role == "user" <==>
              !HasRole(user.roles, SystemAdminRoleId) && !TeamAdminFrom(TeamsOf(host, user.id), 0)
    // Wherever the source's getUserRole returns, this is the role it reports.
    ensures RoleReturns(host, user) ==>
              role == if HasRole(user.roles, SystemAdminRoleId) then SystemAdminRoleId
                      else if AdminOnFirstPage(TeamsOf(host, user.id)) then TeamAdminRoleId
                      else "user"
  {
    AsWrittenAgrees(TeamsOf(host, user.id));
    if HasRole(user.roles, SystemAdminRoleId) then SystemAdminRoleId
    else if TeamAdminFrom(TeamsOf(host, user.id), 0) then TeamAdminRoleId
    else "user"
  }

  method GetUserRole(host: Host, user: User) returns (role: string)
    ensures role == UserRole(host, user)
  {
    var systemAdmin := IsUserSystemAdmin(user);
    if systemAdmin {
      return SystemAdminRoleId;
    }
    var teamAdmin := IsUserTeamAdmin(TeamsOf(host, user.id));
    if teamAdmin {
      return TeamAdminRoleId;
    }
    return "user";
  }

  /** getEventProperties: the identifying properties, the host's answers with
      their fallbacks, then the entries of `other`, which win over base entries. */
  method GetEventProperties(host: Host, userId: string, timestamp: int, other: map<string, Prop>)
    returns (properties: map<string, Prop>)
    ensures properties.Keys == BaseKeys + other.Keys
    ensures forall k :: k in other ==> properties[k] == other[k]
    ensures "user_id" !in other ==> properties["user_id"] == PStr(userId)
    ensures "timestamp" !in other ==> properties["timestamp"] == PInt(timestamp)
    ensures "server_version" !in other ==> properties["server_version"] == PStr(host.serverVersion)
    ensures "server_id" !in other ==> properties["server_id"] == PStr(host.diagnosticId)
    ensures "server_install_date" !in other ==>
              properties["server_install_date"] == PInt(if host.installDate.Some? then host.installDate.value else 0)
    ensures "user_role" !in other ==>
              properties["user_role"] == PStr(if userId in host.users then UserRole(host, host.users[userId]) else "")
    ensures "user_create_at" !in other ==>
              properties["user_create_at"] == PInt(if userId in host.users then host.users[userId].createAt else 0)
    ensures "license_id" !in other ==>
              properties["license_id"] == PStr(if host.license.Some? then host.license.value.id else "")
    ensures "license_sku" !in other ==>
              properties["license_sku"] == PStr(if host.license.Some? then host.license.value.skuShortName else "")
  {
    var base := map[
      "user_id" := PStr(userId),
      "timestamp" := PInt(timestamp),
      "server_version" := PStr(host.serverVersion),
      "server_id" := PStr(host.diagnosticId)];
    if host.installDate.None? {
      base := base["server_install_date" := PInt(0)];
    } else {
      base := base["server_install_date" := PInt(host.installDate.value)];
    }
    if userId !in host.users {
      base := base["user_role" := PStr("")];
      base := base["user_create_at" := PInt(0)];
    } else {
      var user := host.users[userId];
      var role := GetUserRole(host, user);
      base := base["user_role" := PStr(role)];
      base := base["user_create_at" := PInt(user.createAt)];
    }
    if host.license.None? {
      base := base["license_id" := PStr("")];
      base := base["license_sku" := PStr("")];
    } else {
      base := base["license_id" := PStr(host.license.value.id)];
      base := base["license_sku" := PStr(host.license.value.skuShortName)];
    }
    assert base.Keys == BaseKeys;
    properties := Override(base, other);
  }

  /** A Track message: the event, the server's diagnostic id, and the properties. */
  datatype Track = Track(event: string, userId: string, properties: map<string, Prop>)

  /** The Segment client: the messages handed to it. */
  class Client {
    var tracked: seq<Track>

    constructor ()
      ensures tracked == []
    {
      tracked := [];
    }
  }

  /** sendToSegment: nothing is sent while diagnostics are disabled. */
  method SendToSegment(client: Client, enableDiagnostics: Option<bool>, host: Host,
                       event: string, properties: map<string, Prop>)
    modifies client
    ensures client.tracked == old(client.tracked)
                              + (if CanSendDiagnostics(enableDiagnostics)
                                 then [Track(event, host.diagnosticId, properties)] else [])
  {
    if !CanSendDiagnostics(enableDiagnostics) {
      return;
    }
    client.tracked := client.tracked + [Track(event, host.diagnosticId, properties)];
  }

  /** sendScore: at most one nps_score message, whose "score" property is the score. */
  method SendScore(client: Client, enableDiagnostics: Option<bool>, host: Host, score: int, userId: string, timestamp: int)
    modifies client
    ensures !CanSendDiagnostics(enableDiagnostics) ==> client.tracked == old(client.tracked)
    ensures CanSendDiagnostics(enableDiagnostics) ==>
              && |client.tracked| == |old(client.tracked)| + 1
              && client.tracked[..|old(client.tracked)|] == old(client.tracked)
              && var t := client.tracked[|old(client.tracked)|];
                 && t.event == NpsScore && t.userId == host.diagnosticId
                 && t.properties.Keys == BaseKeys + {"score"}
                 && t.properties["score"] == PInt(score)
  {
    var properties := GetEventProperties(host, userId, timestamp, map["score" := PInt(score)]);
    SendToSegment(client, enableDiagnostics, host, NpsScore, properties);
  }

  /** sendFeedback: at most one nps_feedback message carrying the feedback. */
  method SendFeedback(client: Client, enableDiagnostics: Option<bool>, host: Host,
                      feedback: string, userId: string, timestamp: int)
    modifies client
    ensures !CanSendDiagnostics(enableDiagnostics) ==> client.tracked == old(client.tracked)
    ensures CanSendDiagnostics(enableDiagnostics) ==>
              && |client.tracked| == |old(client.tracked)| + 1
              && client.tracked[..|old(client.tracked)|] == old(client.tracked)
              && var t := client.tracked[|old(client.tracked)|];
                 && t.event == NpsFeedback && t.userId == host.diagnosticId
                 && t.properties.Keys == BaseKeys + {"feedback"}
                 && t.properties["feedback"] == PStr(feedback)
                 && t.properties["user_id"] == PStr(userId)
                 && t.properties["timestamp"] == PInt(timestamp)
  {
    var properties := GetEventProperties(host, userId, timestamp, map["feedback" := PStr(feedback)]);
    SendToSegment(client, enableDiagnostics, host, NpsFeedback, properties);
  }
}
