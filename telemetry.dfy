/** server/telemetry.go: the user events sent through the telemetry tracker and
    the properties attached to them. */
module Telemetry {
  import opened PluginApi
  import opened Analytics

  const NpsFeedback: string := "nps_feedback"
  const NpsScore: string := "nps_score"
  const NpsDisable: string := "nps_disable"

  /** The properties every event carries, whatever `other` holds. */
  const BaseKeys: set<string> :=
    {"timestamp", "server_install_date", "user_role", "user_create_at", "license_id", "license_sku"}

  /** getUserRole's switch: system admin first, then team admin, then user. */
  function UserRole(systemAdmin: bool, teamAdmin: bool): (role: string)
    ensures role == SystemAdminRoleId <==> systemAdmin
    ensures role == TeamAdminRoleId <==> !systemAdmin && teamAdmin
    ensures role == "user" <==> !systemAdmin && !teamAdmin
  {
    if systemAdmin then SystemAdminRoleId
    else if teamAdmin then TeamAdminRoleId
    else "user"
  }

  /** getUserRole never returns when it reaches the written membership scan and
      that scan is stuck. */
  predicate RoleReturns(host: Host, isSystemAdmin: User -> bool, user: User) {
    isSystemAdmin(user) || !StuckAsWritten(TeamsOf(host, user.id))
  }

  /** getUserRole; `isSystemAdmin` is the host's test, which is not part of this
      model. The role comes from the intended scan, and wherever the source's
      getUserRole returns it is the role the source reports. */
  method GetUserRole(host: Host, isSystemAdmin: User -> bool, user: User) returns (role: string)
    ensures role == UserRole(isSystemAdmin(user), TeamAdminFrom(TeamsOf(host, user.id), 0))
    ensures RoleReturns(host, isSystemAdmin, user) ==>
              role == UserRole(isSystemAdmin(user), AdminOnFirstPage(TeamsOf(host, user.id)))
  {
    AsWrittenAgrees(TeamsOf(host, user.id));
    if isSystemAdmin(user) {
      return SystemAdminRoleId;
    }
    var teamAdmin := IsUserTeamAdmin(TeamsOf(host, user.id));
    if teamAdmin {
      return TeamAdminRoleId;
    }
    return "user";
  }

  /** getEventProperties: the base properties with their fallbacks, then the
      entries of `other`, which win over base entries of the same name. */
  method GetEventProperties(host: Host, isSystemAdmin: User -> bool, userId: string, timestamp: int,
                            other: map<string, Prop>) returns (properties: map<string, Prop>)
    ensures properties.Keys == BaseKeys + other.Keys
    ensures forall k :: k in other ==> properties[k] == other[k]
    ensures "timestamp" !in other ==> properties["timestamp"] == PInt(timestamp)
    ensures "server_install_date" !in other ==>
              properties["server_install_date"] == PInt(if host.installDate.Some? then host.installDate.value else 0)
    ensures "user_role" !in other ==>
              properties["user_role"] ==
                if userId in host.users
                then PStr(UserRole(isSystemAdmin(host.users[userId]), TeamAdminFrom(TeamsOf(host, host.users[userId].id), 0)))
                else PStr("")
    ensures "user_create_at" !in other ==>
              properties["user_create_at"] == PInt(if userId in host.users then host.users[userId].createAt else 0)
    ensures "license_id" !in other ==>
              properties["license_id"] == PStr(if host.license.Some? then host.license.value.id else "")
    ensures "license_sku" !in other ==>
              properties["license_sku"] == PStr(if host.license.Some? then host.license.value.skuShortName else "")
  {
    var base := map["timestamp" := PInt(timestamp)];
    if host.installDate.None? {
      base := base["server_install_date" := PInt(0)];
    } else {
      base := base["server_install_date" := PInt(host.installDate.value)];
    }
    if userId !in host.users {
      base := base["user_role" := PStr("")];
      base := base["user_create_at" := PInt(0)];
    } else {
      var user := host.users[userId];
      var role := GetUserRole(host, isSystemAdmin, user);
      base := base["user_role" := PStr(role)];
      base := base["user_create_at" := PInt(user.createAt)];
    }
    if host.license.None? {
      base := base["license_id" := PStr("")];
      base := base["license_sku" := PStr("")];
    } else {
      base := base["license_id" := PStr(host.license.value.id)];
      base := base["license_sku" := PStr(host.license.value.skuShortName)];
    }
    assert base.Keys == BaseKeys;
    properties := Override(base, other);
  }

  /** A user event handed to the tracker. */
  datatype Event = Event(name: string, userId: string, properties: map<string, Prop>)

  /** The tracker: the events handed to TrackUserEvent, whose errors are ignored. */
  class Tracker {
    var events: seq<Event>

    constructor ()
      ensures events == []
    {
      events := [];
    }

    method Track(e: Event)
      modifies this
      ensures events == old(events) + [e]
    {
      events := events + [e];
    }
  }

  /** sendScore: one nps_score event whose "score" property is the score. */
  method SendScore(tracker: Tracker, host: Host, isSystemAdmin: User -> bool, score: int, userId: string, timestamp: int)
    modifies tracker
    ensures |tracker.events| == |old(tracker.events)| + 1
    ensures tracker.events[..|old(tracker.events)|] == old(tracker.events)
    ensures var e := tracker.events[|old(tracker.events)|];
            && e.name == NpsScore && e.userId == userId
            && e.properties.Keys == BaseKeys + {"score"}
            && e.properties["score"] == PInt(score)
  {
    var properties := GetEventProperties(host, isSystemAdmin, userId, timestamp, map["score" := PInt(score)]);
    tracker.Track(Event(NpsScore, userId, properties));
  }

  /** sendFeedback: one nps_feedback event carrying the feedback and the email. */
  method SendFeedback(tracker: Tracker, host: Host, isSystemAdmin: User -> bool,
                      feedback: string, email: string, userId: string, timestamp: int)
    modifies tracker
    ensures |tracker.events| == |old(tracker.events)| + 1
    ensures tracker.events[..|old(tracker.events)|] == old(tracker.events)
    ensures var e := tracker.events[|old(tracker.events)|];
            && e.name == NpsFeedback && e.userId == userId
            && e.properties.Keys == BaseKeys + {"feedback", "email"}
            && e.properties["feedback"] == PStr(feedback)
            && e.properties["email"] == PStr(email)
  {
    var properties := GetEventProperties(host, isSystemAdmin, userId, timestamp,
                                         map["feedback" := PStr(feedback), "email" := PStr(email)]);
    tracker.Track(Event(NpsFeedback, userId, properties));
  }

  /** sendUserDisabledEvent: one nps_disable event with the base properties only. */
  method SendUserDisabledEvent(tracker: Tracker, host: Host, isSystemAdmin: User -> bool, userId: string, timestamp: int)
    modifies tracker
    ensures |tracker.events| == |old(tracker.events)| + 1
    ensures tracker.events[..|old(tracker.events)|] == old(tracker.events)
    ensures var e := tracker.events[|old(tracker.events)|];
            e.name == NpsDisable && e.userId == userId && e.properties.Keys == BaseKeys
  {
    var properties := GetEventProperties(host, isSystemAdmin, userId, timestamp, map[]);
    tracker.Track(Event(NpsDisable, userId, properties));
  }
}
