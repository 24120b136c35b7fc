/** webapp/src/browser_routing.js: the URL path of a channel, which
    navigateToChannel pushes onto the browser history. */
module BrowserRouting {

  /** The team part: the team name with one leading slash removed. */
  function TeamPrefix(team: string): (prefix: string)
    ensures |team| > 0 && team[0] == '/' ==> team == "/" + prefix
    ensures !(|team| > 0 && team[0] == '/') ==> prefix == team
  {
    if |team| > 0 && team[0] == '/' then team[1..] else team
  }

  /** `/${teamPrefix}/channels/${channelName}`: a rooted path made of the team
      part, "/channels/" and the channel name, each of which can be read back. */
  function ChannelPath(team: string, channelName: string): (path: string)
    ensures |path| == |TeamPrefix(team)| + 11 + |channelName| && path[0] == '/'
    ensures var n := |TeamPrefix(team)|;
            && path[1..n + 1] == TeamPrefix(team)
            && path[n + 1..n + 11] == "/channels/"
            && path[n + 11..] == channelName
  {
    "/" + TeamPrefix(team) + "/channels/" + channelName
  }

  /** A team given with or without its slash leads to the same channel. */
  lemma LeadingSlashOptional(team: string, channelName: string)
    requires !(|team| > 0 && team[0] == '/')
    ensures ChannelPath("/" + team, channelName) == ChannelPath(team, channelName)
  {
    assert ("/" + team)[1..] == team;
  }

  /** Only one slash is removed: "//t" keeps one, so the path starts with two. */
  lemma OneSlashStripped(channelName: string)
    ensures ChannelPath("//t", channelName) == "//t/channels/" + channelName
  {
    assert TeamPrefix("//t") == "/t";
  }
}
