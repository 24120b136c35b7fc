/** server/hooks.go: the server events the plugin reacts to. A new direct
    channel with the bot gets a description, and a message sent to the bot is
    forwarded as feedback and answered with a thank-you. */
module Hooks {
  import opened PluginApi
  import opened Utils
  import opened Analytics
  import opened Activate
  import opened Segment

  /** feedbackResponseBody in server/survey_templates.go. */
  const FeedbackResponseBody: string := ":tada: Thanks for helping us make Mattermost better!"
  const ThanksPostType: string := "custom_nps_thanks"

  /** A channel as ChannelHasBeenCreated receives it; only its header changes. */
  class Channel {
    const id: string
    const channelType: ChannelType
    const name: string
    var header: string

    constructor (id: string, channelType: ChannelType, name: string, header: string)
      ensures this.id == id && this.channelType == channelType && this.name == name && this.header == header
    {
      this.id := id;
      this.channelType := channelType;
      this.name := name;
      this.header := header;
    }
  }

  /** ChannelHasBeenCreated: only a direct channel with the bot gets the bot's
      description (SURVEYBOT_DESCRIPTION) as its header and is sent back to the
      server; a failing update is only logged. */
  method ChannelHasBeenCreated(botUserId: string, description: string, channel: Channel) returns (updated: bool)
    modifies channel
    ensures updated <==> IsBotDMChannel(botUserId, channel.channelType, channel.name)
    ensures channel.header == if updated then description else old(channel.header)
  {
    if !IsBotDMChannel(botUserId, channel.channelType, channel.name) {
      return false;
    }
    channel.header := description;
    return true;
  }

  /** A post as MessageHasBeenPosted receives it. */
  datatype IncomingPost = IncomingPost(userId: string, channelId: string, message: string, createAt: int)

  /** What GetChannel answers for a channel id. */
  datatype ChannelInfo = ChannelInfo(channelType: ChannelType, name: string)

  /** The lookups MessageHasBeenPosted makes, in order. */
  datatype Lookup = GetChannel(channelId: string) | GetUser(userId: string)

  /** The guards of MessageHasBeenPosted: diagnostics enabled, a post not by
      the bot, in a direct channel with the bot that can be found, by a user
      that can be found and is not a bot. */
  predicate Responds(enableDiagnostics: Option<bool>, botUserId: string, post: IncomingPost,
                     channels: map<string, ChannelInfo>, users: map<string, User>) {
    && CanSendDiagnostics(enableDiagnostics)
    && post.userId != botUserId
    && post.channelId in channels
    && IsBotDMChannel(botUserId, channels[post.channelId].channelType, channels[post.channelId].name)
    && post.userId in users
    && !users[post.userId].isBot
  }

  /** MessageHasBeenPosted. `channels` answers GetChannel and `host.users`
      answers GetUser; a missing id makes the lookup fail. */
  method MessageHasBeenPosted(enableDiagnostics: Option<bool>, botUserId: string, post: IncomingPost,
                              channels: map<string, ChannelInfo>, host: Host, client: Client, chat: Chat)
    returns (lookups: seq<Lookup>)
    modifies client, chat
    // The bot's own posts, and all posts while diagnostics are off, are ignored before any lookup.
    ensures !CanSendDiagnostics(enableDiagnostics) || post.userId == botUserId ==> lookups == []
    ensures CanSendDiagnostics(enableDiagnostics) && post.userId != botUserId ==>
              && 1 <= |lookups| <= 2
              && lookups[0] == GetChannel(post.channelId)
              && (|lookups| == 2 <==> post.channelId in channels
                                      && IsBotDMChannel(botUserId, channels[post.channelId].channelType,
                                                        channels[post.channelId].name))
              && (|lookups| == 2 ==> lookups[1] == GetUser(post.userId))
    // Nothing is sent or posted unless every guard passes.
    ensures !Responds(enableDiagnostics, botUserId, post, channels, host.users) ==>
              client.tracked == old(client.tracked) && chat.created == old(chat.created)
    // Otherwise one feedback message, and the thank-you reply as a direct message from the bot.
    ensures Responds(enableDiagnostics, botUserId, post, channels, host.users) ==>
              && |client.tracked| == |old(client.tracked)| + 1
              && client.tracked[..|old(client.tracked)|] == old(client.tracked)
              && var t := client.tracked[|old(client.tracked)|];
                 && t.event == NpsFeedback
                 && t.properties.Keys == Segment.BaseKeys + {"feedback"}
                 && t.properties["feedback"] == PStr(post.message)
                 && t.properties["user_id"] == PStr(post.userId)
                 && t.properties["timestamp"] == PInt(post.createAt)
    ensures Responds(enableDiagnostics, botUserId, post, channels, host.users) ==>
              chat.created == BotDMStep((chat.directChannels, chat.rejecting), old(chat.created), botUserId,
                                        post.userId, FeedbackResponseBody, ThanksPostType).1
  {
    lookups := [];
    if !CanSendDiagnostics(enableDiagnostics) {
      return;
    }
    if post.userId == botUserId {
      return;
    }
    lookups := lookups + [GetChannel(post.channelId)];
    if post.channelId !in channels {
      return;
    }
    var channel := channels[post.channelId];
    if !IsBotDMChannel(botUserId, channel.channelType, channel.name) {
      return;
    }
    lookups := lookups + [GetUser(post.userId)];
    if post.userId !in host.users {
      return;
    }
    if host.users[post.userId].isBot {
      return;
    }
    SendFeedback(client, enableDiagnostics, host, post.message, post.userId, post.createAt);
    var reply := new Post(FeedbackResponseBody, ThanksPostType);
    var _ := CreateBotDMPost(chat, botUserId, post.userId, reply);
  }
}
