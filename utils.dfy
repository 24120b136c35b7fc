/** The helpers of server/utils.go: server-version normalisation, the JSON
    wrappers around the key-value store, direct messages from the bot, and the
    test for the bot's direct-message channels. */
module Utils {
  import opened Text
  import opened PluginApi

  // ---------------------------------------------------------------------------
  // getServerVersion

  /** Number of ASCII digits at the end of `s`. */
  function TrailingDigits(s: string): (n: nat)
    ensures n <= |s|
    ensures AllDigits(s[|s| - n..])
    ensures n < |s| ==> !IsDigit(s[|s| - n - 1])
  {
    if s == [] || !IsDigit(s[|s| - 1]) then 0
    else
      var t := s[..|s| - 1];
      var m := TrailingDigits(t);
      var n := 1 + m;
      var digits := s[|s| - n..];
      assert digits == t[|t| - m..] + [s[|s| - 1]];
      assert AllDigits(digits) by {
        forall k | 0 <= k < |digits|
          ensures IsDigit(digits[k])
        {
          if k < m {
            assert digits[k] == t[|t| - m..][k];
          }
        }
      }
      assert n < |s| ==> s[|s| - n - 1] == t[|t| - m - 1];
      n
  }

  /** Where the pattern `\.[1-9]\d*$` matches `s`: a dot at `i`, then a digit
      other than 0, then digits up to the end. */
  predicate PatchAt(s: string, i: int) {
    && 0 <= i && i + 1 < |s|
    && s[i] == '.'
    && '1' <= s[i + 1] <= '9'
    && AllDigits(s[i + 2..])
  }

  /** The trailing digits start at `m` when `s[m..]` is all digits and the
      character before `m`, if any, is not one. */
  lemma {:induction false} TrailingDigitsFrom(s: string, m: nat)
    requires m <= |s| && AllDigits(s[m..])
    requires m == 0 || !IsDigit(s[m - 1])
    ensures TrailingDigits(s) == |s| - m
    decreases |s|
  {
    if m < |s| {
      var t := s[..|s| - 1];
      assert s[|s| - 1] == s[m..][|s| - 1 - m];
      assert t[m..] == s[m..][..|s| - 1 - m];
      assert m == 0 || t[m - 1] == s[m - 1];
      TrailingDigitsFrom(t, m);
    }
  }

  /** The pattern matches at most once, right before the trailing digits. */
  lemma PatchAtTrailingDigits(s: string, i: int)
    requires PatchAt(s, i)
    ensures i == |s| - TrailingDigits(s) - 1
  {
    assert AllDigits(s[i + 1..]) by {
      assert forall k :: i + 1 <= k < |s| ==> s[k] == s[i + 1..][k - (i + 1)];
      assert forall k :: i + 2 <= k < |s| ==> s[k] == s[i + 2..][k - (i + 2)];
    }
    TrailingDigitsFrom(s, i + 1);
  }

  /** getServerVersion: `regexp.ReplaceAllString(v, ".0")` with the pattern
      `\.[1-9]\d*$`, which keeps only the major and minor numbers of a version. */
  function ServerVersion(v: string): (r: string)
    ensures forall i :: PatchAt(v, i) ==> r == v[..i] + ".0"
    ensures (forall i :: !PatchAt(v, i)) ==> r == v
  {
    var n := TrailingDigits(v);
    var j := |v| - n;
    if n >= 1 && j >= 1 && v[j - 1] == '.' && v[j] != '0' then
      assert PatchAt(v, j - 1) by {
        assert v[j + 1..] == v[j..][1..];
      }
      assert forall i :: PatchAt(v, i) ==> i == j - 1 by {
        forall i | PatchAt(v, i) ensures i == j - 1 { PatchAtTrailingDigits(v, i); }
      }
      v[..j - 1] + ".0"
    else
      assert forall i :: !PatchAt(v, i) by {
        forall i | PatchAt(v, i) ensures false { PatchAtTrailingDigits(v, i); }
      }
      v
  }

  /** Normalising twice changes nothing: a normalised version ends in ".0". */
  lemma ServerVersionIdempotent(v: string)
    ensures ServerVersion(ServerVersion(v)) == ServerVersion(v)
  {
    var r := ServerVersion(v);
    if k :| PatchAt(v, k) {
      assert r == v[..k] + ".0";
      assert r[|r| - 1..] == "0" && r[|r| - 2] == '.';
      TrailingDigitsFrom(r, |r| - 1);
      assert r[|r| - TrailingDigits(r)] == '0';
    }
  }

  lemma ServerVersionExamples()
    ensures ServerVersion("5.11.1") == "5.11.0"
    ensures ServerVersion("5.10.0") == "5.10.0"
    ensures ServerVersion("5.10.01") == "5.10.01"
    ensures ServerVersion("5.9.12") == "5.9.0"
  {
    assert PatchAt("5.11.1", 4);
    assert PatchAt("5.9.12", 3);
    assert forall i :: !PatchAt("5.10.0", i) by {
      forall i | PatchAt("5.10.0", i) ensures false { PatchAtTrailingDigits("5.10.0", i); }
    }
    assert forall i :: !PatchAt("5.10.01", i) by {
      forall i | PatchAt("5.10.01", i) ensures false { PatchAtTrailingDigits("5.10.01", i); }
    }
  }

  // ---------------------------------------------------------------------------
  // KVGet and KVSet: JSON on top of the raw store

  /** p.KVGet(key, &target): an absent entry leaves the target as it was, data
      that does not decode is an error, and so is a failing read. */
  function KvGetStep<T>(f: Faults, w: World, key: string, decode: Value -> Option<T>, target: T)
    : (res: (Result<T>, World))
    ensures res.1 == Logged(w, Get(key))
    ensures key in f.failGet ==> res.0 == Err(StoreError(Get(key)))
    ensures key !in f.failGet && key !in w.kv ==> res.0 == Ok(target)
    ensures key !in f.failGet && key in w.kv ==>
              res.0 == if decode(w.kv[key]).Some? then Ok(decode(w.kv[key]).value) else Err(DecodeError(key))
  {
    var (got, w1) := GetStep(f, w, key);
    if got.Err? then (Err(got.error), w1)
    else if got.value.None? then (Ok(target), w1)
    else
      var decoded := decode(got.value.value);
      if decoded.None? then (Err(DecodeError(key)), w1) else (Ok(decoded.value), w1)
  }

  /** p.KVSet(key, x): marshal, then store; a value json.Marshal refuses is
      an error before the store is called. */
  function KvSetStep(f: Faults, w: World, key: string, v: Value): (res: (Result<()>, World))
    ensures !Encodable(v) ==> res == (Err(MarshalError), w)
    ensures Encodable(v) ==> res == SetStep(f, w, key, v)
  {
    if !Encodable(v) then (Err(MarshalError), w) else SetStep(f, w, key, v)
  }

  /** What KVSet stores, KVGet reads back, whatever the target held. */
  lemma KvRoundTrip<T>(f: Faults, w: World, key: string, x: T, encode: T -> Value, decode: Value -> Option<T>, target: T)
    requires key !in f.failSet && key !in f.failGet
    requires Encodable(encode(x)) && decode(encode(x)) == Some(x)
    ensures KvGetStep(f, KvSetStep(f, w, key, encode(x)).1, key, decode, target).0 == Ok(x)
  {
  }

  method KvGet<T>(store: Store, key: string, decode: Value -> Option<T>, target: T) returns (r: Result<T>)
    modifies store
    ensures (r, store.State()) == KvGetStep(store.faults, old(store.State()), key, decode, target)
  {
    var got := store.Get(key);
    if got.Err? {
      return Err(got.error);
    }
    if got.value.None? {
      return Ok(target);
    }
    var decoded := decode(got.value.value);
    if decoded.None? {
      return Err(DecodeError(key));
    }
    return Ok(decoded.value);
  }

  method KvSet(store: Store, key: string, v: Value) returns (r: Result<()>)
    modifies store
    ensures (r, store.State()) == KvSetStep(store.faults, old(store.State()), key, v)
  {
    if !Encodable(v) {
      return Err(MarshalError);
    }
    r := store.Set(key, v);
  }

  // ---------------------------------------------------------------------------
  // CreateBotDMPost

  /** A post being prepared; `CreateBotDMPost` fills in its author and channel. */
  class Post {
    var userId: string
    var channelId: string
    const message: string
    const postType: string

    constructor (message: string, postType: string)
      ensures this.message == message && this.postType == postType
      ensures userId == "" && channelId == ""
    {
      this.message := message;
      this.postType := postType;
      userId := "";
      channelId := "";
    }
  }

  /** The post a direct message from the bot to `userId` sends, and the posts
      created afterwards. The channel lookup failing creates nothing. */
  function BotDMStep(chat: (map<string, string>, set<string>), created: seq<PostRecord>,
                     botUserId: string, userId: string, message: string, postType: string)
    : (res: (Result<PostRecord>, seq<PostRecord>))
    ensures userId !in chat.0 ==> res.0.Err? && res.1 == created
    ensures userId in chat.0 ==>
              var sent := PostRecord(botUserId, chat.0[userId], message, postType);
              && (res.0.Ok? <==> sent.channelId !in chat.1)
              && (res.0.Ok? ==> res.0.value == sent && res.1 == created + [sent])
              && (res.0.Err? ==> res.1 == created)
  {
    var channel := DirectChannelOf(chat.0, userId);
    if channel.Err? then (Err(channel.error), created)
    else CreatePostStep(chat.1, created, PostRecord(botUserId, channel.value, message, postType))
  }

  /** CreateBotDMPost: the post gets the bot as its author and the user's direct
      channel with the bot as its channel, then it is created. */
  method CreateBotDMPost(chat: Chat, botUserId: string, userId: string, post: Post) returns (r: Result<PostRecord>)
    modifies chat, post
    ensures (r, chat.created)
         == BotDMStep((chat.directChannels, chat.rejecting), old(chat.created), botUserId, userId, post.message, post.postType)
    ensures userId in chat.directChannels ==>
              post.userId == botUserId && post.channelId == chat.directChannels[userId]
    ensures userId !in chat.directChannels ==>
              post.userId == old(post.userId) && post.channelId == old(post.channelId)
  {
    var channel := chat.GetDirectChannel(userId);
    if channel.Err? {
      return Err(channel.error);
    }
    post.userId := botUserId;
    post.channelId := channel.value;
    r := chat.CreatePost(PostRecord(post.userId, post.channelId, post.message, post.postType));
  }

  // ---------------------------------------------------------------------------
  // IsBotDMChannel

  datatype ChannelType = Open | Private | Direct | Group

  predicate HasPrefix(s: string, p: string) {
    |p| <= |s| && s[..|p|] == p
  }

  predicate HasSuffix(s: string, p: string) {
    |p| <= |s| && s[|s| - |p|..] == p
  }

  /** IsBotDMChannel: a direct channel whose name starts with the bot's id and
      "__" or ends with "__" and the bot's id. */
  predicate IsBotDMChannel(botUserId: string, channelType: ChannelType, name: string) {
    channelType == Direct && (HasPrefix(name, botUserId + "__") || HasSuffix(name, "__" + botUserId))
  }

  /** Direct channels are named "<id>__<id>": the bot's channel with any user is
      recognised whichever id comes first, and no other kind of channel is. */
  lemma BotDMChannelNames(botUserId: string, userId: string, t: ChannelType)
    ensures IsBotDMChannel(botUserId, Direct, botUserId + "__" + userId)
    ensures IsBotDMChannel(botUserId, Direct, userId + "__" + botUserId)
    ensures t != Direct ==> !IsBotDMChannel(botUserId, t, botUserId + "__" + userId)
  {
    var a := botUserId + "__" + userId;
    assert a[..|botUserId + "__"|] == botUserId + "__";
    var b := userId + "__" + botUserId;
    assert b == userId + ("__" + botUserId);
    assert b[|b| - |"__" + botUserId|..] == "__" + botUserId;
  }

  /** Conversely, a recognised channel's name is the bot's id and "__" followed
      by something, or something followed by "__" and the bot's id. */
  lemma BotDMChannelDecomposes(botUserId: string, t: ChannelType, name: string)
    requires IsBotDMChannel(botUserId, t, name)
    ensures t == Direct
    ensures || name == botUserId + "__" + name[|botUserId| + 2..]
            || name == name[..|name| - |botUserId| - 2] + "__" + botUserId
  {
    var n := |botUserId| + 2;
    if HasPrefix(name, botUserId + "__") {
      assert name == name[..n] + name[n..];
    } else {
      assert name == name[..|name| - n] + name[|name| - n..];
    }
  }
}
