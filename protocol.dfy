/**
 * The expression-only parts of the socket: the connection path, the names
 * of the protocol's events, restricted-channel classification, the auth
 * string sent when joining a private or presence channel, the frames the
 * socket sends and receives, and the self-echo test of the receive loop.
 */
module Protocol {
  import opened Wrappers

  /** The client identifier and version the socket reports, mimicking the JavaScript client. */
  const ClientId := "js"
  const Version := "1.7.1"
  const PathPrefix := "/app/"
  const QuerySuffix := "?client=" + ClientId + "&version=" + Version

  const GlobalChannelName := "pusher_global_channel"

  const EstablishedEvent := "pusher:connection_established"
  const DisconnectedEvent := "pusher:connection_disconnected"
  const ErrorEvent := "pusher:error"
  const SubscribeEvent := "pusher:subscribe"
  const UnsubscribeEvent := "pusher:unsubscribe"

  /** The three events the socket handles itself are distinct names. */
  lemma ReservedEventsDistinct()
    ensures EstablishedEvent != DisconnectedEvent && EstablishedEvent != ErrorEvent && DisconnectedEvent != ErrorEvent
  {
    assert |EstablishedEvent| == 29 && |DisconnectedEvent| == 30 && |ErrorEvent| == 12;
  }

  const PrivatePrefix := "private-"
  const PresencePrefix := "presence-"

  /** The user data of a subscription made without a user id: `{:user_id => '', :user_info => ''}` as JSON. */
  const AnonymousUserData := "{\"user_id\":\"\",\"user_info\":\"\"}"

  /** Errors the socket raises. */
  datatype Error =
    | ArgumentError  // bad application key, or `<<` called with one argument
    | NilSocketId    // signing before a socket id is known (`nil + ':'`)
    | NilSecret      // signing without a secret (HMAC keyed with `nil`)
    | ParseError     // a connection payload that does not parse as JSON
    | TypeError      // a parsed payload that cannot be indexed by `'socket_id'` (an Array, say)

  /** The request path of the connection URL: the application key between a fixed prefix and query. */
  function Path(key: string): (p: string)
    ensures |p| == |PathPrefix| + |key| + |QuerySuffix|
    ensures p[..|PathPrefix|] == PathPrefix
    ensures p[|PathPrefix|..|PathPrefix| + |key|] == key
    ensures p[|PathPrefix| + |key|..] == "?client=js&version=1.7.1"
  {
    PathPrefix + key + QuerySuffix
  }

  /** `s` is `prefix` followed by something. */
  predicate StartsWith(s: string, prefix: string)
    ensures StartsWith(s, prefix) <==> exists rest :: s == prefix + rest
  {
    if |prefix| <= |s| && s[..|prefix|] == prefix then
      assert s == prefix + s[|prefix|..];
      true
    else
      assert forall rest :: (prefix + rest)[..|prefix|] == prefix;
      false
  }

  /** `is_private_channel`: the name is `private-` followed by anything. */
  predicate IsPrivateChannel(name: string)
    ensures IsPrivateChannel(name) <==> exists rest :: name == "private-" + rest
  {
    StartsWith(name, PrivatePrefix)
  }

  /** `is_presence_channel`: the name is `presence-` followed by anything. */
  predicate IsPresenceChannel(name: string)
    ensures IsPresenceChannel(name) <==> exists rest :: name == "presence-" + rest
  {
    StartsWith(name, PresencePrefix)
  }

  /** A channel is restricted when it is private or presence; only those are signed. */
  predicate IsRestricted(name: string)
  {
    IsPrivateChannel(name) || IsPresenceChannel(name)
  }

  /** No channel name is both private and presence, so the order of the two tests does not matter. */
  lemma ClassificationExclusive(name: string)
    ensures !(IsPrivateChannel(name) && IsPresenceChannel(name))
  {
    if IsPrivateChannel(name) {
      assert name[2] == PrivatePrefix[2] == 'i';
      assert PresencePrefix[2] == 'e';
    }
  }

  /** The text that is signed: `socket_id:channel:user_data`. */
  function StringToSign(socketId: string, channel: string, userData: string): (r: string)
    ensures |r| == |socketId| + |channel| + |userData| + 2
    ensures r[..|socketId|] == socketId && r[|socketId|] == ':'
    ensures r[|socketId| + 1..|socketId| + 1 + |channel|] == channel && r[|socketId| + 1 + |channel|] == ':'
    ensures r[|socketId| + |channel| + 2..] == userData
  {
    socketId + ":" + channel + ":" + userData
  }

  /** Position of the first ':' in `s`, or |s| when there is none. */
  function FirstColon(s: string): (i: nat)
    ensures i <= |s|
    ensures i < |s| ==> s[i] == ':'
    ensures forall j :: 0 <= j < i ==> s[j] != ':'
  {
    if s == [] then 0 else if s[0] == ':' then 0 else 1 + FirstColon(s[1..])
  }

  lemma FirstColonOf(a: string, b: string)
    requires ':' !in a
    ensures FirstColon(a + ":" + b) == |a|
  {
    var s := a + ":" + b;
    assert s[|a|] == ':';
    assert forall j :: 0 <= j < |a| ==> s[j] == a[j];
  }

  lemma SplitAtColon(a: string, b: string, c: string, d: string)
    requires ':' !in a && ':' !in c
    requires a + ":" + b == c + ":" + d
    ensures a == c && b == d
  {
    var s := a + ":" + b;
    FirstColonOf(a, b);
    FirstColonOf(c, d);
    assert a == s[..|a|];
    assert c == s[..|c|];
    assert b == s[|a| + 1..];
    assert d == s[|c| + 1..];
  }

  /**
   * When neither the socket id nor the channel name contains ':', the signed
   * text determines the socket id, channel and user data it was built from:
   * a signature is bound to one subscription on one connection.
   */
  lemma StringToSignUnambiguous(id1: string, ch1: string, ud1: string, id2: string, ch2: string, ud2: string)
    requires ':' !in id1 && ':' !in id2 && ':' !in ch1 && ':' !in ch2
    requires StringToSign(id1, ch1, ud1) == StringToSign(id2, ch2, ud2)
    ensures id1 == id2 && ch1 == ch2 && ud1 == ud2
  {
    assert id1 + ":" + (ch1 + ":" + ud1) == StringToSign(id1, ch1, ud1);
    assert id2 + ":" + (ch2 + ":" + ud2) == StringToSign(id2, ch2, ud2);
    SplitAtColon(id1, ch1 + ":" + ud1, id2, ch2 + ":" + ud2);
    SplitAtColon(ch1, ud1, ch2, ud2);
  }

  /**
   * `get_private_auth` / `get_presence_auth` (the two are the same):
   * `key:HMAC-SHA256(secret, socket_id:channel:user_data)` in hex. The HMAC
   * is the library function `hmac`. Ruby raises when the socket id or the
   * secret is nil.
   */
  function SignedAuth(key: string, secret: Option<string>, socketId: Option<string>,
                      hmac: (string, string) -> string, channel: string, userData: string): (r: Result<string, Error>)
    ensures r.Failure? <==> socketId.None? || secret.None?
    ensures socketId.None? ==> r == Failure(NilSocketId)
    ensures socketId.Some? && secret.None? ==> r == Failure(NilSecret)
    ensures r.Success? ==> |r.value| > |key| && r.value[..|key| + 1] == key + ":" &&
                           r.value[|key| + 1..] == hmac(secret.value, StringToSign(socketId.value, channel, userData))
  {
    if socketId.None? then Failure(NilSocketId)
    else if secret.None? then Failure(NilSecret)
    else
      var signature := hmac(secret.value, StringToSign(socketId.value, channel, userData));
      Success(key + ":" + signature)
  }

  /**
   * `authorize`: the `auth_data` value of a subscribe frame. Nil for a public
   * channel; the signed value for a private or presence one.
   */
  function AuthData(key: string, secret: Option<string>, socketId: Option<string>,
                     hmac: (string, string) -> string, channel: string, userData: string): (r: Result<Option<string>, Error>)
    ensures !IsRestricted(channel) <==> r == Success(None)
    ensures IsRestricted(channel) ==>
              match SignedAuth(key, secret, socketId, hmac, channel, userData)
              case Success(a) => r == Success(Some(a))
              case Failure(e) => r == Failure(e)
  {
    if IsPrivateChannel(channel) || IsPresenceChannel(channel) then
      match SignedAuth(key, secret, socketId, hmac, channel, userData)
      case Success(a) => Success(Some(a))
      case Failure(e) => Failure(e)
    else Success(None)
  }

  /** What the socket hands to the transport (before JSON encoding). */
  datatype Payload =
    | SubscribeData(channel: string, auth: Option<string>, channelData: string)
    | UnsubscribeData(channel: string)
    | Raw(text: string)

  datatype Frame = Frame(event: string, data: Payload)

  function SubscribeFrame(channel: string, auth: Option<string>, userData: string): Frame
  {
    Frame(SubscribeEvent, SubscribeData(channel, auth, userData))
  }

  function UnsubscribeFrame(channel: string): Frame
  {
    Frame(UnsubscribeEvent, UnsubscribeData(channel))
  }

  /** A decoded inbound frame: its `event`, `data`, `channel` and `socket_id` members. */
  datatype Inbound = Inbound(event: string, data: string, channel: Option<string>, socketId: Option<string>)

  /**
   * The receive loop's filter: a frame carrying this connection's own socket
   * id is skipped. A frame without a socket id, or any frame before the
   * socket id is known, is never skipped.
   */
  predicate IsEcho(frame: Inbound, ownSocketId: Option<string>)
    ensures frame.socketId.None? || ownSocketId.None? ==> !IsEcho(frame, ownSocketId)
    ensures IsEcho(frame, ownSocketId) <==> frame.socketId.Some? && ownSocketId.Some? && frame.socketId.value == ownSocketId.value
  {
    frame.socketId.Some? && frame.socketId == ownSocketId
  }
}
