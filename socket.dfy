/**
 * The socket: one connection to the service, the registry of its
 * subscriptions, and a global channel that sees every inbound event.
 *
 * The transport is replaced by two traces: `sent` records every frame
 * handed to the connection, and `fired` every run of an application
 * callback. The receive loop is replaced by `HandleFrame`, one step per
 * decoded inbound frame. Library calls the socket makes (JSON encoding of
 * user data, HMAC-SHA256, JSON decoding of the connection payload) are the
 * functions of a `Library` value given at construction.
 */
module Client {
  import opened Wrappers
  import opened Entities
  import opened Registry
  import opened Protocol

  /** The application key argument, which must be a String. */
  datatype KeyArgument = Str(value: string) | NotAString

  /** `options[:secret]` and `options[:encrypted]`. */
  datatype Options = Options(secret: Option<string>, encrypted: bool)

  /** The library functions the socket calls. */
  datatype Library = Library(
    userDataJson: (string, map<string, string>) -> string,  // {:user_id => id, :user_info => options}.to_json
    hmacHex: (string, string) -> string,                     // HMAC::SHA256.hexdigest(secret, text)
    socketIdOf: string -> Result<Option<string>, Error>)     // JSON.parse(data)['socket_id']; ParseError when the parse raises, any other error when the indexing does

  /** The check of the constructor: the key is a non-empty String. */
  predicate IsValidKey(k: KeyArgument)
    ensures IsValidKey(k) <==> k.Str? && k.value != ""
    ensures IsValidKey(k) ==> |Path(k.value)| > |PathPrefix| + |QuerySuffix|
  {
    k.Str? && |k.value| >= 1
  }

  /** The handler the socket binds on its global channel for `event`, if any. */
  function HandlerFor(event: string): Option<Callback>
  {
    if event == EstablishedEvent then Some(ConnectionEstablished)
    else if event == DisconnectedEvent then Some(ConnectionDisconnected)
    else if event == ErrorEvent then Some(ErrorLogger)
    else None
  }

  predicate Installed(m: map<string, seq<Callback>>, event: string)
  {
    event in m && |m[event]| > 0 && HandlerFor(event) == Some(m[event][0])
  }

  /**
   * The global channel's callbacks as the constructor leaves them and `bind`
   * keeps them: each handler first under its own event, application
   * callbacks everywhere else.
   */
  predicate HandlersInstalled(m: map<string, seq<Callback>>)
  {
    && (forall e, k :: e in m && 0 <= k < |m[e]| ==>
          m[e][k].User? || (k == 0 && HandlerFor(e) == Some(m[e][k])))
    && Installed(m, EstablishedEvent)
    && Installed(m, DisconnectedEvent)
    && Installed(m, ErrorEvent)
  }

  /** The application callbacks among `cbs`, in order. */
  function UserIds(cbs: seq<Callback>): (r: seq<nat>)
    ensures |r| <= |cbs|
    ensures forall id :: id in r <==> User(id) in cbs
  {
    if cbs == [] then []
    else (if cbs[0].User? then [cbs[0].id] else []) + UserIds(cbs[1..])
  }

  /** When every callback is an application callback, each one is run, in order. */
  lemma {:induction false} UserIdsOfApplicationCallbacks(cbs: seq<Callback>)
    requires forall k :: 0 <= k < |cbs| ==> cbs[k].User?
    ensures |UserIds(cbs)| == |cbs|
    ensures forall k :: 0 <= k < |cbs| ==> UserIds(cbs)[k] == cbs[k].id
  {
    if cbs != [] {
      UserIdsOfApplicationCallbacks(cbs[1..]);
    }
  }

  /** Runs application callbacks `cbs` on `data` in order; returns the runs. */
  method RunApplicationCallbacks(cbs: seq<Callback>, data: string) returns (runs: seq<Firing>)
    requires forall k :: 0 <= k < |cbs| ==> cbs[k].User?
    ensures runs == Firings(UserIds(cbs), data)
  {
    runs := [];
    var i := 0;
    while i < |cbs|
      invariant 0 <= i <= |cbs|
      invariant |runs| == i
      invariant forall k :: 0 <= k < i ==> runs[k] == Firing(cbs[k].id, data)
    {
      runs := runs + [Firing(cbs[i].id, data)];
      i := i + 1;
    }
    UserIdsOfApplicationCallbacks(cbs);
  }

  /** What `dispatch_with_all` on each of `subs` records, in the order of `subs`. */
  function ChannelFirings(subs: seq<Subscription>, event: string, data: string): seq<Firing>
    reads subs
  {
    if subs == [] then []
    else
      var last := subs[|subs| - 1];
      ChannelFirings(subs[..|subs| - 1], event, data) + Firings(BoundTo(last.callbacks, event), data)
  }

  /** Dispatching to one more channel appends its callbacks' runs. */
  lemma ChannelFiringsSnoc(subs: seq<Subscription>, i: nat, event: string, data: string)
    requires i < |subs|
    ensures ChannelFirings(subs[..i + 1], event, data) ==
            ChannelFirings(subs[..i], event, data) + Firings(BoundTo(subs[i].callbacks, event), data)
  {
    assert subs[..i + 1][..i] == subs[..i];
  }

  /** `dispatch_with_all` on each of `subs` in turn: the runs of each one's callbacks bound under `event`. */
  method DispatchChannels(subs: seq<Subscription>, event: string, data: string) returns (runs: seq<Firing>)
    ensures runs == ChannelFirings(subs, event, data)
  {
    runs := [];
    var i := 0;
    while i < |subs|
      invariant 0 <= i <= |subs|
      invariant runs == ChannelFirings(subs[..i], event, data)
    {
      ChannelFiringsSnoc(subs, i, event, data);
      runs := runs + Firings(BoundTo(subs[i].callbacks, event), data);
      i := i + 1;
    }
    assert subs[..i] == subs;
  }

  class Socket {
    const key: string
    const path: string
    const secret: Option<string>
    const lib: Library
    const subscriptions: Subscriptions
    const globalChannel: Channel
    var encrypted: bool
    var secure: bool
    var connected: bool
    var socketId: Option<string>
    /** Frames handed to the connection, oldest first. */
    var sent: seq<Frame>
    /** Application callbacks run, oldest first. */
    var fired: seq<Firing>

    ghost predicate Valid()
      reads subscriptions, globalChannel
    {
      && |key| >= 1
      && path == Path(key)
      && subscriptions.Valid()
      && globalChannel.global
      && !globalChannel.subscribed
      && HandlersInstalled(globalChannel.callbacks)
    }

    /** The registry's entries, oldest first. */
    function Entries(): seq<Subscription>
      reads subscriptions
    {
      subscriptions.entries
    }

    /** The state `initialize` leaves behind. */
    ghost predicate IsInitial(applicationKey: string, options: Options, library: Library)
      reads this, subscriptions, globalChannel
    {
      && key == applicationKey && path == Path(applicationKey)
      && secret == options.secret && encrypted == options.encrypted && !secure
      && lib == library
      && !connected && socketId == None
      && subscriptions.entries == []
      && globalChannel.name == GlobalChannelName
      && globalChannel.callbacks == map[EstablishedEvent := [ConnectionEstablished],
                                        DisconnectedEvent := [ConnectionDisconnected],
                                        ErrorEvent := [ErrorLogger]]
      && sent == [] && fired == []
    }

    /** `initialize` past its argument check; `Create` performs the check. */
    constructor (applicationKey: string, options: Options, library: Library)
      requires |applicationKey| >= 1
      ensures Valid() && IsInitial(applicationKey, options, library)
      ensures fresh(subscriptions) && fresh(globalChannel)
    {
      path := Path(applicationKey);
      key := applicationKey;
      secret := options.secret;
      lib := library;
      socketId := None;
      subscriptions := new Subscriptions();
      var g := new Channel(GlobalChannelName);
      g.global := true;
      secure := false;
      connected := false;
      encrypted := options.encrypted;
      ReservedEventsDistinct();
      ghost var m := g.callbacks;
      g.Bind(EstablishedEvent, ConnectionEstablished);
      assert BoundTo(m, EstablishedEvent) + [ConnectionEstablished] == [ConnectionEstablished];
      m := g.callbacks;
      g.Bind(DisconnectedEvent, ConnectionDisconnected);
      assert BoundTo(m, DisconnectedEvent) + [ConnectionDisconnected] == [ConnectionDisconnected];
      m := g.callbacks;
      g.Bind(ErrorEvent, ErrorLogger);
      assert BoundTo(m, ErrorEvent) + [ErrorLogger] == [ErrorLogger];
      globalChannel := g;
      sent, fired := [], [];
    }

    /** `Socket.new`: raises `ArgumentError` unless the key is a non-empty String. */
    static method Create(applicationKey: KeyArgument, options: Options, library: Library)
      returns (r: Result<Socket, Error>)
      ensures r.Failure? <==> !IsValidKey(applicationKey)
      ensures r.Failure? ==> r.error == ArgumentError
      ensures r.Success? ==> fresh(r.value) && fresh(r.value.subscriptions) && fresh(r.value.globalChannel) &&
                             r.value.Valid() && r.value.IsInitial(applicationKey.value, options, library)
    {
      if !IsValidKey(applicationKey) {
        return Failure(ArgumentError);
      }
      var s := new Socket(applicationKey.value, options, library);
      r := Success(s);
    }

    /** The callbacks bound to the global channel under `event`. */
    function GlobalCallbacks(event: string): seq<Callback>
      reads globalChannel
    {
      BoundTo(globalChannel.callbacks, event)
    }

    /** The `auth` value for `sub` with the socket's key and secret and socket id `sid`. */
    function AuthOf(sid: Option<string>, sub: Subscription): Result<Option<string>, Error>
    {
      AuthData(key, secret, sid, lib.hmacHex, sub.channel, sub.userData)
    }

    /** Position of the first of `subs` whose auth raises, or |subs| when none does. */
    function FirstAuthFailure(sid: Option<string>, subs: seq<Subscription>): (k: nat)
      ensures k <= |subs|
      ensures forall j :: 0 <= j < k ==> AuthOf(sid, subs[j]).Success?
      ensures k < |subs| ==> AuthOf(sid, subs[k]).Failure?
    {
      if subs == [] then 0
      else if AuthOf(sid, subs[0]).Failure? then 0
      else 1 + FirstAuthFailure(sid, subs[1..])
    }

    /** The subscribe frames sent for `subs`: one per entry, in order, each with its channel, auth and user data. */
    function SubscribeFrames(sid: Option<string>, subs: seq<Subscription>): (r: seq<Frame>)
      requires forall j :: 0 <= j < |subs| ==> AuthOf(sid, subs[j]).Success?
      ensures |r| == |subs|
    {
      if subs == [] then []
      else
        var last := subs[|subs| - 1];
        SubscribeFrames(sid, subs[..|subs| - 1]) + [SubscribeFrame(last.channel, AuthOf(sid, last).value, last.userData)]
    }

    /**
     * The effect of the handler the socket bound under `event`, run on
     * `data`: for `pusher:connection_established` a payload that does not
     * parse raises before anything changes, and one whose `socket_id`
     * cannot be read raises once the socket is connected; otherwise the
     * socket is connected, records the socket id and resubscribes every
     * entry in registry order, stopping at the first whose auth raises; for
     * `pusher:connection_disconnected` every entry is unsubscribed; for any
     * other event nothing changes. The registry itself is never changed.
     */
    twostate predicate HandlerRan(event: string, data: string, new r: Outcome<Error>)
      reads this`connected, this`socketId, this`sent, subscriptions, subscriptions.entries
    {
      if event == EstablishedEvent then
        match lib.socketIdOf(data)
        case Failure(e) => r == Fail(e) && if e == ParseError then Untouched() else ConnectedOnly()
        case Success(sid) => Resubscribed(sid, r)
      else if event == DisconnectedEvent then r == Pass && Unsubscribed()
      else r == Pass && Untouched()
    }

    /** Connected with socket id `sid`; the entries resubscribed in order up to the first whose auth raises. */
    twostate predicate Resubscribed(new sid: Option<string>, new r: Outcome<Error>)
      reads this`connected, this`socketId, this`sent, subscriptions, subscriptions.entries
    {
      && subscriptions.entries == old(subscriptions.entries)
      && connected && socketId == sid
      && var k := FirstAuthFailure(socketId, subscriptions.entries);
         && (r.Pass? <==> k == |subscriptions.entries|)
         && (r.Fail? ==> r.error == AuthOf(socketId, subscriptions.entries[k]).error)
         && sent == old(sent) + SubscribeFrames(socketId, subscriptions.entries[..k])
         && SubscribedUpTo(subscriptions.entries, k)
    }

    /** The first `k` entries subscribed; the subscribed flag of the others as it was. */
    twostate predicate SubscribedUpTo(subs: seq<Subscription>, k: nat)
      reads subs
    {
      forall j :: 0 <= j < |subs| ==> subs[j].subscribed == (j < k || old(subs[j].subscribed))
    }

    /** Every entry unsubscribed; nothing else changed. */
    twostate predicate Unsubscribed()
      reads this`connected, this`socketId, this`sent, subscriptions, subscriptions.entries
    {
      && subscriptions.entries == old(subscriptions.entries)
      && connected == old(connected) && socketId == old(socketId) && sent == old(sent)
      && forall x :: x in subscriptions.entries ==> !x.subscribed
    }

    /** Connected; socket id, sent frames and entries as they were. */
    twostate predicate ConnectedOnly()
      reads this`connected, this`socketId, this`sent, subscriptions, subscriptions.entries
    {
      && subscriptions.entries == old(subscriptions.entries)
      && connected && socketId == old(socketId) && sent == old(sent)
      && forall x :: x in subscriptions.entries ==> x.subscribed == old(x.subscribed)
    }

    /** Connection state, sent frames and entries all as they were. */
    twostate predicate Untouched()
      reads this`connected, this`socketId, this`sent, subscriptions, subscriptions.entries
    {
      && subscriptions.entries == old(subscriptions.entries)
      && connected == old(connected) && socketId == old(socketId) && sent == old(sent)
      && forall x :: x in subscriptions.entries ==> x.subscribed == old(x.subscribed)
    }

    /** `send_event`: hands one frame to the connection. */
    method SendEvent(event: string, data: Payload)
      modifies this`sent
      ensures sent == old(sent) + [Frame(event, data)]
    {
      sent := sent + [Frame(event, data)];
    }

    /** `bind`: binds application callback `id` to the global channel under `event`. */
    method Bind(event: string, id: nat)
      requires Valid()
      modifies globalChannel
      ensures Valid()
      ensures globalChannel.callbacks == old(globalChannel.callbacks)[event := old(GlobalCallbacks(event)) + [User(id)]]
    {
      globalChannel.Bind(event, User(id));
    }

    /** `authorize_callback`: sends the subscribe frame for `sub` and marks it subscribed. */
    method AuthorizeCallback(sub: Subscription, auth: Option<string>)
      modifies this`sent, sub`subscribed
      ensures sent == old(sent) + [SubscribeFrame(sub.channel, auth, sub.userData)]
      ensures sub.subscribed
    {
      SendEvent(SubscribeEvent, SubscribeData(sub.channel, auth, sub.userData));
      sub.AcknowledgeSubscription();
    }

    /** `authorize`: computes the auth value for `sub`, then runs `authorize_callback` with it. */
    method Authorize(sub: Subscription) returns (r: Outcome<Error>)
      modifies this`sent, sub`subscribed
      ensures AuthOf(socketId, sub).Success? ==>
                r == Pass && sub.subscribed &&
                sent == old(sent) + [SubscribeFrame(sub.channel, AuthOf(socketId, sub).value, sub.userData)]
      ensures AuthOf(socketId, sub).Failure? ==>
                r == Fail(AuthOf(socketId, sub).error) && sub.subscribed == old(sub.subscribed) && sent == old(sent)
    {
      match AuthData(key, secret, socketId, lib.hmacHex, sub.channel, sub.userData)
      case Failure(e) =>
        r := Fail(e);
      case Success(auth) =>
        AuthorizeCallback(sub, auth);
        r := Pass;
    }

    /** `subscribe_existing`: authorizes `sub` when connected, does nothing otherwise. */
    method SubscribeExisting(sub: Subscription) returns (r: Outcome<Error>)
      modifies this`sent, sub`subscribed
      ensures !connected ==> r == Pass && sub.subscribed == old(sub.subscribed) && sent == old(sent)
      ensures connected && AuthOf(socketId, sub).Success? ==>
                r == Pass && sub.subscribed &&
                sent == old(sent) + [SubscribeFrame(sub.channel, AuthOf(socketId, sub).value, sub.userData)]
      ensures connected && AuthOf(socketId, sub).Failure? ==>
                r == Fail(AuthOf(socketId, sub).error) && sub.subscribed == old(sub.subscribed) && sent == old(sent)
    {
      r := Pass;
      if connected {
        r := Authorize(sub);
      }
    }

    /** The frames for `subs` are one per entry, in order, each with its channel, auth and user data. */
    lemma {:induction false} SubscribeFramesPointwise(sid: Option<string>, subs: seq<Subscription>)
      requires forall j :: 0 <= j < |subs| ==> AuthOf(sid, subs[j]).Success?
      ensures forall j :: 0 <= j < |subs| ==>
                SubscribeFrames(sid, subs)[j] == SubscribeFrame(subs[j].channel, AuthOf(sid, subs[j]).value, subs[j].userData)
    {
      if subs != [] {
        SubscribeFramesPointwise(sid, subs[..|subs| - 1]);
      }
    }

    /** Extending `subs[..i]` by one entry extends its frames by that entry's frame. */
    lemma SubscribeFramesSnoc(sid: Option<string>, subs: seq<Subscription>, i: nat)
      requires i < |subs|
      requires forall j :: 0 <= j <= i ==> AuthOf(sid, subs[j]).Success?
      ensures SubscribeFrames(sid, subs[..i + 1]) ==
              SubscribeFrames(sid, subs[..i]) + [SubscribeFrame(subs[i].channel, AuthOf(sid, subs[i]).value, subs[i].userData)]
    {
      assert subs[..i + 1][..i] == subs[..i];
    }

    /**
     * `subscribe_all`: `subscribe_existing` on every entry in registry order.
     * An auth that raises ends the walk; the entries before it are sent.
     */
    method SubscribeAll() returns (r: Outcome<Error>)
      requires subscriptions.Valid()
      modifies this`sent, subscriptions.entries`subscribed
      ensures !connected ==> r == Pass && sent == old(sent) && SubscribedUpTo(Entries(), 0)
      ensures connected ==>
                var k := FirstAuthFailure(socketId, Entries());
                && (r.Pass? <==> k == |Entries()|)
                && (r.Fail? ==> r.error == AuthOf(socketId, Entries()[k]).error)
                && sent == old(sent) + SubscribeFrames(socketId, Entries()[..k])
                && SubscribedUpTo(Entries(), k)
    {
      var subs := subscriptions.entries;
      ghost var online, sid := connected, socketId;
      ghost var k := FirstAuthFailure(sid, subs);
      r := Pass;
      var i := 0;
      while i < |subs|
        invariant 0 <= i <= |subs|
        invariant r == Pass
        invariant !online ==> sent == old(sent)
        invariant online ==> i <= k && sent == old(sent) + SubscribeFrames(sid, subs[..i])
        invariant forall j :: 0 <= j < |subs| ==> subs[j].subscribed == ((online && j < i) || old(subs[j].subscribed))
      {
        var current := subs[i];
        UniqueEntriesDistinct(subs, i);
        r := SubscribeExisting(current);
        if r.Fail? {
          assert i == k;
          return;
        }
        if online {
          SubscribeFramesSnoc(sid, subs, i);
        }
        i := i + 1;
      }
      assert subs[..i] == subs;
    }

    /**
     * `subscribe`: registers (channelName, user data) and, when connected,
     * sends its subscribe frame. Without a user id the user data is the fixed
     * anonymous value, so repeating the call finds the same entry. The entry
     * is registered even when signing it then raises.
     */
    method Subscribe(channelName: string, userId: Option<string>, userInfo: map<string, string>)
      returns (sub: Subscription, r: Outcome<Error>)
      requires Valid()
      modifies this`sent, subscriptions, subscriptions.entries`subscribed
      ensures Valid()
      ensures sub.channel == channelName
      ensures sub.userData == if userId.Some? then lib.userDataJson(userId.value, userInfo) else AnonymousUserData
      ensures var i := IndexOfKey(old(Entries()), sub.channel, sub.userData);
              if i < |old(Entries())| then Entries() == old(Entries()) && sub == old(Entries())[i]
              else Entries() == old(Entries()) + [sub] && fresh(sub) && sub.callbacks == map[] && !sub.global
      ensures forall x :: x in old(Entries()) && x != sub ==> x.subscribed == old(x.subscribed)
      ensures !connected ==>
                r == Pass && sent == old(sent) && sub.subscribed == (sub in old(Entries()) && old(sub.subscribed))
      ensures connected && AuthOf(socketId, sub).Success? ==>
                r == Pass && sub.subscribed &&
                sent == old(sent) + [SubscribeFrame(sub.channel, AuthOf(socketId, sub).value, sub.userData)]
      ensures connected && AuthOf(socketId, sub).Failure? ==>
                r == Fail(AuthOf(socketId, sub).error) && sent == old(sent) &&
                sub.subscribed == (sub in old(Entries()) && old(sub.subscribed))
    {
      var userData;
      if userId.Some? {
        userData := lib.userDataJson(userId.value, userInfo);
      } else {
        userData := AnonymousUserData;
      }
      sub := subscriptions.Add(channelName, userData);
      r := Pass;
      if connected {
        r := Authorize(sub);
      }
    }

    /**
     * `unsubscribe`: removes the entry keyed (channelName, userData) and, when
     * connected, sends an unsubscribe frame carrying only the channel name,
     * whether or not an entry was removed. Returns the registry's array.
     */
    method Unsubscribe(channelName: string, userData: string) returns (r: seq<Subscription>)
      requires Valid()
      modifies this`sent, subscriptions
      ensures Valid()
      ensures var i := IndexOfKey(old(Entries()), channelName, userData);
              Entries() == if i < |old(Entries())| then old(Entries())[..i] + old(Entries())[i + 1..]
                           else old(Entries())
      ensures r == Entries()
      ensures sent == old(sent) + if connected then [UnsubscribeFrame(channelName)] else []
    {
      r := subscriptions.Remove(channelName, userData);
      if connected {
        SendEvent(UnsubscribeEvent, UnsubscribeData(channelName));
      }
    }

    /** `disconnect`: a connected socket stops being connected; otherwise nothing happens. */
    method Disconnect()
      modifies this`connected
      ensures !connected
    {
      if connected {
        connected := false;
      }
    }

    /** `[]`: the first entry on `channelName`. Its create branch calls the two-argument `<<` with one argument and raises. */
    function Lookup(channelName: string): (r: Result<Subscription, Error>)
      reads this, subscriptions
      ensures r.Failure? <==> forall x :: x in Entries() ==> x.channel != channelName
      ensures r.Failure? ==> r.error == ArgumentError
      ensures r.Success? ==> r.value in Entries() && r.value.channel == channelName &&
                             forall j :: 0 <= j < |Entries()| && Entries()[j].channel == channelName ==>
                               r.value in Entries()[..j + 1]
    {
      match Find(subscriptions.entries, channelName)
      case Some(s) => Success(s)
      case None => Failure(ArgumentError)
    }

    /**
     * `[]` as intended: find the first entry on `channelName`, or register
     * one with the anonymous user data, so callbacks can be bound before
     * `subscribe`; a later `subscribe(channelName)` finds the same entry.
     */
    method LookupOrCreate(channelName: string) returns (sub: Subscription)
      requires Valid()
      modifies subscriptions
      ensures Valid()
      ensures Lookup(channelName) == Success(sub)
      ensures old(Lookup(channelName)).Success? ==> Entries() == old(Entries()) && sub == old(Lookup(channelName)).value
      ensures old(Lookup(channelName)).Failure? ==>
                Entries() == old(Entries()) + [sub] && fresh(sub) &&
                sub.userData == AnonymousUserData && !sub.subscribed && sub.callbacks == map[]
    {
      match Find(subscriptions.entries, channelName)
      case Some(s) =>
        sub := s;
      case None =>
        ghost var before := subscriptions.entries;
        IndexOfChannelNone(before, channelName, AnonymousUserData);
        sub := subscriptions.Add(channelName, AnonymousUserData);
        IndexOfChannelAppend(before, sub);
    }

    /** The `pusher:connection_established` handler: parse the payload, connect, read the socket id, resubscribe. */
    method OnConnectionEstablished(data: string) returns (r: Outcome<Error>)
      requires subscriptions.Valid()
      modifies this`connected, this`socketId, this`sent, subscriptions.entries`subscribed
      ensures HandlerRan(EstablishedEvent, data, r)
    {
      var parsed := lib.socketIdOf(data);
      if parsed.Failure? && parsed.error == ParseError {
        return Fail(ParseError);
      }
      connected := true;
      if parsed.Failure? {
        return Fail(parsed.error);
      }
      socketId := parsed.value;
      r := SubscribeAll();
    }

    /** The `pusher:connection_disconnected` handler: `disconnect` on every entry. */
    method OnConnectionDisconnected()
      modifies subscriptions.entries`subscribed
      ensures forall x :: x in Entries() ==> !x.subscribed
    {
      var subs := subscriptions.entries;
      var i := 0;
      while i < |subs|
        invariant 0 <= i <= |subs|
        invariant forall j :: 0 <= j < i ==> !subs[j].subscribed
      {
        subs[i].Disconnect();
        i := i + 1;
      }
    }

    /** Runs the handler the socket bound under `event`. */
    method RunHandler(cb: Callback, event: string, data: string) returns (r: Outcome<Error>)
      requires HandlerFor(event) == Some(cb)
      requires subscriptions.Valid()
      modifies this`connected, this`socketId, this`sent, subscriptions.entries`subscribed
      ensures HandlerRan(event, data, r)
    {
      r := Pass;
      match cb {
        case ConnectionEstablished =>
          r := OnConnectionEstablished(data);
        case ConnectionDisconnected =>
          OnConnectionDisconnected();
        case ErrorLogger =>
          // logs the error; no state change
      }
    }

    /**
     * `dispatch_with_all` on the global channel: runs the callbacks bound
     * under `event` in order. The socket's own handler, when the event has
     * one, is first in that order; when it raises, the callbacks after it
     * do not run. Every later callback is an application callback; their
     * runs are returned in `runs`.
     */
    method DispatchGlobal(event: string, data: string) returns (r: Outcome<Error>, runs: seq<Firing>)
      requires Valid()
      modifies this`connected, this`socketId, this`sent, subscriptions.entries`subscribed
      ensures Valid()
      ensures HandlerRan(event, data, r)
      ensures runs == if r.Pass? then Firings(UserIds(GlobalCallbacks(event)), data) else []
    {
      var cbs := GlobalCallbacks(event);
      assert forall k :: 0 <= k < |cbs| ==> cbs[k].User? || (k == 0 && HandlerFor(event) == Some(cbs[k]));
      assert HandlerFor(event).Some? ==> |cbs| > 0 && cbs[0] == HandlerFor(event).value;
      r := Pass;
      var rest := cbs;
      if |cbs| > 0 && !cbs[0].User? {
        r := RunHandler(cbs[0], event, data);
        if r.Fail? {
          return r, [];
        }
        rest := cbs[1..];
      }
      assert UserIds(cbs) == UserIds(rest);
      runs := RunApplicationCallbacks(rest, data);
    }

    /** The entries `send_local_event` routes to: all on the frame's channel, none without one. */
    function Targets(channel: Option<string>): (r: seq<Subscription>)
      reads subscriptions
      ensures channel.None? ==> r == []
      ensures channel.Some? ==> forall x :: x in r ==> x in Entries() && x.channel == channel.value
      ensures channel.Some? ==> forall x :: x in Entries() && x.channel == channel.value ==> x in r
    {
      if channel.Some? then FindAll(subscriptions.entries, channel.value) else []
    }

    /** A channel name no entry carries, the empty name included, routes to no entry: only the global channel's callbacks run. */
    lemma NoTargetsWithoutEntries(name: string)
      requires forall x :: x in Entries() ==> x.channel != name
      ensures Targets(Some(name)) == []
    {
      FindAllEmpty(Entries(), name);
    }

    /**
     * `send_local_event`: runs the event's callbacks on every entry on the
     * frame's channel, in registry order, then on the global channel.
     */
    method SendLocalEvent(event: string, data: string, channel: Option<string>) returns (r: Outcome<Error>)
      requires Valid()
      modifies this`connected, this`socketId, this`sent, this`fired, subscriptions.entries`subscribed
      ensures Valid()
      ensures HandlerRan(event, data, r)
      ensures fired == old(fired) + old(ChannelFirings(Targets(channel), event, data)) +
                       if r.Pass? then Firings(UserIds(GlobalCallbacks(event)), data) else []
    {
      var channelRuns := [];
      if channel.Some? {
        channelRuns := DispatchChannels(FindAll(subscriptions.entries, channel.value), event, data);
      }
      assert channelRuns == old(ChannelFirings(Targets(channel), event, data));
      var globalRuns;
      r, globalRuns := DispatchGlobal(event, data);
      fired := fired + channelRuns + globalRuns;
    }

    /**
     * One step of the receive loop: a frame carrying this socket's own
     * socket id is skipped; any other is routed by `send_local_event`.
     */
    method HandleFrame(frame: Inbound) returns (r: Outcome<Error>)
      requires Valid()
      modifies this`connected, this`socketId, this`sent, this`fired, subscriptions.entries`subscribed
      ensures Valid()
      ensures IsEcho(frame, old(socketId)) ==>
                r == Pass && unchanged(this) && Untouched()
      ensures !IsEcho(frame, old(socketId)) ==>
                && HandlerRan(frame.event, frame.data, r)
                && fired == old(fired) + old(ChannelFirings(Targets(frame.channel), frame.event, frame.data)) +
                            if r.Pass? then Firings(UserIds(GlobalCallbacks(frame.event)), frame.data) else []
    {
      if IsEcho(frame, socketId) {
        return Pass;
      }
      r := SendLocalEvent(frame.event, frame.data, frame.channel);
    }
  }
}
