# pusher-client: subscription registry and socket, in Dafny

This project models the core of the Ruby client for the Pusher
publish/subscribe service:

- `Subscriptions` (lib/pusher-client/subscriptions.rb): the registry. It is an
  ordered array of subscriptions keyed by (channel name, user data). `add` is
  check-then-append, `find_all` and `find` look entries up by channel name,
  and `remove` deletes one key and hands back the array. It is modelled as the
  class `Registry.Subscriptions`, whose `entries: seq<Subscription>` field the
  methods reassign. The lookups are functions over that sequence.
- `Socket` (lib/pusher-client/socket.rb): one connection. It is modelled as the
  class `Client.Socket`, with the fields `connected`, `socketId`, the registry
  and the global channel.
  - Key validation and the connection path.
  - The three handlers the constructor binds on the global channel. They are
    stored as named callbacks in its callback map.
  - `subscribe`, `subscribe_existing`, `subscribe_all`, `unsubscribe`,
    `disconnect`, `bind` and `[]`.
  - The auth value of private and presence channels.
  - Event routing by `send_local_event`, and the receive loop's echo filter.

The transport is replaced by two traces:

- `sent`: every frame handed to the connection, oldest first.
- `fired`: every run of an application callback, with the data it was given.

One step of the receive loop is `Client.Socket.HandleFrame`.

Library calls are functions of a `Library` value given at construction:

- the JSON encoding of `{:user_id, :user_info}`;
- `HMAC::SHA256.hexdigest`;
- reading `socket_id` out of the connection payload. This fails with `ParseError` when the payload does not parse (socket.rb:30), and with another error, such as `TypeError` for an Array, when the parsed value cannot be indexed by `'socket_id'` (socket.rb:32).

Each Ruby exception the model covers is a `Fail`/`Failure` outcome: a bad key, signing without a socket id or secret, a connection payload that does not parse or cannot be indexed, and `[]` on an unknown channel.

The `Channel` and `Subscription` classes are not part of this model's
sources. `Entities.Channel` and `Entities.Subscription` give them only what
the socket and the tests use:

- `subscribed` and `global` start false;
- `bind` appends a callback under an event name;
- dispatch runs the bound callbacks in binding order;
- `acknowledge_subscription` sets `subscribed`;
- `disconnect` clears it. This one is an assumption about the class, taken from its intended design; neither socket.rb:37 nor the tests show what it does. `Client.Socket.OnConnectionDisconnected` rests on it.

Module layout:

| file | module | contents |
|---|---|---|
| wrappers.dfy | `Wrappers` | `Option`, `Result`, `Outcome` |
| entities.dfy | `Entities` | callbacks, firings, `Channel`, `Subscription` |
| registry.dfy | `Registry` | subscriptions.rb |
| protocol.dfy | `Protocol` | the expression-only parts of socket.rb: constants, path, classification, auth, frames, echo test |
| socket.dfy | `Client` | the `Socket` class |

Where the code and the tests disagree, the model follows the code:

- The tests call `find` with two arguments (test/pusherclient_test.rb:75, 89). The code's `find` takes one channel name. `Registry.Find` takes one.
- `Socket#[]` is meant to find or create a subscription, but the code cannot create one (see Findings). `Client.Socket.Lookup` models the code. `Client.Socket.LookupOrCreate` models the intended behaviour.

## Model

| member | source | states |
|---|---|---|
| Registry.UniqueEntriesDistinct | lib/pusher-client/subscriptions.rb:10-11 | entries of a registry with unique keys are pairwise distinct objects |
| Registry.IndexOfKey | lib/pusher-client/subscriptions.rb:10 | the position of the first entry with key (channel, user data), or the length when none; no earlier entry has that key |
| Registry.Detect | lib/pusher-client/subscriptions.rb:10 | `detect` by key is nil exactly when no entry has the key; otherwise it is an entry holding that channel and user data |
| Registry.IndexOfChannel | lib/pusher-client/subscriptions.rb:21 | the position of the first entry on a channel, or the length when none; no earlier entry is on it |
| Registry.Find | lib/pusher-client/subscriptions.rb:20-22 | `find` is nil exactly when no entry is on the channel; otherwise it is the first entry on it, whatever its user data |
| Registry.FindAll | lib/pusher-client/subscriptions.rb:16-18 | `find_all` holds exactly the entries on the channel, and is no longer than the registry |
| Registry.FindAllAppend | lib/pusher-client/subscriptions.rb:16-18 | `find_all` keeps registry order: the matches of s + t are the matches of s followed by those of t |
| Registry.FindAllEmpty | lib/pusher-client/subscriptions.rb:16-18 | `find_all` is empty exactly when no entry is on the channel |
| Registry.Without | lib/pusher-client/subscriptions.rb:26 | `Array#delete` keeps exactly the elements not `==` to the deleted one; a subscription's `==` is taken to be Ruby's default object identity, since its class is not part of this model |
| Registry.WithoutAt | lib/pusher-client/subscriptions.rb:24-26 | in a registry with unique keys, deleting an entry removes exactly its position and keeps the rest in order |
| Registry.WithoutAbsent | lib/pusher-client/subscriptions.rb:26 | deleting an absent element changes nothing |
| Registry.DeletePreservesUnique | lib/pusher-client/subscriptions.rb:24-26 | removing one position keeps the keys unique |
| Registry.IndexOfKeyAppend | lib/pusher-client/subscriptions.rb:10-13 | after appending an entry with a new key, the second `detect` finds it at the end |
| Registry.IndexOfChannelNone | lib/pusher-client/subscriptions.rb:20-22 | with no entry on a channel, no key on that channel is present either |
| Registry.IndexOfChannelAppend | lib/pusher-client/subscriptions.rb:20-22 | after appending an entry on a channel absent before, `find` on that channel gives the new entry |
| Registry.RemoveAfterAdd | lib/pusher-client/subscriptions.rb:9-28 | adding a new key keeps keys unique, and removing it again restores the registry |
| Registry.Subscriptions.constructor | lib/pusher-client/subscriptions.rb:5-7 | a new registry is empty and valid |
| Registry.Keys | lib/pusher-client/subscriptions.rb:10 | the set of (channel, user data) keys held: a key is in it exactly when some entry carries it |
| Registry.KeyCount | lib/pusher-client/subscriptions.rb:34-36 | with unique keys, there are exactly as many keys as entries |
| Registry.Subscriptions.Size | lib/pusher-client/subscriptions.rb:34-36 | in a valid registry, `size` is the number of distinct (channel, user data) pairs held |
| Registry.Subscriptions.IsEmpty | lib/pusher-client/subscriptions.rb:30-36 | `empty?` holds exactly when `size` is 0 |
| Registry.Subscriptions.Add | lib/pusher-client/subscriptions.rb:9-14 | the returned entry has the given channel and user data. A present key leaves the registry unchanged and returns the existing entry. A new key appends exactly one fresh, unsubscribed entry with no callbacks. Keys stay unique. |
| Registry.Subscriptions.Remove | lib/pusher-client/subscriptions.rb:24-28 | deletes the entry with the key and keeps the others in order, or changes nothing without a match; returns the whole array; keys stay unique |
| Protocol.ReservedEventsDistinct | lib/pusher-client/socket.rb:29-42 | the three events the socket handles itself have distinct names |
| Protocol.Path | lib/pusher-client/socket.rb:18 | the path is `/app/`, then the key, then `?client=js&version=1.7.1` |
| Protocol.IsPrivateChannel | lib/pusher-client/socket.rb:149-151 | a channel is private exactly when its name is `private-` followed by anything |
| Protocol.IsPresenceChannel | lib/pusher-client/socket.rb:153-155 | a channel is presence exactly when its name is `presence-` followed by anything |
| Protocol.ClassificationExclusive | lib/pusher-client/socket.rb:149-155 | no channel is both private and presence, so the order of the tests in `authorize` does not matter |
| Protocol.StringToSign | lib/pusher-client/socket.rb:158 | the signed text is the socket id, ':', the channel, ':', the user data, in that layout |
| Protocol.FirstColon | lib/pusher-client/socket.rb:158 | the position of the first ':' in a string, or its length |
| Protocol.FirstColonOf | lib/pusher-client/socket.rb:158 | in `a:b` with no ':' in `a`, the first ':' is right after `a` |
| Protocol.SplitAtColon | lib/pusher-client/socket.rb:158 | `a:b == c:d` with no ':' in `a` or `c` forces `a == c` and `b == d` |
| Protocol.StringToSignUnambiguous | lib/pusher-client/socket.rb:158-165 | with no ':' in the socket id or channel, the signed text determines socket id, channel and user data |
| Protocol.SignedAuth | lib/pusher-client/socket.rb:157-167 | fails with a nil socket id or secret (and only then); otherwise is `key:` followed by the HMAC of `socket_id:channel:user_data` under the secret |
| Protocol.AuthData | lib/pusher-client/socket.rb:131-138 | nil exactly when the channel is neither `private-` nor `presence-`; otherwise the signed value or its error |
| Protocol.IsEcho | lib/pusher-client/socket.rb:59 | a frame is skipped exactly when it carries a socket id equal to the socket's own; a frame without one, or any frame before the socket id is known, is never skipped |
| Entities.Firings | lib/pusher-client/socket.rb:184-188 | running callbacks records one run per callback, in order, each with the event data |
| Entities.FiringsAppend | lib/pusher-client/socket.rb:184-188 | the runs of two callback lists run in turn are the runs of each, concatenated |
| Entities.Channel.constructor | lib/pusher-client/socket.rb:23 | a new channel has the name, no callbacks, and is neither subscribed nor global |
| Entities.Channel.Bind | lib/pusher-client/socket.rb:119 | binding appends the callback to those under the event; other events and flags are unchanged |
| Entities.Subscription.constructor | lib/pusher-client/subscriptions.rb:11 | a new subscription has the key, no callbacks, and is neither subscribed nor global |
| Entities.Subscription.Bind | test/pusherclient_test.rb:132-134 | binding appends the callback id to those under the event; the flags are unchanged |
| Entities.Subscription.AcknowledgeSubscription | lib/pusher-client/socket.rb:146 | the subscription is subscribed |
| Entities.Subscription.Disconnect | lib/pusher-client/socket.rb:37 | the subscription is not subscribed |
| Client.IsValidKey | lib/pusher-client/socket.rb:16 | a key is accepted exactly when it is a non-empty String; the path then has a non-empty key segment |
| Client.UserIds | lib/pusher-client/socket.rb:188 | the application callbacks run by a dispatch: an id is among them exactly when its callback is bound |
| Client.UserIdsOfApplicationCallbacks | lib/pusher-client/socket.rb:188 | when every callback is an application callback, all of them run, in order |
| Client.RunApplicationCallbacks | lib/pusher-client/socket.rb:188 | the runs recorded are one per application callback, in binding order |
| Client.ChannelFiringsSnoc | lib/pusher-client/socket.rb:184 | dispatching to one more subscription appends that subscription's runs |
| Client.DispatchChannels | lib/pusher-client/socket.rb:182-185 | `dispatch_with_all` on each of the entries records their callbacks' runs, entry by entry in registry order |
| Client.Socket.constructor | lib/pusher-client/socket.rb:15-43 | after a valid key: path `/app/<key>?client=js&version=1.7.1`, secret and `encrypted` from the options, not secure, not connected, no socket id, an empty registry, the global channel global and unsubscribed with exactly the three handlers bound, empty traces |
| Client.Socket.Create | lib/pusher-client/socket.rb:16 | fails with `ArgumentError` exactly when the key is not a String or is empty; otherwise gives a socket in the initial state |
| Client.Socket.FirstAuthFailure | lib/pusher-client/socket.rb:104-106 | the position of the first entry whose auth raises: every earlier entry signs |
| Client.Socket.SubscribeFrames | lib/pusher-client/socket.rb:104-106 | the frames resubscribing a list of entries: one per entry |
| Client.Socket.SubscribeFramesPointwise | lib/pusher-client/socket.rb:104-106 | the resubscribe frames are one per entry, in registry order, each carrying that entry's channel, auth and user data |
| Client.Socket.SubscribeFramesSnoc | lib/pusher-client/socket.rb:105 | resubscribing one more entry appends its subscribe frame |
| Client.Socket.SendEvent | lib/pusher-client/socket.rb:172-176 | exactly one frame with the event and data is appended to the sent trace |
| Client.Socket.Bind | lib/pusher-client/socket.rb:118-121 | the application callback is appended to the global channel's callbacks under the event; the handlers stay installed |
| Client.Socket.AuthorizeCallback | lib/pusher-client/socket.rb:140-147 | one `pusher:subscribe` frame with channel, auth and user data is sent, and the subscription is marked subscribed |
| Client.Socket.Authorize | lib/pusher-client/socket.rb:131-138 | when the auth value is computed, its frame is sent and the entry is subscribed; when signing raises, nothing is sent and the flag is unchanged |
| Client.Socket.SubscribeExisting | lib/pusher-client/socket.rb:97-102 | when not connected nothing happens; when connected it behaves as `authorize` |
| Client.Socket.SubscribeAll | lib/pusher-client/socket.rb:104-106 | when connected, entries are resubscribed in registry order up to the first whose auth raises: their frames are sent in that order and they are subscribed; the other flags are unchanged. When not connected, nothing changes. |
| Client.Socket.Subscribe | lib/pusher-client/socket.rb:83-95 | the user data is the JSON of id and info, or the fixed anonymous value without an id, so a repeat call returns the same entry and the registry does not grow. A new key appends one entry. When connected, one subscribe frame is sent and the entry is subscribed. When not connected, nothing is sent and a new entry stays unsubscribed. Other entries' flags are unchanged. |
| Client.Socket.Unsubscribe | lib/pusher-client/socket.rb:108-116 | the matching entry is removed and the others kept in order; one unsubscribe frame with only the channel is sent, when connected only; the array is returned |
| Client.Socket.Disconnect | lib/pusher-client/socket.rb:72-81 | the socket is not connected afterwards; nothing else changes |
| Client.Socket.Lookup | lib/pusher-client/socket.rb:123-129 | as written: the first entry on the channel, and `ArgumentError` exactly when there is none |
| Client.Socket.LookupOrCreate | lib/pusher-client/socket.rb:123-129 | as intended: an existing first entry is returned unchanged; otherwise one fresh anonymous, unsubscribed entry is appended; afterwards the lookup succeeds with the result |
| Client.Socket.OnConnectionEstablished | lib/pusher-client/socket.rb:29-34 | a payload that does not parse raises before anything changes; one whose `socket_id` cannot be read raises after `connected` is set, with the socket id, frames and entries unchanged; otherwise connected, the socket id from the payload, the registry unchanged, every entry resubscribed in order up to the first whose auth raises |
| Client.Socket.OnConnectionDisconnected | lib/pusher-client/socket.rb:36-38 | every entry is unsubscribed; `connected` is not touched |
| Client.Socket.RunHandler | lib/pusher-client/socket.rb:29-42 | running the socket's own handler for an event has exactly that handler's effect |
| Client.Socket.DispatchGlobal | lib/pusher-client/socket.rb:188 | the socket's handler for the event runs first; when it does not raise, every application callback bound under the event runs, in binding order |
| Client.Socket.Targets | lib/pusher-client/socket.rb:181-183 | a frame without a channel reaches no entry; a frame with one reaches exactly the entries on that channel, the empty name included |
| Client.Socket.NoTargetsWithoutEntries | lib/pusher-client/socket.rb:181-186 | a channel name no entry carries, the empty name included, routes to no entry, so only the global callbacks fire |
| Client.Socket.SendLocalEvent | lib/pusher-client/socket.rb:180-190 | the callbacks of every entry on the channel run first, in registry order, then the global channel's; the handler's effect is applied |
| Client.Socket.HandleFrame | lib/pusher-client/socket.rb:56-64 | a frame carrying the socket's own socket id changes nothing; any other is routed as `send_local_event` |

## Left out

- `connect`: the thread, `WebSocket.new`, the blocking `receive` loop, `run`/`join`/`kill`, and closing the connection in `disconnect` are concurrency and I/O. One loop iteration is `Client.Socket.HandleFrame`.
- URL selection (socket.rb:46-50): it depends on host and port constants that are not part of this model. `encrypted` and `secure` are stored but select nothing.
- JSON: `to_json` of the user data and `JSON.parse` of the connection payload are `Library` functions. The frame payload stays an un-encoded `Payload` value. The `parser` fallback for malformed JSON is left out: indexing the raw string with `['socket_id']` relies on Ruby string indexing.
- HMAC-SHA256 is the uninterpreted `Library.hmacHex`. Only the string to sign and the `key:` prefix are modelled.
- Logging is diagnostic only. The `pusher:error` handler is `ErrorLogger` and changes no state.
- The `Channels` collection class is not part of this model.
- `Registry.Subscriptions.Remove` and `Client.Socket.Unsubscribe` return the entries as a value. Ruby returns the registry's own Array, so a caller that changes the returned array changes the registry; that aliasing is not modelled.
- A raise inside the receive loop ends the connection thread. `Client.Socket.HandleFrame` returns the `Fail` outcome, and stopping the loop is left to its caller.
- Each method is one atomic step, and calls are sequential. Interleavings of the receive thread with caller threads are not modelled: two `add` calls racing through the check-then-append (subscriptions.rb:10-11), or `subscribe` appending while `subscribe_all` walks the entries (socket.rb:105). The unique-key invariant is proved for sequential calls only.
- Callback bodies are opaque ids. An application callback never raises or changes the socket.
- `Client.Socket.SendLocalEvent`: `fired` records the runs of one dispatch together, not one by one. The entries' runs are computed before the global handler runs, which is the order in the source. Only the global handler changes state.
- `Client.Socket.Bind`: only application callbacks given as ids can be bound. Arbitrary blocks are not modelled.
- `Protocol.IsPrivateChannel` and `Protocol.IsPresenceChannel` are prefix tests. Ruby's `^` also matches after a newline inside the name, and that multi-line case is not modelled.
- `Client.Socket.Disconnect` does not model closing the connection or killing the thread. It models only the `connected` flag.
- The "Channels collection" tests and the test doubles in test/teststrap.rb are not part of this model.

## Findings

| source | as written | input that shows it | evidently intended | confidence | as-written member | corrected member |
|---|---|---|---|---|---|---|
| lib/pusher-client/socket.rb:127 | the create branch of `[]` calls `@subscriptions << channel_name`; `<<` is the two-argument `add` (subscriptions.rb:9, 38), so the call raises `ArgumentError` | `socket['news']` on a socket with no entry on `news` | register an entry on the channel (with the anonymous user data, as `subscribe` without a user id does) and return it | high; not executed | Client.Socket.Lookup | Client.Socket.LookupOrCreate |
