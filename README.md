# web-events-server, modelled in Dafny

web-events-server is a small layer of named events over WebSocket sessions.
A peer sends `{type, args}` frames. The server looks up `type` in a handler
table and calls that handler with `args`. A handler can answer just by
returning a value: an array `[type, ...args]` or an object `{type, ...}`.
The answer goes back as one envelope on the connection that triggered the
call. There are two versions of the server:

- `dist/web-events-server.js` is the later one. It keeps a registry
  `uid -> {socket, data}` and exposes a directory over it. The directory's
  `get` gives the methods `forEach` and `map` over the ready clients, or a
  client's record, and its `set` refuses writes. A client stays hidden from
  enumeration (`irnore`) while its `connection` handler runs. Closed
  connections leave the registry before the `close` handler runs. Its
  dispatcher is `async` and awaits a returned promise.
- `index.js` is the earlier one. Its registry is `uid -> socket`, and its
  dispatcher is synchronous. Its `emit` sends a single object argument bare,
  not wrapped in a list. Connections are never removed.

The project has five modules, one per file:

| file | module | contents |
|---|---|---|
| `values.dfy` | `Values` | JavaScript values as they reach this layer (primitives, null, arrays, objects, transport objects); `typeof`, property read, `delete`, the argument list of `apply`; handler outcomes |
| `envelopes.dfy` | `Envelopes` | the envelope `{type, args}`, what a peer parses from it, and the inbound decoding shared by both message listeners |
| `unique_key.dfy` | `UniqueKey` | `getUniqueKey` as written and the allocator its comment describes |
| `dist_server.dfy` | `DistServer` | the later version: the registry as a class, the directory, `forEach`/`map` loops, `emit`, `close`, `returnEmit`, and the three listeners |
| `index_server.dfy` | `IndexServer` | the earlier version: the same operations with its collapse, its synchronous dispatch and no removal |

The outside world enters the model as data:

- `socket.send` appends to the class field `outbox` and `socket.close` to
  `closeCalls`.
- The random candidates of `getUniqueKey` are a sequence `draws`.
- A frame that does not parse is the input `Unparseable`, and one that does
  is `Parsed(value)`.
- An application handler is a function from a `Call` (the bound uid, the
  arguments after `apply`, and which uids enumeration would visit at that
  moment) to an `Outcome`: a returned value, a throw, or a promise that
  fulfils or rejects.
- Sockets and upgrade requests are `Host` values. Their `typeof` is
  "object" and their string conversion is "[object Object]". The model
  takes it that `JSON.stringify` cannot encode them (see "## Left out").

Both versions call a handler only when the decoded `type` is a key of the
handler table. A peer can therefore name a reserved event (`connection`,
`close`, `checkHeaders`) in a frame and run its handler. The `Message`
contracts state this by dispatching on any name in `evs`.

### Behaviour at the edges

- **Allocator.** In `getUniqueKey` the inner `for (let key in object)`
  declares a new `key` that hides the candidate. Each property is compared
  with its own name, none of which matches, so the first candidate is
  returned even when it is already a uid. A property equal to its own name
  would make it recurse without end. See "## Findings".
- **Object replies (dist).** `emit` always sends its argument list, so an
  object reply `{type: "ack", ok: true}` goes out as
  `{type: "ack", args: [{ok: true}]}`.
- **Object replies (index.js).** `returnValue.type` gives the reply's type.
  `delete args.type` is applied to the handler's *input* `args`, and those
  are what is sent. The returned object's other members are never sent.
- **Null.** A handler returning `null` passes the `typeof` test and then
  fails with a TypeError on `returnValue.type`.
- **Promises (dist).** The primitive test runs before the `await`. A promise
  that resolves to a primitive `v` is therefore sent as
  `{type: undefined, args: [v]}`. A promise that resolves to `undefined` or
  `null` fails with a TypeError.
- **Promises (index.js).** There is no `await`. A promise is an object reply
  whose `type` is undefined.
- **Handler failures.** In the later version these reject `returnEmit`'s
  promise, which nobody handles. In `index.js` they propagate out of the
  listener, as does a failing `emit` of the reply. Either leaves the message
  and close listeners of a new connection uninstalled.
- **`close()` on a closed client (dist).** This fails with a TypeError,
  because `connections[uid]` is undefined. `emit` in the same situation
  throws its own "closing connection" error.
- **Closing (index.js).** Closed sockets stay in the registry, so the
  registry only grows.

## Model

| member | source | states |
|---|---|---|
| Envelopes.Wire | dist/web-events-server.js:138-141 | the parsed envelope is an object with a `type` and an `args` member, each present exactly when it is not undefined, and no other members |
| Envelopes.Decode | dist/web-events-server.js:193-211 | a frame dispatches exactly when it parses and its `type` is a string; the event name is that string and the args are `data.args` or undefined; a frame parsing to null or undefined crashes on `data.type`; everything else is dropped |
| Envelopes.RoundTrip | dist/web-events-server.js:138-141 | an envelope with a string type decodes back to that event with the same args |
| Envelopes.NonStringTypeDropped | dist/web-events-server.js:199-201 | an envelope whose type is not a string is dropped by the receiving listener |
| UniqueKey.GetUniqueKey | dist/web-events-server.js:60-66 | as written, the allocator returns exactly when there is a draw and no property equals its own name, and then it returns the first draw: a retry never yields a key |
| Values.ApplyArgs | dist/web-events-server.js:78 | `func.apply(client, args)` passes an array's elements, no arguments for undefined, null or another object, and throws a TypeError on any other primitive |
| UniqueKey.SelfMatchNeverReturns | dist/web-events-server.js:60-66 | as written, a property equal to its own name makes every attempt retry, however many draws there are: the recursion never returns |
| UniqueKey.CollisionUndetected | dist/web-events-server.js:60-66 | as written, when no property equals its own name the first draw is returned whatever it is, even if it is already a key |
| UniqueKey.CollisionExample | index.js:17-23 | a registry holding uid "7" and a first draw "7": the allocator as written returns the taken key "7" |
| UniqueKey.FreshKey | dist/web-events-server.js:56-59 | the intended allocator returns a key exactly when some draw is free; the key is free, and it is the first free draw |
| UniqueKey.AgreesOnFreshDraw | dist/web-events-server.js:60-66 | when the first draw is free and nothing self-matches, the written and the intended allocator return the same key |
| DistServer.RegistryTakesFirstDraw | dist/web-events-server.js:60-66 | for the real `connections` object with digit-string uids (methods convert to their source text, entries to "[object Object]") nothing self-matches, so the allocator returns the first draw, a taken uid included |
| DistServer.ReadyOf | dist/web-events-server.js:17-20 | enumeration over the first `n` keys yields at most `n` records, none of them flagged `irnore` (its membership and order are stated by the lemmas below) |
| DistServer.Without | dist/web-events-server.js:219 | deleting a key from `connections` removes exactly that key from the enumeration order and keeps the keys distinct |
| DistServer.SkipMethods | dist/web-events-server.js:16-21 | enumeration meets the two methods first and yields nothing for them, so it yields the same records as the uids alone |
| DistServer.ReadyOfExactly | dist/web-events-server.js:16-31 | enumeration yields a uid exactly when it is among the keys reached, its entry is stored and its `irnore` flag is false; it yields no uid twice |
| DistServer.ReadyOfAll | dist/web-events-server.js:16-21 | when every key reached is stored and ready, enumeration yields exactly those keys, in order |
| DistServer.ReadyOfPrefix | dist/web-events-server.js:17 | what enumeration has yielded depends only on the keys it has reached so far |
| DistServer.ReadyOfOutside | dist/web-events-server.js:17-20 | storing under a key that enumeration has not reached does not change what it has yielded |
| DistServer.AdmitHidden | dist/web-events-server.js:169-180 | appending a new entry whose `irnore` flag is set leaves enumeration unchanged |
| DistServer.Classify | dist/web-events-server.js:77-116 | a handler outcome gives no reply exactly when it is a synchronous non-object; it fails exactly on a throw, a rejection, a null result, or a promise of null or undefined; an array gives element 0 and the rest; an object gives its `type` and itself; a promise of a primitive gives an untyped reply |
| DistServer.Outgoing | dist/web-events-server.js:102-114 | only arrays and objects send; the envelope's type is the reply's event name and its `args` always a list: the array's remaining elements, or exactly one element, the reply without its `type` member |
| DistServer.ArrayReply | dist/web-events-server.js:89-102 | an array reply sends element 0 as the type and elements 1.. in order as `args` |
| DistServer.ObjectReply | dist/web-events-server.js:103-115 | an object reply sends its `type`, with `args` a one-element list holding the object without `type` |
| DistServer.AsyncPrimitiveReplies | dist/web-events-server.js:80-85 | a primitive returned directly is ignored, but the same primitive from a promise is sent with an undefined type |
| DistServer.AwaitTransparentForAggregates | dist/web-events-server.js:84-85 | for arrays and objects, returning a promise of the value gives the same reply as returning it |
| DistServer.StaleReply | dist/web-events-server.js:135-136 | once the uid has left the registry, every reply that would send raises the stale-connection error and sends nothing |
| DistServer.Server.constructor | dist/web-events-server.js:10-32 | the registry starts empty and well formed, with nothing sent or closed |
| DistServer.Server.ReadyClientsExactly | dist/web-events-server.js:16-31 | in a well-formed registry, the ready uids are exactly the stored uids whose `irnore` is false, each once |
| DistServer.Server.Get | dist/web-events-server.js:35-49 | the directory's `get` gives a method exactly for `forEach`/`map`, and a client record exactly for a registered uid: that entry's `data`, whose uid is the key, never its socket |
| DistServer.Server.Set | dist/web-events-server.js:51-53 | an assignment through the directory returns false and changes nothing |
| DistServer.Server.ForEach | dist/web-events-server.js:16-21 | the loop calls back with exactly the ready clients, in key order, never with a method, each once |
| DistServer.Server.Map | dist/web-events-server.js:24-31 | the result holds one callback result per ready client, in the same order |
| DistServer.Server.Emit | dist/web-events-server.js:134-142 | for an unregistered uid it throws and sends nothing; otherwise it sends exactly one envelope `{type, args: [arguments]}` to that uid, or throws a TypeError on a value JSON cannot encode |
| DistServer.Server.ClientClose | dist/web-events-server.js:148-150 | closes the socket of a registered uid; for an unregistered uid it throws a TypeError and closes nothing |
| DistServer.Server.ReturnEmit | dist/web-events-server.js:77-116 | a bad `apply` argument throws; otherwise the handler's reply is sent, at most once and only to the triggering client, and the dispatcher ends as the reply and `emit` dictate |
| DistServer.Server.Connect | dist/web-events-server.js:164-191 | a connect adds exactly one entry, under the first free draw, holding `uid`, `emit`, `close` and `base`; no other entry changes; the `connection` handler sees every earlier client but not the new one; afterwards the new client is ready; its reply goes to the new client |
| DistServer.Server.Admit | dist/web-events-server.js:167-180 | stores the new record with `irnore` set; enumeration still gives exactly the earlier uids |
| DistServer.Server.Ready | dist/web-events-server.js:191 | clearing the flag makes the new client visible to enumeration and every stored client ready |
| DistServer.Server.Message | dist/web-events-server.js:193-213 | an unparseable frame, a frame without a string type, or a type with no handler sends nothing; a null frame throws; otherwise the named handler runs with `data.args` as the dispatcher dictates |
| DistServer.Server.Close | dist/web-events-server.js:217-227 | the entry is deleted first, so the `close` handler no longer sees the client and any reply from it raises the stale-connection error, sending nothing |
| DistServer.Server.Remove | dist/web-events-server.js:219 | deleting the entry removes exactly that uid from the registry and from enumeration |
| IndexServer.EmitDecoded | index.js:80-88 | what the peer decodes from `emit(name, ...args)`: the single argument itself when it is the only one and of type object, otherwise the whole argument list |
| IndexServer.RegistryTakesFirstDraw | index.js:17-23 | with digit-string uids no stored socket equals its uid, so the allocator returns the first draw, a stored uid included |
| IndexServer.SpreadOrArray | index.js:74-78 | listing the arguments or passing them as one array sends the same `args`, unless the list is a single object |
| IndexServer.SpreadDiffers | index.js:77-83 | for a single object argument the two forms differ: the array form wraps it, the bare form does not |
| IndexServer.Classify | index.js:34-58 | no reply exactly for a non-object; failure exactly on a throw or a null result; an array gives element 0 and the rest; an object its `type`; a promise, which is not awaited, an undefined type |
| IndexServer.Outgoing | index.js:43-61 | an array reply sends `{type: element 0, args: elements 1..}`; an object reply deletes `type` from the handler's input `args` and sends those; input `args` of null or undefined throw a TypeError |
| IndexServer.ArrayReply | index.js:43-49 | an array reply sends element 0 as the type and the remaining elements, in order, as `args`, whatever the input was |
| IndexServer.ObjectReplyIgnoresMembers | index.js:56-57 | an object reply takes only its `type` from the returned object: the envelope does not depend on its other members |
| IndexServer.ObjectReplyEchoesInput | index.js:56-61 | a handler that returns an object to a message whose `args` is a list has that list sent back unchanged, under the object's `type` |
| IndexServer.PromiseReply | index.js:37-56 | a promise is treated like an object without a `type` |
| IndexServer.ConnectObjectReplyFails | index.js:128-129 | the `connection` handler's input is the socket, so an object or promise reply from it has the socket as `args` and always fails to encode |
| IndexServer.Server.constructor | index.js:11 | the registry starts empty, with no listeners and nothing sent |
| IndexServer.Server.Emit | index.js:80-89 | sends exactly one envelope, with the collapsed `args`, to the socket stored under the uid and to no other; throws a TypeError for an unknown uid or a value JSON cannot encode |
| IndexServer.Server.ClientClose | index.js:95-97 | closes exactly the socket stored under the uid |
| IndexServer.Server.ReturnEmit | index.js:34-62 | a bad `apply` argument throws; otherwise the reply is sent, at most once, to the triggering client's socket |
| IndexServer.Server.Connect | index.js:111-129 | stores the socket under the first free draw and changes no other entry; the handler gets no arguments; the message and close listeners are installed exactly when the dispatch ended normally, that is unless the handler or the `emit` of its reply threw |
| IndexServer.Server.Message | index.js:131-151 | the handler runs only when the decoded type is a string the handler table has; its reply goes to this client's socket |
| IndexServer.Server.Close | index.js:155-162 | the registry is unchanged: the socket stays stored and the `close` handler's reply is still sent on it; the closed socket delivers no further events |

## Left out

- The `ws` server, the WebSocket handshake and the socket calls. Sends and
  closes are recorded in `outbox` and `closeCalls`. Sending on an already
  closed socket is not modelled.
- JSON text. Parsing is the input `Frame`, and `Wire` gives the value a peer
  parses. Inside nested values, `JSON.stringify` turns undefined, NaN and
  Infinity into null or drops them; this is not modelled. Only transport
  objects are taken to be unencodable.
- The directory beyond `get` and `set`. The Proxy has no `deleteProperty`
  or `defineProperty` trap, so `delete base[uid]` and
  `Object.defineProperty(base, ...)` reach `connections`. `get` returns the
  live `data` record, so application code can set `irnore` or `uid` on it.
  Neither path is modelled: the registry changes only through the listeners.
- Encoding of transport objects. The model takes it that `JSON.stringify`
  throws on a socket or an upgrade request (`Envelopes.Sendable` is false
  for `Host`), as it does on values with circular references. Whether it
  does depends on the `ws` and Node versions. `IndexServer.ConnectObjectReplyFails`,
  and the uninstalled listeners after an object or promise reply from an
  `index.js` connection handler, rest on this. The model also takes the
  string conversion of a socket to be "[object Object]".
- Numbers are unbounded integers. Floating point, NaN and the string form of
  numbers are not modelled.
- `Math.random`. Its candidates are the input `draws`.
- Interleaving of asynchronous handlers across connections. A promise's
  outcome is known when the handler returns. In the later version the reply
  to a promise is really sent after `irnore` is cleared. The model produces
  the same envelope, and it does not record when the envelope goes out.
- The `headers`/`checkHeaders` hook (dist/web-events-server.js:156-161,
  index.js:103-108). It has no connection, and its reply could only fail
  inside objects outside this layer.
- The error listeners and `console.log` (dist/web-events-server.js:215,
  index.js:153-155).
- `apply` on array-like objects: any object other than an array gives no
  arguments.
- Application handler bodies and their side effects. A handler that calls
  `emit`, `close`, `forEach` or `map`, or that adds members to its client
  record, is not modelled. As a result it cannot change the registry.
- Inherited properties. The handler table and `connections` are looked up as
  own keys only. In JavaScript `evs.toString` or `evs.constructor` would
  also run.
- `for..in` order of integer-like keys. Uids are enumerated in insertion
  order. JavaScript would list uids that are array indices first, in
  numeric order.
- Aliasing. `delete args.type` and `client.irnore = false` change objects
  that others hold. The model computes the values afterwards and stores
  them again.
- DistServer.Server.Connect: allocates with `UniqueKey.FreshKey`, the
  allocator the comment describes, needs a free draw among `draws`, and does
  not model the as-written allocator's collisions or non-termination (those
  are stated in `UniqueKey`).
- IndexServer.Server.Connect: allocates with `UniqueKey.FreshKey` likewise.
- DistServer.Server.Message: requires the client to be registered. A frame
  arriving after the close signal is not modelled.
- DistServer.Server.ReturnEmit: the status of an asynchronous dispatch is the
  settlement of a promise that nobody observes. It is stated, and not
  propagated to the listener.

## Findings

| source | as written | input that shows it | evidently intended | confidence | as-written member | corrected member |
|---|---|---|---|---|---|---|
| dist/web-events-server.js:60-66, index.js:17-23 | `for (let key in object)` declares a new `key` that hides the random candidate, so each property is compared with its own name and the candidate is returned unchecked | a registry holding an entry under "7" and a first draw of "7": the allocator returns "7", and the new connection overwrites the old entry | retry while the candidate is already a key, so the result is a key not yet used | not executed | UniqueKey.CollisionExample | UniqueKey.FreshKey |
