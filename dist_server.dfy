/**
 * The later server version (dist/web-events-server.js): a registry of
 * connections `uid -> {socket, data}`, a read-only directory over it with
 * `forEach` and `map` over the ready clients, the client methods `emit` and
 * `close`, the return-value dispatcher `returnEmit`, and the connect, message
 * and close listeners as state transitions. `socket.send` appends to `outbox`
 * and `socket.close` to `closeCalls`.
 */
module DistServer {
  import opened Values
  import opened Envelopes
  import UniqueKey

  /** The server functions a client record is bound to: `emit`, `close` and `base`. */
  datatype Bound = EmitFn | CloseFn | ConnectionsProxy

  /** The `data` record of a connection, which handlers see as `this`. */
  datatype Client = Client(irnore: bool, uid: string, emit: Bound, close: Bound, base: Bound)

  /** The record the connect listener builds: not yet visible to enumeration. */
  function NewClient(uid: string): Client {
    Client(true, uid, EmitFn, CloseFn, ConnectionsProxy)
  }

  /** A registry entry `{socket, data}`; the socket is known by its id. */
  datatype Entry = Entry(socket: nat, data: Client)

  /** The two methods the `connections` object holds beside the entries. */
  const MethodNames: seq<string> := ["forEach", "map"]

  /** What `connections[key]` holds. */
  datatype Slot = MethodSlot(name: string) | EntrySlot(entry: Entry) | NoSlot

  /** What the directory's `get` trap returns. */
  datatype Found = Method(name: string) | Data(client: Client) | Nothing

  predicate NoDup(s: seq<string>) {
    forall i, j :: 0 <= i < j < |s| ==> s[i] != s[j]
  }

  /** Every entry is stored under its own client's uid. */
  ghost predicate KeyedByUid(entries: map<string, Entry>) {
    forall k :: k in entries ==> entries[k].data.uid == k
  }

  function Uids(cs: seq<Client>): seq<string> {
    seq(|cs|, i requires 0 <= i < |cs| => cs[i].uid)
  }

  /**
   * The registry's shape: `order` lists each stored uid once, every entry is
   * stored under its own uid, and no uid shadows a method of `connections`.
   */
  ghost predicate Registry(order: seq<string>, entries: map<string, Entry>) {
    && NoDup(order)
    && (forall k :: k in entries <==> k in order)
    && KeyedByUid(entries)
    && "forEach" !in entries && "map" !in entries
  }

  ghost predicate AllReady(entries: map<string, Entry>) {
    forall k :: k in entries ==> !entries[k].data.irnore
  }

  /** What enumeration does at key `k`: yield the stored record unless it is flagged `irnore`. */
  function Visit(k: string, entries: map<string, Entry>): seq<Client> {
    if k in entries && !entries[k].data.irnore then [entries[k].data] else []
  }

  /** The records enumeration yields from the first `n` of `keys`, in that order. */
  function ReadyOf(keys: seq<string>, n: nat, entries: map<string, Entry>): (r: seq<Client>)
    requires n <= |keys|
    ensures |r| <= n
    ensures forall i :: 0 <= i < |r| ==> !r[i].irnore
  {
    if n == 0 then [] else ReadyOf(keys, n - 1, entries) + Visit(keys[n - 1], entries)
  }

  lemma UidsAppend(a: seq<Client>, b: seq<Client>)
    ensures Uids(a + b) == Uids(a) + Uids(b)
  {
  }

  /** The two methods come first in `for..in` order and yield nothing. */
  lemma {:induction false} SkipMethods(order: seq<string>, n: nat, entries: map<string, Entry>)
    requires n <= |order| && "forEach" !in entries && "map" !in entries
    ensures ReadyOf(MethodNames + order, |MethodNames| + n, entries) == ReadyOf(order, n, entries)
  {
    if n == 0 {
      var props := MethodNames + order;
      assert props[0] == "forEach" && props[1] == "map";
      assert ReadyOf(props, 1, entries) == [];
    } else {
      SkipMethods(order, n - 1, entries);
      assert (MethodNames + order)[|MethodNames| + n - 1] == order[n - 1];
    }
  }

  /** Enumeration depends only on the keys it has reached. */
  lemma {:induction false} ReadyOfPrefix(a: seq<string>, b: seq<string>, n: nat, entries: map<string, Entry>)
    requires n <= |a| && n <= |b|
    requires forall i :: 0 <= i < n ==> a[i] == b[i]
    ensures ReadyOf(a, n, entries) == ReadyOf(b, n, entries)
  {
    if n > 0 {
      ReadyOfPrefix(a, b, n - 1, entries);
    }
  }

  /**
   * Enumeration visits exactly the stored entries among the first `n` keys
   * whose `irnore` is false, each of them once.
   */
  lemma {:induction false} ReadyOfExactly(keys: seq<string>, n: nat, entries: map<string, Entry>)
    requires n <= |keys| && KeyedByUid(entries)
    ensures forall k :: k in Uids(ReadyOf(keys, n, entries)) <==>
                        k in keys[..n] && k in entries && !entries[k].data.irnore
    ensures NoDup(keys) ==> NoDup(Uids(ReadyOf(keys, n, entries)))
  {
    if n > 0 {
      var last := keys[n - 1];
      ReadyOfExactly(keys, n - 1, entries);
      var init, tail := ReadyOf(keys, n - 1, entries), Visit(last, entries);
      UidsAppend(init, tail);
      assert Uids(tail) == if tail == [] then [] else [last];
      assert keys[..n] == keys[..n - 1] + [last];
      if NoDup(keys) {
        assert last !in keys[..n - 1];
      }
    }
  }

  /** When each of the first `n` keys is stored and ready, enumeration gives back those keys. */
  lemma {:induction false} ReadyOfAll(keys: seq<string>, n: nat, entries: map<string, Entry>)
    requires n <= |keys| && KeyedByUid(entries)
    requires forall i :: 0 <= i < n ==> keys[i] in entries && !entries[keys[i]].data.irnore
    ensures Uids(ReadyOf(keys, n, entries)) == keys[..n]
  {
    if n > 0 {
      ReadyOfAll(keys, n - 1, entries);
      UidsAppend(ReadyOf(keys, n - 1, entries), Visit(keys[n - 1], entries));
      assert keys[..n] == keys[..n - 1] + [keys[n - 1]];
    }
  }

  /** Storing under a key enumeration has not reached leaves what it visits unchanged. */
  lemma {:induction false} ReadyOfOutside(keys: seq<string>, n: nat, entries: map<string, Entry>, k: string, e: Entry)
    requires n <= |keys|
    requires forall i :: 0 <= i < n ==> keys[i] != k
    ensures ReadyOf(keys, n, entries[k := e]) == ReadyOf(keys, n, entries)
  {
    if n > 0 {
      ReadyOfOutside(keys, n - 1, entries, k, e);
    }
  }

  /** Adding a key that is not ready leaves what enumeration visits unchanged. */
  lemma AdmitHidden(order: seq<string>, entries: map<string, Entry>, uid: string, e: Entry)
    requires uid !in order && e.data.irnore
    ensures ReadyOf(order + [uid], |order| + 1, entries[uid := e]) == ReadyOf(order, |order|, entries)
  {
    var keys := order + [uid];
    ReadyOfPrefix(keys, order, |order|, entries[uid := e]);
    ReadyOfOutside(order, |order|, entries, uid, e);
  }

  /** The key list after `delete connections[x]`: `s` without `x`, order kept. */
  function Without(s: seq<string>, x: string): (r: seq<string>)
    ensures forall k :: k in r <==> k in s && k != x
    ensures NoDup(s) ==> NoDup(r)
    decreases |s|
  {
    if s == [] then []
    else
      var tail := Without(s[1..], x);
      assert NoDup(s) ==> s[0] !in s[1..] && NoDup(s[1..]);
      if s[0] == x then tail else [s[0]] + tail
  }

  /**
   * The properties `getUniqueKey(connections)` enumerates, each with the
   * string that `==` compares against its name: a method converts to its
   * source text, which starts with its name and its parameter list (the rest
   * is abbreviated here), and an entry `{socket, data}` to "[object Object]".
   */
  function RegistryProps(order: seq<string>): UniqueKey.Props {
    [("forEach", "forEach(callback) { ... }"), ("map", "map(callback) { ... }")]
    + seq(|order|, i requires 0 <= i < |order| => (order[i], UniqueKey.ObjectText))
  }

  /**
   * With digit-string uids no property of `connections` equals its own name,
   * so the allocator as written returns its first draw unchecked, even one
   * that is already a uid.
   */
  lemma {:induction false} RegistryTakesFirstDraw(order: seq<string>, draws: seq<string>)
    requires forall i :: 0 <= i < |order| ==> UniqueKey.Digits(order[i])
    requires draws != []
    ensures UniqueKey.GetUniqueKey(RegistryProps(order), draws) == Some(draws[0])
    ensures draws[0] in order ==> UniqueKey.GetUniqueKey(RegistryProps(order), draws).value in order
  {
    var obj := RegistryProps(order);
    forall j | 0 <= j < |obj| ensures obj[j].1 != obj[j].0 {
      if j >= 2 {
        assert obj[j] == (order[j - 2], UniqueKey.ObjectText);
        UniqueKey.DigitsAreNotObjectText(order[j - 2]);
      } else {
        assert |obj[j].1| > |obj[j].0|;
      }
    }
  }

  /** The shape of a handler's result, decided once from its `typeof` and `instanceof`. */
  datatype Reply =
    | NoReply                                       // not of type object: ignored
    | Positional(eventName: Value, rest: seq<Value>) // an array: [type, ...args]
    | Named(eventName: Value, payload: Value)       // otherwise: its `type`, then itself
    | Fails(error: Error)                           // the handler or the dispatcher threw

  /** The `type` member of an object. */
  function TypeField(fields: map<string, Value>): Value {
    if "type" in fields then fields["type"] else Undef
  }

  /** The branches after the await: `instanceof Array`, else `returnValue.type`. */
  function Shape(v: Value): Reply {
    if v.Arr? then Positional(First(v.items), Rest(v.items))
    else
      match Property(v, "type")
      case Err(e) => Fails(e)
      case Ok(t) => Named(t, v)
  }

  /**
   * `returnEmit`'s reading of a handler outcome, in the source's order: the
   * `typeof` test comes before the `await`, so a promise always gets past it,
   * whatever it resolves to.
   */
  function Classify(o: Outcome): (r: Reply)
    ensures r == NoReply <==> o.Returned? && !IsObject(o.value)
    ensures r.Fails? <==> o.Threw? || o.Rejected? || o == Returned(Null) || o == Fulfilled(Null) || o == Fulfilled(Undef)
    ensures r.Fails? ==> r.error == if o.Threw? || o.Rejected? then HandlerFailure else TypeError
    ensures (o.Returned? || o.Fulfilled?) && o.value.Arr? ==>
              r == Positional(First(o.value.items), Rest(o.value.items))
    ensures (o.Returned? || o.Fulfilled?) && o.value.Obj? ==>
              r == Named(TypeField(o.value.fields), o.value)
    ensures o.Fulfilled? && o.value.Prim? && o.value != Undef ==> r == Named(Undef, o.value)
    ensures r.Named? ==> r.payload != Null && r.payload != Undef
  {
    match o
    case Threw => Fails(HandlerFailure)
    case Rejected => Fails(HandlerFailure)
    case Returned(v) => if !IsObject(v) then NoReply else Shape(v)
    case Fulfilled(v) => Shape(v)
  }

  /** The returned object after `delete args.type`. */
  function WithoutType(v: Value): Value {
    if v.Obj? then Obj(v.fields - {"type"}) else v
  }

  /**
   * The envelope `returnEmit` asks `emit` to send: `emit.apply(client,
   * [eventName].concat(rest))` for an array, `client.emit(eventName, args)`
   * for the rest.
   */
  function Outgoing(r: Reply): (out: Option<Envelope>)
    ensures out.Some? <==> r.Positional? || r.Named?
    ensures out.Some? ==> out.value.eventType == r.eventName && out.value.args.Arr?
    ensures r.Positional? ==> out.value.args.items == r.rest
    ensures r.Named? ==> |out.value.args.items| == 1
    ensures r.Named? && r.payload.Obj? ==>
              out.value.args.items[0].Obj? &&
              out.value.args.items[0].fields.Keys == r.payload.fields.Keys - {"type"} &&
              forall k :: k in out.value.args.items[0].fields ==> out.value.args.items[0].fields[k] == r.payload.fields[k]
    ensures r.Named? && !r.payload.Obj? ==> out.value.args.items[0] == r.payload
  {
    match r
    case Positional(n, rest) => Some(Envelope(n, Arr(rest)))
    case Named(n, p) => Some(Envelope(n, Arr([WithoutType(p)])))
    case _ => None
  }

  /** How `emit` ends, given whether the client's uid is still in the registry. */
  function EmitStatus(registered: bool, e: Envelope): Status {
    if !registered then Raised(StaleConnection)
    else if !Sendable(e) then Raised(TypeError)
    else Done
  }

  /** How `returnEmit`'s promise settles for a reply. */
  function ReplyStatus(registered: bool, r: Reply): Status {
    match r
    case NoReply => Done
    case Fails(e) => Raised(e)
    case _ => EmitStatus(registered, Outgoing(r).value)
  }

  /** What `returnEmit` appends to the outbox for a reply: only ever to the triggering client. */
  function Delivered(uid: string, registered: bool, r: Reply): seq<(string, Envelope)> {
    if Outgoing(r).Some? && EmitStatus(registered, Outgoing(r).value) == Done
    then [(uid, Outgoing(r).value)]
    else []
  }

  /** A primitive reply is ignored, but the same primitive from a promise is sent with no type. */
  lemma AsyncPrimitiveReplies(v: Value)
    requires v.Prim? && v != Undef
    ensures Outgoing(Classify(Returned(v))) == None
    ensures Outgoing(Classify(Fulfilled(v))) == Some(Envelope(Undef, Arr([v])))
  {
  }

  /** An array reply sends element 0 as the type and the remaining elements, in order, as `args`. */
  lemma ArrayReply(items: seq<Value>)
    ensures Outgoing(Classify(Returned(Arr(items)))) == Some(Envelope(First(items), Arr(Rest(items))))
  {
  }

  /**
   * Once the uid has left the registry, every reply that would send raises
   * in `emit` and sends nothing.
   */
  lemma StaleReply(uid: string, r: Reply)
    requires Outgoing(r).Some?
    ensures ReplyStatus(false, r) == Raised(StaleConnection)
    ensures Delivered(uid, false, r) == []
  {
  }

  /** For arrays and objects the await makes no difference. */
  lemma AwaitTransparentForAggregates(v: Value)
    requires v.Arr? || v.Obj?
    ensures Classify(Fulfilled(v)) == Classify(Returned(v))
  {
  }

  /** The object form: `type` goes to the envelope, the remaining members are the one argument. */
  lemma ObjectReply(fields: map<string, Value>)
    ensures Outgoing(Classify(Returned(Obj(fields)))) ==
            Some(Envelope(TypeField(fields), Arr([Obj(fields - {"type"})])))
  {
  }

  lemma Overwrite<K, V>(m: map<K, V>, k: K, a: V, b: V)
    ensures m[k := a][k := b] == m[k := b]
  {
  }

  /** The callback results of `map`, one per record, in order. */
  function Mapped<T>(callback: Client -> T, cs: seq<Client>): (r: seq<T>)
    ensures |r| == |cs|
    ensures forall i :: 0 <= i < |cs| ==> r[i] == callback(cs[i])
  {
    seq(|cs|, i requires 0 <= i < |cs| => callback(cs[i]))
  }

  class Server {
    /** The handler table; reserved names are ordinary keys. */
    const evs: map<string, Handler>
    /** The uids in `for..in` order. */
    var order: seq<string>
    var entries: map<string, Entry>
    var outbox: seq<(string, Envelope)>
    var closeCalls: seq<string>

    /** The registry's shape, which holds at every step, also inside the connect listener. */
    ghost predicate Wellformed()
      reads this
    {
      Registry(order, entries)
    }

    /** Between signals, every stored client is ready. */
    ghost predicate Valid()
      reads this
    {
      Registry(order, entries) && AllReady(entries)
    }

    constructor (evs: map<string, Handler>)
      ensures Valid()
      ensures this.evs == evs && order == [] && entries == map[] && outbox == [] && closeCalls == []
    {
      this.evs := evs;
      order, entries, outbox, closeCalls := [], map[], [], [];
    }

    /** The own properties of `connections`, in `for..in` order. */
    function Props(): seq<string>
      reads this
    {
      MethodNames + order
    }

    function Slot(key: string): Slot
      reads this
    {
      if key in MethodNames then MethodSlot(key)
      else if key in entries then EntrySlot(entries[key])
      else NoSlot
    }

    /** The keys `getUniqueKey` must avoid. */
    function Taken(): set<string>
      reads this
    {
      entries.Keys + {"forEach", "map"}
    }

    /** The records `forEach` passes to its callback, in call order. */
    function ReadyClients(): seq<Client>
      reads this
    {
      ReadyOf(order, |order|, entries)
    }

    function ReadyUids(): seq<string>
      reads this
    {
      Uids(ReadyClients())
    }

    /** Enumeration visits exactly the ready clients, each once. */
    lemma ReadyClientsExactly()
      requires Wellformed()
      ensures forall k :: k in ReadyUids() <==> k in entries && !entries[k].data.irnore
      ensures NoDup(ReadyUids())
    {
      ReadyOfExactly(order, |order|, entries);
      assert order[..|order|] == order;
    }

    /**
     * The directory's `get`: a method name gives the method, a registered uid
     * that entry's `data` (never its socket), anything else nothing.
     */
    function Get(prop: string): (r: Found)
      reads this
      requires Wellformed()
      ensures r.Method? <==> prop in MethodNames
      ensures r.Method? ==> r.name == prop
      ensures r.Data? <==> prop in entries
      ensures r.Data? ==> r.client == entries[prop].data && r.client.uid == prop
    {
      match Slot(prop)
      case MethodSlot(name) => Method(name)
      case EntrySlot(e) => Data(e.data)
      case NoSlot => Nothing
    }

    /** The directory's `set`: refuses every write and changes nothing. */
    method Set(prop: string, value: Value) returns (accepted: bool)
      ensures !accepted
    {
      accepted := false;
    }

    /** `connections.forEach(callback)`: the records passed to `callback`, in call order. */
    method ForEach() returns (visited: seq<Client>)
      requires Wellformed()
      ensures visited == ReadyClients()
      ensures forall k :: k in Uids(visited) <==> k in entries && !entries[k].data.irnore
      ensures NoDup(Uids(visited))
    {
      var props := Props();
      visited := [];
      for i := 0 to |props|
        invariant visited == ReadyOf(props, i, entries)
      {
        var key := props[i];
        match Slot(key) {
          case MethodSlot(_) =>
          case EntrySlot(e) =>
            if !e.data.irnore {
              visited := visited + [e.data];
            }
          case NoSlot =>
        }
      }
      SkipMethods(order, |order|, entries);
      ReadyClientsExactly();
    }

    /** `connections.map(callback)`: one result per visited record, in visiting order. */
    method Map<T>(callback: Client -> T) returns (result: seq<T>)
      requires "forEach" !in entries && "map" !in entries
      ensures result == Mapped(callback, ReadyClients())
    {
      var props := Props();
      result := [];
      for i := 0 to |props|
        invariant result == Mapped(callback, ReadyOf(props, i, entries))
      {
        var key := props[i];
        match Slot(key) {
          case MethodSlot(_) =>
          case EntrySlot(e) =>
            if !e.data.irnore {
              result := result + [callback(e.data)];
            }
          case NoSlot =>
        }
      }
      SkipMethods(order, |order|, entries);
    }

    /** `emit` bound to the client `uid`: one envelope `{type: eventName, args}` to that socket. */
    method Emit(uid: string, eventName: Value, args: seq<Value>) returns (status: Status)
      modifies this`outbox
      ensures uid !in entries ==> status == Raised(StaleConnection)
      ensures status == EmitStatus(uid in entries, Envelope(eventName, Arr(args)))
      ensures outbox == old(outbox) + if status.Done? then [(uid, Envelope(eventName, Arr(args)))] else []
    {
      if uid !in entries {
        return Raised(StaleConnection);
      }
      var e := Envelope(eventName, Arr(args));
      if !Sendable(e) {
        return Raised(TypeError);
      }
      outbox := outbox + [(uid, e)];
      status := Done;
    }

    /** `close` bound to the client `uid`: `connections[uid].socket.close()`. */
    method ClientClose(uid: string) returns (status: Status)
      modifies this`closeCalls
      ensures uid in entries ==> status == Done && closeCalls == old(closeCalls) + [uid]
      ensures uid !in entries ==> status == Raised(TypeError) && closeCalls == old(closeCalls)
    {
      if uid !in entries {
        return Raised(TypeError);
      }
      closeCalls := closeCalls + [uid];
      status := Done;
    }

    /**
     * `returnEmit(func, client, args)`: call the handler and turn its result
     * into at most one envelope, sent on the triggering client.
     */
    method ReturnEmit(func: Handler, client: Client, args: Value) returns (status: Status)
      modifies this`outbox
      ensures ApplyArgs(args).Err? ==> status == Raised(TypeError) && outbox == old(outbox)
      ensures ApplyArgs(args).Ok? ==>
                var reply := Classify(func(Call(client.uid, ApplyArgs(args).value, ReadyUids())));
                && status == ReplyStatus(client.uid in entries, reply)
                && outbox == old(outbox) + Delivered(client.uid, client.uid in entries, reply)
    {
      var applied := ApplyArgs(args);
      if applied.Err? {
        return Raised(TypeError);
      }
      var returnValue := func(Call(client.uid, applied.value, ReadyUids()));
      var reply := Classify(returnValue);
      match reply {
        case NoReply =>
          status := Done;
        case Fails(e) =>
          status := Raised(e);
        case Positional(eventName, rest) =>
          status := Emit(client.uid, eventName, rest);
        case Named(eventName, returned) =>
          var deleted := DeleteProperty(returned, "type");
          var a := deleted.value;
          assert a == WithoutType(returned);
          status := Emit(client.uid, eventName, [a]);
      }
    }

    /**
     * The connect listener: store a new entry whose client is not yet ready,
     * run the `connection` handler, then make the client ready.
     */
    method Connect(draws: seq<string>, socket: nat, request: nat) returns (uid: string, seen: seq<string>, status: Status)
      requires Valid()
      requires UniqueKey.SomeFresh(draws, Taken())
      modifies this`order, this`entries, this`outbox
      ensures Valid()
      ensures UniqueKey.FreshKey(old(Taken()), draws) == Some(uid)
      ensures uid !in old(entries)
      ensures entries == old(entries)[uid := Entry(socket, NewClient(uid).(irnore := false))]
      ensures order == old(order) + [uid]
      ensures seen == old(order) && uid !in seen
      ensures uid in ReadyUids()
      ensures "connection" !in evs ==> status == Done && outbox == old(outbox)
      ensures "connection" in evs ==>
                var reply := Classify(evs["connection"](Call(uid, [Host(socket), Host(request)], seen)));
                && status == ReplyStatus(true, reply)
                && outbox == old(outbox) + Delivered(uid, true, reply)
    {
      uid := UniqueKey.FreshKey(Taken(), draws).value;
      seen := Admit(uid, socket);
      status := Done;
      if "connection" in evs {
        status := ReturnEmit(evs["connection"], NewClient(uid), Arr([Host(socket), Host(request)]));
      }
      Ready(uid, socket);
      Overwrite(old(entries), uid, Entry(socket, NewClient(uid)), Entry(socket, NewClient(uid).(irnore := false)));
    }

    /** `connections[client.uid] = {socket, data: client}` with the client still flagged `irnore`. */
    method Admit(uid: string, socket: nat) returns (seen: seq<string>)
      requires Valid() && uid !in Taken()
      modifies this`order, this`entries
      ensures Wellformed()
      ensures entries == old(entries)[uid := Entry(socket, NewClient(uid))]
      ensures order == old(order) + [uid]
      ensures forall k :: k in entries && k != uid ==> !entries[k].data.irnore
      ensures seen == ReadyUids() == old(order)
    {
      ReadyOfAll(order, |order|, entries);
      assert order[..|order|] == order;
      seen := order;
      AdmitHidden(order, entries, uid, Entry(socket, NewClient(uid)));
      order := order + [uid];
      entries := entries[uid := Entry(socket, NewClient(uid))];
    }

    /** `client.irnore = false`: the new client becomes visible to enumeration. */
    method Ready(uid: string, socket: nat)
      requires Wellformed() && uid in entries && entries[uid] == Entry(socket, NewClient(uid))
      requires forall k :: k in entries && k != uid ==> !entries[k].data.irnore
      modifies this`entries
      ensures Valid()
      ensures entries == old(entries)[uid := Entry(socket, NewClient(uid).(irnore := false))]
      ensures uid in ReadyUids()
    {
      entries := entries[uid := Entry(socket, NewClient(uid).(irnore := false))];
      ReadyClientsExactly();
    }

    /**
     * The message listener of client `uid`: decode the frame and, when the
     * handler table has its type, dispatch to that handler.
     */
    method Message(uid: string, frame: Frame) returns (status: Status)
      requires Valid() && uid in entries
      modifies this`outbox
      ensures Decode(frame).Ignore? ==> status == Done && outbox == old(outbox)
      ensures Decode(frame).Crash? ==> status == Raised(TypeError) && outbox == old(outbox)
      ensures Decode(frame).Event? && Decode(frame).name !in evs ==> status == Done && outbox == old(outbox)
      ensures Decode(frame).Event? && Decode(frame).name in evs ==>
                var applied := ApplyArgs(Decode(frame).args);
                && (applied.Err? ==> status == Raised(TypeError) && outbox == old(outbox))
                && (applied.Ok? ==>
                      var reply := Classify(evs[Decode(frame).name](Call(uid, applied.value, ReadyUids())));
                      && status == ReplyStatus(true, reply)
                      && outbox == old(outbox) + Delivered(uid, true, reply))
    {
      var client := entries[uid].data;
      var inbound := Decode(frame);
      match inbound {
        case Ignore =>
          status := Done;
        case Crash =>
          status := Raised(TypeError);
        case Event(name, args) =>
          if name in evs {
            status := ReturnEmit(evs[name], client, args);
          } else {
            status := Done;
          }
      }
    }

    /**
     * The close listener of client `uid`: delete the entry first, then run
     * the `close` handler, whose reply can no longer be sent.
     */
    method Close(uid: string, code: int, reason: string) returns (status: Status)
      requires Valid() && uid in entries
      modifies this`order, this`entries, this`outbox
      ensures Valid()
      ensures entries == old(entries) - {uid}
      ensures order == Without(old(order), uid)
      ensures uid !in ReadyUids()
      ensures outbox == old(outbox)
      ensures "close" !in evs ==> status == Done
      ensures "close" in evs ==>
                var reply := Classify(evs["close"](Call(uid, [Prim(Num(code)), Prim(Str(reason))], ReadyUids())));
                status == ReplyStatus(false, reply)
    {
      var client := entries[uid].data;
      Remove(uid);
      status := Done;
      if "close" in evs {
        status := ReturnEmit(evs["close"], client, Arr([Prim(Num(code)), Prim(Str(reason))]));
      }
    }

    /** `delete connections[client.uid]`. */
    method Remove(uid: string)
      requires Valid()
      modifies this`order, this`entries
      ensures Valid()
      ensures entries == old(entries) - {uid}
      ensures order == Without(old(order), uid)
      ensures uid !in ReadyUids()
    {
      entries := entries - {uid};
      order := Without(order, uid);
      ReadyClientsExactly();
    }
  }
}
