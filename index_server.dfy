/**
 * The earlier server version (index.js): a registry `uid -> socket`, an
 * `emit` that collapses a single object argument into `args`, a synchronous
 * `returnEmit`, and the connect, message and close listeners as state
 * transitions. `socket.send` appends to `outbox` and `socket.close` to
 * `closeCalls`, each tagged with the socket it went to.
 */
module IndexServer {
  import opened Values
  import opened Envelopes
  import UniqueKey

  /**
   * The `args` member `emit` sends: a single argument whose `typeof` is
   * "object" (null and arrays included) goes as it is, any other argument
   * list as an array.
   */
  function Collapse(args: seq<Value>): Value {
    if |args| == 1 && IsObject(args[0]) then args[0] else Arr(args)
  }

  /**
   * What the peer's listener decodes from `emit(name, ...args)`: the single
   * object argument itself, or else the whole argument list.
   */
  lemma EmitDecoded(name: string, args: seq<Value>)
    ensures |args| == 1 && IsObject(args[0]) ==>
              Decode(Parsed(Wire(Envelope(Prim(Str(name)), Collapse(args))))) == Event(name, args[0])
    ensures !(|args| == 1 && IsObject(args[0])) ==>
              Decode(Parsed(Wire(Envelope(Prim(Str(name)), Collapse(args))))) == Event(name, Arr(args))
  {
  }

  /**
   * Listing the arguments or passing them as one array sends the same thing,
   * unless the list is a single object, which is then sent bare.
   */
  lemma SpreadOrArray(args: seq<Value>)
    requires !(|args| == 1 && IsObject(args[0]))
    ensures Collapse([Arr(args)]) == Collapse(args)
  {
  }

  /** The one case the two call forms differ: `emit(n, [o])` wraps `o`, `emit(n, o)` does not. */
  lemma SpreadDiffers(o: Value)
    requires IsObject(o)
    ensures Collapse([Arr([o])]) == Arr([o]) != o == Collapse([o])
  {
  }

  /** The shape of a handler's result in the synchronous dispatcher. */
  datatype Reply =
    | NoReply                                        // not of type object: ignored
    | Positional(eventName: Value, rest: seq<Value>) // an array: [type, ...args]
    | Named(eventName: Value)                        // any other object: its `type`
    | Fails(error: Error)                            // the handler or the dispatcher threw

  /**
   * `returnEmit`'s reading of a handler outcome. There is no `await`: a
   * promise is an object like any other, and its `type` is undefined.
   */
  function Classify(o: Outcome): (r: Reply)
    ensures r == NoReply <==> o.Returned? && !IsObject(o.value)
    ensures r.Fails? <==> o.Threw? || o == Returned(Null)
    ensures r.Fails? ==> r.error == if o.Threw? then HandlerFailure else TypeError
    ensures o.Returned? && o.value.Arr? ==> r == Positional(First(o.value.items), Rest(o.value.items))
    ensures o.Returned? && o.value.Obj? ==>
              r == Named(if "type" in o.value.fields then o.value.fields["type"] else Undef)
    ensures o.Fulfilled? || o.Rejected? ==> r == Named(Undef)
  {
    match o
    case Threw => Fails(HandlerFailure)
    case Fulfilled(_) => Named(Undef)
    case Rejected => Named(Undef)
    case Returned(v) =>
      if !IsObject(v) then NoReply
      else if v.Arr? then Positional(First(v.items), Rest(v.items))
      else
        match Property(v, "type")
        case Err(e) => Fails(e)
        case Ok(t) => Named(t)
  }

  /**
   * The envelope `returnEmit` asks `emit` to send, given the handler's input
   * `args`: for an array, `emit(type, rest)`; for any other object,
   * `delete args.type` on the input and `emit(type, args)`. None when there
   * is nothing to send; an error when the dispatcher throws first.
   */
  function Outgoing(r: Reply, input: Value): (out: Result<Option<Envelope>>)
    ensures r.NoReply? ==> out == Ok(None)
    ensures r.Fails? ==> out == Err(r.error)
    ensures r.Positional? ==> out == Ok(Some(Envelope(r.eventName, Arr(r.rest))))
    ensures r.Named? && (input.Null? || input == Undef) ==> out == Err(TypeError)
    ensures r.Named? && input.Obj? ==> out == Ok(Some(Envelope(r.eventName, Obj(input.fields - {"type"}))))
    ensures r.Named? && input.Arr? ==> out == Ok(Some(Envelope(r.eventName, input)))
  {
    match r
    case NoReply => Ok(None)
    case Fails(e) => Err(e)
    case Positional(n, rest) => Ok(Some(Envelope(n, Collapse([Arr(rest)]))))
    case Named(n) =>
      match DeleteProperty(input, "type")
      case Err(e) => Err(e)
      case Ok(a) => Ok(Some(Envelope(n, Collapse([a]))))
  }

  /** How `emit` ends, given whether `this.uid` has a stored socket. */
  function EmitStatus(registered: bool, e: Envelope): Status {
    if !registered then Raised(TypeError)
    else if !Sendable(e) then Raised(TypeError)
    else Done
  }

  /** How `returnEmit` ends for a reply. */
  function ReplyStatus(registered: bool, out: Result<Option<Envelope>>): Status {
    match out
    case Err(e) => Raised(e)
    case Ok(None) => Done
    case Ok(Some(e)) => EmitStatus(registered, e)
  }

  /** What `returnEmit` appends to the outbox: at most one envelope, to `socket`. */
  function Delivered(socket: nat, registered: bool, out: Result<Option<Envelope>>): seq<(nat, Envelope)> {
    if out.Ok? && out.value.Some? && EmitStatus(registered, out.value.value) == Done
    then [(socket, out.value.value)]
    else []
  }

  /** An array reply sends element 0 as the type and the remaining elements, in order, as `args`. */
  lemma ArrayReply(items: seq<Value>, input: Value)
    ensures Outgoing(Classify(Returned(Arr(items))), input) ==
            Ok(Some(Envelope(First(items), Arr(Rest(items)))))
  {
  }

  /**
   * An object reply takes only its `type` from the returned object: the
   * envelope is the same whatever its other members are.
   */
  lemma ObjectReplyIgnoresMembers(f: map<string, Value>, g: map<string, Value>, input: Value)
    requires ("type" in f <==> "type" in g) && ("type" in f ==> f["type"] == g["type"])
    ensures Outgoing(Classify(Returned(Obj(f))), input) == Outgoing(Classify(Returned(Obj(g))), input)
  {
  }

  /** A handler answering a message whose `args` is a list gets that list echoed back. */
  lemma ObjectReplyEchoesInput(f: map<string, Value>, items: seq<Value>)
    ensures Outgoing(Classify(Returned(Obj(f))), Arr(items)) ==
            Ok(Some(Envelope(if "type" in f then f["type"] else Undef, Arr(items))))
  {
  }

  /** A promise is not awaited: it is sent as an object reply without a type. */
  lemma PromiseReply(o: Outcome, input: Value)
    requires o.Fulfilled? || o.Rejected?
    ensures Outgoing(Classify(o), input) == Outgoing(Classify(Returned(Obj(map[]))), input)
  {
  }

  /**
   * The properties `getUniqueKey(connections)` enumerates: each uid with its
   * socket, which converts to "[object Object]".
   */
  function RegistryProps(uids: seq<string>): UniqueKey.Props {
    seq(|uids|, i requires 0 <= i < |uids| => (uids[i], UniqueKey.ObjectText))
  }

  /**
   * With digit-string uids no socket equals its uid, so the allocator as
   * written returns its first draw unchecked, even one already stored.
   */
  lemma {:induction false} RegistryTakesFirstDraw(uids: seq<string>, draws: seq<string>)
    requires forall i :: 0 <= i < |uids| ==> UniqueKey.Digits(uids[i])
    requires draws != []
    ensures UniqueKey.GetUniqueKey(RegistryProps(uids), draws) == Some(draws[0])
    ensures draws[0] in uids ==> UniqueKey.GetUniqueKey(RegistryProps(uids), draws).value in uids
  {
    var obj := RegistryProps(uids);
    forall j | 0 <= j < |obj| ensures obj[j].1 != obj[j].0 {
      UniqueKey.DigitsAreNotObjectText(uids[j]);
    }
  }

  class Server {
    /** The handler table; reserved names are ordinary keys. */
    const evs: map<string, Handler>
    /** The `connections` object: each uid's socket. */
    var sockets: map<string, nat>
    /**
     * The uids whose message and close listeners were installed and whose
     * socket has not yet signalled close: the ones that can still get events.
     */
    var listening: set<string>
    var outbox: seq<(nat, Envelope)>
    var closeCalls: seq<nat>

    /** Events are delivered only to stored connections. */
    ghost predicate Valid()
      reads this
    {
      listening <= sockets.Keys
    }

    constructor (evs: map<string, Handler>)
      ensures Valid()
      ensures this.evs == evs && sockets == map[] && listening == {} && outbox == [] && closeCalls == []
    {
      this.evs := evs;
      sockets, listening, outbox, closeCalls := map[], {}, [], [];
    }

    /**
     * `emit` bound to the client `uid`: collapse the arguments and send one
     * envelope on the socket stored under `uid`.
     */
    method Emit(uid: string, eventName: Value, args: seq<Value>) returns (status: Status)
      modifies this`outbox
      ensures status == EmitStatus(uid in sockets, Envelope(eventName, Collapse(args)))
      ensures uid !in sockets ==> status == Raised(TypeError)
      ensures outbox == old(outbox) +
                if status.Done? then [(sockets[uid], Envelope(eventName, Collapse(args)))] else []
    {
      var a: Value := Arr(args);
      if |args| == 1 && IsObject(args[0]) {
        a := args[0];
      }
      if uid !in sockets {
        return Raised(TypeError);
      }
      var e := Envelope(eventName, a);
      if !Sendable(e) {
        return Raised(TypeError);
      }
      outbox := outbox + [(sockets[uid], e)];
      status := Done;
    }

    /** `close` bound to the client `uid`: `connections[uid].close()`. */
    method ClientClose(uid: string) returns (status: Status)
      modifies this`closeCalls
      ensures uid in sockets ==> status == Done && closeCalls == old(closeCalls) + [sockets[uid]]
      ensures uid !in sockets ==> status == Raised(TypeError) && closeCalls == old(closeCalls)
    {
      if uid !in sockets {
        return Raised(TypeError);
      }
      closeCalls := closeCalls + [sockets[uid]];
      status := Done;
    }

    /**
     * `returnEmit(func, client, args)`, synchronous: call the handler and
     * answer on the triggering client's socket.
     */
    method ReturnEmit(func: Handler, uid: string, args: Value) returns (status: Status)
      modifies this`outbox
      ensures ApplyArgs(args).Err? ==> status == Raised(TypeError) && outbox == old(outbox)
      ensures ApplyArgs(args).Ok? ==>
                var out := Outgoing(Classify(func(Call(uid, ApplyArgs(args).value, []))), args);
                && status == ReplyStatus(uid in sockets, out)
                && outbox == old(outbox) + if uid in sockets then Delivered(sockets[uid], true, out) else []
    {
      var applied := ApplyArgs(args);
      if applied.Err? {
        return Raised(TypeError);
      }
      var returnValue := func(Call(uid, applied.value, []));
      var reply := Classify(returnValue);
      match reply {
        case NoReply =>
          status := Done;
        case Fails(e) =>
          status := Raised(e);
        case Positional(eventName, rest) =>
          status := Emit(uid, eventName, [Arr(rest)]);
        case Named(eventName) =>
          var deleted := DeleteProperty(args, "type");
          if deleted.Err? {
            return Raised(deleted.error);
          }
          status := Emit(uid, eventName, [deleted.value]);
      }
    }

    /**
     * The connect listener: store the socket under a new uid, run the
     * `connection` handler (whose `apply` receives the socket itself, so the
     * handler gets no arguments), then install the message and close
     * listeners, which an exception from the handler skips.
     */
    method Connect(draws: seq<string>, socket: nat, request: nat) returns (uid: string, status: Status)
      requires Valid()
      requires UniqueKey.SomeFresh(draws, sockets.Keys)
      modifies this`sockets, this`listening, this`outbox
      ensures Valid()
      ensures UniqueKey.FreshKey(old(sockets.Keys), draws) == Some(uid)
      ensures uid !in old(sockets)
      ensures sockets == old(sockets)[uid := socket]
      ensures listening == if status.Done? then old(listening) + {uid} else old(listening)
      ensures "connection" !in evs ==> status == Done && outbox == old(outbox)
      ensures "connection" in evs ==>
                var out := Outgoing(Classify(evs["connection"](Call(uid, [], []))), Host(socket));
                && status == ReplyStatus(true, out)
                && outbox == old(outbox) + Delivered(socket, true, out)
    {
      uid := UniqueKey.FreshKey(sockets.Keys, draws).value;
      sockets := sockets[uid := socket];
      status := Done;
      if "connection" in evs {
        status := ReturnEmit(evs["connection"], uid, Host(socket));
      }
      if status.Done? {
        listening := listening + {uid};
      }
    }

    /**
     * The message listener of client `uid`: decode the frame and, when the
     * handler table has its type, dispatch to that handler.
     */
    method Message(uid: string, frame: Frame) returns (status: Status)
      requires Valid() && uid in listening
      modifies this`outbox
      ensures Decode(frame).Ignore? ==> status == Done && outbox == old(outbox)
      ensures Decode(frame).Crash? ==> status == Raised(TypeError) && outbox == old(outbox)
      ensures Decode(frame).Event? && Decode(frame).name !in evs ==> status == Done && outbox == old(outbox)
      ensures Decode(frame).Event? && Decode(frame).name in evs ==>
                var args := Decode(frame).args;
                var applied := ApplyArgs(args);
                && (applied.Err? ==> status == Raised(TypeError) && outbox == old(outbox))
                && (applied.Ok? ==>
                      var out := Outgoing(Classify(evs[Decode(frame).name](Call(uid, applied.value, []))), args);
                      && status == ReplyStatus(true, out)
                      && outbox == old(outbox) + Delivered(sockets[uid], true, out))
    {
      var inbound := Decode(frame);
      match inbound {
        case Ignore =>
          status := Done;
        case Crash =>
          status := Raised(TypeError);
        case Event(name, args) =>
          if name in evs {
            status := ReturnEmit(evs[name], uid, args);
          } else {
            status := Done;
          }
      }
    }

    /**
     * The close listener of client `uid`: run the `close` handler. The
     * socket stays in the registry, so a reply is still sent on it; the
     * closed socket delivers no further events.
     */
    method Close(uid: string, code: int, reason: string) returns (status: Status)
      requires Valid() && uid in listening
      modifies this`outbox, this`listening
      ensures Valid()
      ensures sockets == old(sockets) && uid in sockets
      ensures listening == old(listening) - {uid}
      ensures "close" !in evs ==> status == Done && outbox == old(outbox)
      ensures "close" in evs ==>
                var args := Arr([Prim(Num(code)), Prim(Str(reason))]);
                var out := Outgoing(Classify(evs["close"](Call(uid, args.items, []))), args);
                && status == ReplyStatus(true, out)
                && outbox == old(outbox) + Delivered(sockets[uid], true, out)
    {
      status := Done;
      if "close" in evs {
        status := ReturnEmit(evs["close"], uid, Arr([Prim(Num(code)), Prim(Str(reason))]));
      }
      listening := listening - {uid};
    }
  }

  /** A connection handler that answers with an object cannot be answered: the socket does not encode. */
  lemma ConnectObjectReplyFails(o: Outcome)
    requires o.Fulfilled? || o.Rejected? || (o.Returned? && o.value.Obj?)
    ensures forall socket: nat :: ReplyStatus(true, Outgoing(Classify(o), Host(socket))) == Raised(TypeError)
  {
  }
}
