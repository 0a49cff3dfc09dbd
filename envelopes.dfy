/**
 * The wire unit `{type, args}` and the inbound decoding step shared by the
 * message listeners of both server versions.
 */
module Envelopes {
  import opened Values

  /** What `emit` hands to `JSON.stringify` and `socket.send`. */
  datatype Envelope = Envelope(eventType: Value, args: Value)

  predicate Sendable(e: Envelope) {
    Encodable(e.eventType) && Encodable(e.args)
  }

  /**
   * The object a peer parses from the frame: `JSON.stringify` leaves out
   * members whose value is undefined.
   */
  function Wire(e: Envelope): (w: Value)
    ensures w.Obj?
    ensures "type" in w.fields <==> e.eventType != Undef
    ensures "args" in w.fields <==> e.args != Undef
    ensures "type" in w.fields ==> w.fields["type"] == e.eventType
    ensures "args" in w.fields ==> w.fields["args"] == e.args
    ensures w.fields.Keys <= {"type", "args"}
  {
    var withType: map<string, Value> := if e.eventType == Undef then map[] else map["type" := e.eventType];
    Obj(if e.args == Undef then withType else withType["args" := e.args])
  }

  /** An inbound transport message: text that does not parse, or the parsed value. */
  datatype Frame = Unparseable | Parsed(data: Value)

  /** What the message listener does with a frame. */
  datatype Inbound =
    | Ignore                         // returns without dispatching
    | Crash                          // `data.type` throws: the frame parsed to null
    | Event(name: string, args: Value)

  /** The `type` member of a decoded frame when it is a string. */
  predicate HasStringType(v: Value) {
    v.Obj? && "type" in v.fields && v.fields["type"].Prim? && v.fields["type"].p.Str?
  }

  /**
   * `JSON.parse`, then `typeof data.type != 'string'` to drop the frame, then
   * `data.args` as the arguments.
   */
  function Decode(f: Frame): (r: Inbound)
    ensures r.Event? <==> f.Parsed? && HasStringType(f.data)
    ensures r.Event? ==> r.name == f.data.fields["type"].p.s
    ensures r.Event? ==> r.args == if "args" in f.data.fields then f.data.fields["args"] else Undef
    ensures r.Crash? <==> f.Parsed? && (f.data.Null? || f.data == Undef)
  {
    match f
    case Unparseable => Ignore
    case Parsed(data) =>
      match Property(data, "type")
      case Err(_) => Crash
      case Ok(t) =>
        if t.Prim? && t.p.Str? then
          Event(t.p.s, Property(data, "args").value)
        else
          Ignore
  }

  /** An envelope whose type is a string decodes to that event with the same arguments. */
  lemma RoundTrip(e: Envelope)
    requires e.eventType.Prim? && e.eventType.p.Str?
    ensures Decode(Parsed(Wire(e))) == Event(e.eventType.p.s, e.args)
  {
  }

  /** An envelope whose type is not a string is dropped by the decoder. */
  lemma NonStringTypeDropped(e: Envelope)
    requires !(e.eventType.Prim? && e.eventType.p.Str?)
    ensures Decode(Parsed(Wire(e))) == Ignore
  {
  }
}
