/**
 * JavaScript values as they cross the web-events layer: what `JSON.parse`
 * yields for a frame, what a handler returns, the transport objects handed to
 * handlers, and the few language operations the layer applies to them
 * (`typeof`, property read, `delete`, `Function.prototype.apply`).
 */
module Values {

  datatype Option<+T> = None | Some(value: T)

  /** A value whose `typeof` is not "object". Numbers are modelled as integers. */
  datatype Primitive = Undefined | Bool(b: bool) | Num(n: int) | Str(s: string)

  datatype Value =
    | Prim(p: Primitive)
    | Null
    | Arr(items: seq<Value>)
    | Obj(fields: map<string, Value>)
      /** A transport object (a socket or an upgrade request), known by identity. */
    | Host(id: nat)

  const Undef: Value := Prim(Undefined)

  /** `typeof v == "object"`: true for null, arrays, plain and host objects. */
  predicate IsObject(v: Value) {
    !v.Prim?
  }

  /**
   * Whether `JSON.stringify` can encode the value. Transport objects hold
   * circular references, on which it throws a TypeError.
   */
  predicate Encodable(v: Value) {
    match v
    case Host(_) => false
    case Arr(items) => forall i :: 0 <= i < |items| ==> Encodable(items[i])
    case Obj(fields) => forall k :: k in fields ==> Encodable(fields[k])
    case _ => true
  }

  /** The exceptions this layer can raise or let through. */
  datatype Error =
    | TypeError        // a property of undefined/null, a bad `apply`, a circular `JSON.stringify`
    | StaleConnection  // `emit` after the connection left the registry
    | HandlerFailure   // the application handler threw or its promise rejected

  /** How a step ended: normally, or with an exception (or a rejected promise). */
  datatype Status = Done | Raised(error: Error)

  datatype Result<+T> = Ok(value: T) | Err(error: Error)

  /** The property read `v[name]`; undefined when absent, a TypeError on undefined and null. */
  function Property(v: Value, name: string): Result<Value> {
    match v
    case Null => Err(TypeError)
    case Prim(Undefined) => Err(TypeError)
    case Obj(m) => Ok(if name in m then m[name] else Undef)
    case _ => Ok(Undef)
  }

  /** `delete v[name]` (sloppy mode), giving the value afterwards. */
  function DeleteProperty(v: Value, name: string): Result<Value> {
    match v
    case Null => Err(TypeError)
    case Prim(Undefined) => Err(TypeError)
    case Obj(m) => Ok(Obj(m - {name}))
    case _ => Ok(v)
  }

  /**
   * The argument list `f.apply(self, a)` passes to `f`: undefined and null give
   * no arguments, an array its elements, an object without `length` none; any
   * other primitive is a TypeError.
   */
  function ApplyArgs(a: Value): (r: Result<seq<Value>>)
    ensures r.Err? <==> a.Prim? && a != Undef
    ensures r.Err? ==> r.error == TypeError
    ensures a.Arr? ==> r == Ok(a.items)
    ensures r.Ok? && !a.Arr? ==> r.value == []
  {
    match a
    case Arr(items) => Ok(items)
    case Null => Ok([])
    case Obj(_) => Ok([])
    case Host(_) => Ok([])
    case Prim(p) => if p.Undefined? then Ok([]) else Err(TypeError)
  }

  /** `a[0]` of an array: undefined when it is empty. */
  function First(items: seq<Value>): Value {
    if items == [] then Undef else items[0]
  }

  /** The array `a.slice(1)`. */
  function Rest(items: seq<Value>): seq<Value> {
    if items == [] then [] else items[1..]
  }

  /** What calling an application handler produced. */
  datatype Outcome =
    | Returned(value: Value)   // a synchronous return (a bare `return;` is Returned(Undef))
    | Threw                    // a synchronous throw
    | Fulfilled(value: Value)  // a Promise, which resolves to value
    | Rejected                 // a Promise, which rejects

  /**
   * One invocation of a handler: the uid of the client bound as `this`, the
   * arguments after `apply`, and the uids that the directory's enumeration
   * would visit at that moment (empty where there is no directory).
   */
  datatype Call = Call(self: string, args: seq<Value>, ready: seq<string>)

  /** An application handler, opaque to this layer. */
  type Handler = Call -> Outcome
}
