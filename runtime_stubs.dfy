/**
 * The runtime-call stubs of the template generator: the static table of the
 * public static runtime entry points (name, result kind, parameter kinds), the
 * compile-time kind checks that guard the creation of a stub, and the stub that
 * is created when they pass.
 *
 * The generator finds a runtime entry point by name, with a reflective scan
 * over the runtime-call holder class; here the entry points are an
 * enumeration, each with its name (`EntryName`) and its signature
 * (`RuntimeSignature`). A machine word (pointer, address) takes the
 * architecture kind `w`.
 */
module RuntimeStubs {
  import opened Wrappers
  import opened Kinds

  /**
   * The public static methods of the runtime-call holder class that templates
   * call, one constructor per method.
   */
  datatype RuntimeEntry =
    | ResolveClassActor
    | ResolveClassObject
    | ResolveHub
    | ResolveNew
    | ResolveNewArray
    | ResolveGetField
    | ResolvePutField
    | ResolveGetStatic
    | ResolvePutStatic
    | ResolveStaticTuple
    | ResolveStaticMethod
    | ResolveVirtualMethod
    | ResolveSpecialMethod
    | ResolveInterfaceMethod
    | ResolveInterfaceID
    | InvokeHandle
    | LinkToSpecial
    | LinkToStatic
    | LinkToInterface
    | LinkToVirtual
    | AllocatePrimitiveArray
    | AllocateObjectArray
    | AllocateObject
    | AllocateHybrid
    | SlowPathAllocate
    | CallProfiler
    | CallProfilerArray
    | FlushLog
    | AllocateIntArray
    | AllocateMultiArray1
    | AllocateMultiArray2
    | AllocateMultiArray3
    | AllocateMultiArrayN
    | UnresolvedCheckcast
    | UnresolvedInstanceOf
    | ArrayHubStoreCheck
    | ThrowClassCastException
    | ThrowArrayIndexOutOfBoundsException
    | ThrowNegativeArraySizeException
    | MonitorEnter
    | MonitorExit
    | LoadException

  /** The method name of a runtime entry point, as the generator spells it when it asks for a stub. */
  function EntryName(e: RuntimeEntry): string
  {
    match e
    case ResolveClassActor => "resolveClassActor"
    case ResolveClassObject => "resolveClassObject"
    case ResolveHub => "resolveHub"
    case ResolveNew => "resolveNew"
    case ResolveNewArray => "resolveNewArray"
    case ResolveGetField => "resolveGetField"
    case ResolvePutField => "resolvePutField"
    case ResolveGetStatic => "resolveGetStatic"
    case ResolvePutStatic => "resolvePutStatic"
    case ResolveStaticTuple => "resolveStaticTuple"
    case ResolveStaticMethod => "resolveStaticMethod"
    case ResolveVirtualMethod => "resolveVirtualMethod"
    case ResolveSpecialMethod => "resolveSpecialMethod"
    case ResolveInterfaceMethod => "resolveInterfaceMethod"
    case ResolveInterfaceID => "resolveInterfaceID"
    case InvokeHandle => "invokeHandle"
    case LinkToSpecial => "linkToSpecial"
    case LinkToStatic => "linkToStatic"
    case LinkToInterface => "linkToInterface"
    case LinkToVirtual => "linkToVirtual"
    case AllocatePrimitiveArray => "allocatePrimitiveArray"
    case AllocateObjectArray => "allocateObjectArray"
    case AllocateObject => "allocateObject"
    case AllocateHybrid => "allocateHybrid"
    case SlowPathAllocate => "slowPathAllocate"
    case CallProfiler => "callProfiler"
    case CallProfilerArray => "callProfilerArray"
    case FlushLog => "flushLog"
    case AllocateIntArray => "allocateIntArray"
    case AllocateMultiArray1 => "allocateMultiArray1"
    case AllocateMultiArray2 => "allocateMultiArray2"
    case AllocateMultiArray3 => "allocateMultiArray3"
    case AllocateMultiArrayN => "allocateMultiArrayN"
    case UnresolvedCheckcast => "unresolvedCheckcast"
    case UnresolvedInstanceOf => "unresolvedInstanceOf"
    case ArrayHubStoreCheck => "arrayHubStoreCheck"
    case ThrowClassCastException => "throwClassCastException"
    case ThrowArrayIndexOutOfBoundsException => "throwArrayIndexOutOfBoundsException"
    case ThrowNegativeArraySizeException => "throwNegativeArraySizeException"
    case MonitorEnter => "monitorEnter"
    case MonitorExit => "monitorExit"
    case LoadException => "loadException"
  }

  /** Result kind (Void for a void method) and parameter kinds of a runtime entry point. */
  datatype Signature = Signature(result: Kind, params: seq<Kind>)

  /**
   * A request made while a template is assembled: call the runtime entry point
   * `entry`, delivering its value into an operand of kind `result` (None when
   * the template passes no result operand), with arguments of the given kinds.
   */
  datatype Call = Call(entry: RuntimeEntry, result: Option<Kind>, args: seq<Kind>)

  /** A compiled stub that calls one runtime entry point. */
  datatype Stub = Stub(entry: RuntimeEntry, result: Option<Kind>, params: seq<Kind>)

  /** Why the creation of a stub failed while the catalog was built. */
  datatype BuildError =
    | ResultKindMismatch(entry: RuntimeEntry)
    | ParameterCountMismatch(entry: RuntimeEntry)
    | ParameterKindMismatch(entry: RuntimeEntry, index: nat)

  /**
   * The signature of each runtime entry point; a machine word takes the
   * architecture kind `w`. Every parameter is a reference, an int or a word,
   * and at most four are taken (the rank-3 allocator's hub and lengths).
   */
  function RuntimeSignature(e: RuntimeEntry, w: Kind): (sig: Signature)
    ensures forall i :: 0 <= i < |sig.params| ==> sig.params[i] in {Object, Int, w}
    ensures |sig.params| <= 4
  {
    match e
    case ResolveClassActor => Signature(Object, [Object])
    case ResolveClassObject => Signature(Object, [Object])
    case ResolveHub => Signature(Object, [Object])
    case ResolveNew => Signature(Object, [Object])
    case ResolveNewArray => Signature(Object, [Object])
    case ResolveGetField => Signature(Int, [Object])
    case ResolvePutField => Signature(Int, [Object])
    case ResolveGetStatic => Signature(Int, [Object])
    case ResolvePutStatic => Signature(Int, [Object])
    case ResolveStaticTuple => Signature(Object, [Object])
    case ResolveStaticMethod => Signature(w, [Object])
    case ResolveVirtualMethod => Signature(Int, [Object])
    case ResolveSpecialMethod => Signature(w, [Object])
    case ResolveInterfaceMethod => Signature(Int, [Object])
    case ResolveInterfaceID => Signature(Int, [Object])
    case InvokeHandle => Signature(w, [Object])
    case LinkToSpecial => Signature(w, [Object])
    case LinkToStatic => Signature(w, [Object])
    case LinkToInterface => Signature(w, [Object, Object])
    case LinkToVirtual => Signature(w, [Object, Object])
    case AllocatePrimitiveArray => Signature(Object, [Object, Int])
    case AllocateObjectArray => Signature(Object, [Object, Int])
    case AllocateObject => Signature(Object, [Object])
    case AllocateHybrid => Signature(Object, [Object])
    case SlowPathAllocate => Signature(w, [Int, w])
    case CallProfiler => Signature(Void, [Int, Object, w])
    case CallProfilerArray => Signature(Void, [Int, Object, w])
    case FlushLog => Signature(w, [w])
    case AllocateIntArray => Signature(Object, [Int])
    case AllocateMultiArray1 => Signature(Object, [Object, Int])
    case AllocateMultiArray2 => Signature(Object, [Object, Int, Int])
    case AllocateMultiArray3 => Signature(Object, [Object, Int, Int, Int])
    case AllocateMultiArrayN => Signature(Object, [Object, Object])
    case UnresolvedCheckcast => Signature(Void, [Object, Object])
    case UnresolvedInstanceOf => Signature(Boolean, [Object, Object])
    case ArrayHubStoreCheck => Signature(Void, [Object, Object])
    case ThrowClassCastException => Signature(Void, [Object, Object])
    case ThrowArrayIndexOutOfBoundsException => Signature(Void, [Object, Int])
    case ThrowNegativeArraySizeException => Signature(Void, [Int])
    case MonitorEnter => Signature(Void, [Object])
    case MonitorExit => Signature(Void, [Object])
    case LoadException => Signature(Object, [])
  }

  /**
   * The condition under which a call agrees with the entry point's signature,
   * in the direction the generator checks it: a call without a result operand
   * needs a void method and a call with one needs the same return kind; the
   * number of arguments is the number of parameters and each argument has the
   * parameter's kind.
   */
  predicate Matches(sig: Signature, c: Call)
  {
    && (c.result.None? ==> sig.result == Void)
    && (c.result.Some? ==> sig.result == c.result.value)
    && sig.params == c.args
  }

  /** Index of the first argument whose kind differs from the parameter's, if any. */
  function FirstKindMismatch(params: seq<Kind>, args: seq<Kind>, from: nat): (r: Option<nat>)
    requires |params| == |args| && from <= |args|
    ensures r.None? <==> forall i :: from <= i < |args| ==> params[i] == args[i]
    ensures r.Some? ==>
      && from <= r.value < |args|
      && params[r.value] != args[r.value]
      && (forall i :: from <= i < r.value ==> params[i] == args[i])
    decreases |args| - from
  {
    if from == |args| then None
    else if params[from] != args[from] then Some(from)
    else FirstKindMismatch(params, args, from + 1)
  }

  /**
   * The checks made before a stub is created, in the generator's order: the
   * result operand against the return kind, then the argument count, then each
   * argument kind. None means every check passed.
   */
  function CheckCall(sig: Signature, c: Call): (r: Option<BuildError>)
    ensures r.None? <==> Matches(sig, c)
    ensures r.Some? && r.value.ParameterKindMismatch? ==>
      r.value.index < |c.args| && |sig.params| == |c.args| && sig.params[r.value.index] != c.args[r.value.index]
  {
    if c.result.None? && sig.result != Void then Some(ResultKindMismatch(c.entry))
    else if c.result.Some? && sig.result != c.result.value then Some(ResultKindMismatch(c.entry))
    else if |sig.params| != |c.args| then Some(ParameterCountMismatch(c.entry))
    else match FirstKindMismatch(sig.params, c.args, 0)
      case None => None
      case Some(i) => Some(ParameterKindMismatch(c.entry, i))
  }

  /** The stub compiled for a runtime entry point: its result operand is absent for a void method. */
  function StubFor(entry: RuntimeEntry, sig: Signature): (s: Stub)
    ensures s.entry == entry && s.params == sig.params
    ensures s.result.None? <==> sig.result == Void
    ensures s.result.Some? ==> s.result.value == sig.result
  {
    Stub(entry, if sig.result == Void then None else Some(sig.result), sig.params)
  }

  /**
   * A stub created for a call that passed the checks agrees with that call: no
   * result exactly when the method is void, otherwise the call's result kind, and
   * the call's argument kinds one by one.
   */
  lemma StubAgreesWithCall(c: Call, w: Kind)
    requires CheckCall(RuntimeSignature(c.entry, w), c).None?
    ensures var s := StubFor(c.entry, RuntimeSignature(c.entry, w));
      && (s.result.None? <==> RuntimeSignature(c.entry, w).result == Void)
      && (c.result.Some? && c.result.value != Void ==> s.result == c.result)
      && |s.params| == |c.args|
      && (forall i :: 0 <= i < |c.args| ==> s.params[i] == c.args[i])
  {
  }
}
