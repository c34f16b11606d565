/**
 * The templates of the catalog. A template is identified by the variant it was
 * built for (its `Op`, carrying the build flags) and by the runtime calls its
 * assembly requests, in order. What each template does when it runs is stated
 * in the modules ArrayAccess, Dispatch, TypeChecks, TlabAllocation and
 * RuntimeCalls.
 */
module Templates {
  import opened Wrappers
  import opened Kinds
  import opened RuntimeStubs

  /** Multi-dimensional allocations of a smaller rank get a resolved template. */
  const SMALL_MULTIANEWARRAY_RANK: nat := 2
  /** Largest rank that has a template. */
  const MAX_MULTIANEWARRAY_RANK: nat := 6

  /**
   * Build-time configuration: the target, whether TLAB allocation goes through
   * an out-of-line slow path, and whether this is a debug build (which logs
   * TLAB allocations).
   */
  datatype Config = Config(arch: Arch, useOutOfLineStubs: bool, debug: bool)

  /** What a class-resolution template resolves a type to. */
  datatype Representation = JavaClass | ObjectHub | StaticFields | TypeInfo
  const AllRepresentations: seq<Representation> := [JavaClass, ObjectHub, StaticFields, TypeInfo]

  datatype Op =
    | Epilogue
    | ProfilerExitEpilogue  // the epilogue that also clears the thread's profiler flag
    | PutField(kind: Kind, writeBarrier: bool, isStatic: bool, resolved: bool)
    | GetField(kind: Kind, isStatic: bool, resolved: bool)
    | ArrayLoad(kind: Kind, boundsCheck: bool)
    | ArrayStore(kind: Kind, boundsCheck: bool, storeCheck: bool, writeBarrier: bool)
    | NewArray(kind: Kind, resolved: bool)
    | TlabNewArray(kind: Kind, resolved: bool, outOfLine: bool)
    | InvokeVirtual(resolved: bool)
    | InvokeInterface(resolved: bool)
    | InvokeSpecial(resolved: bool, nullCheck: bool)
    | InvokeStatic(resolved: bool)
    | InvokeHandle
    | LinkToVirtual
    | LinkToInterface
    | LinkToSpecial
    | LinkToStatic
    | NewMultiArray(rank: nat, resolved: bool)
    | ResolveClass(representation: Representation)
    | Safepoint
    | ArrayLength
    | MonitorEnter
    | MonitorExit
    | NewInstance(resolved: bool, hybrid: bool)
    | TlabNewInstance(resolved: bool, hybrid: bool, outOfLine: bool)
    | CheckcastLeaf(nonnull: bool)
    | CheckcastNonLeaf(nonnull: bool)
    | CheckcastUnresolved(nonnull: bool)
    | InstanceofLeaf(nonnull: bool)
    | InstanceofNonLeaf(nonnull: bool)
    | InstanceofUnresolved(nonnull: bool)
    | MaterializeInstanceOf(nonnull: bool, leaf: bool)
    | MaterializeUnresolved(nonnull: bool)
    | TypeAssert
    | ExceptionObject

  datatype Template = Template(op: Op, calls: seq<Call>)

  /** A template for a resolved site and one for an unresolved site. */
  datatype Pair = Pair(resolved: Template, unresolved: Template)

  datatype SpecialTemplates = SpecialTemplates(resolved: Template, resolvedNullCheckEliminated: Template, unresolved: Template)

  datatype NewInstanceTemplates = NewInstanceTemplates(resolved: Template, resolvedHybrid: Template, unresolved: Template)

  /** Decimal text of a natural number. */
  function NatToString(n: nat): string
  {
    if n < 10 then [(48 + n) as char] else NatToString(n / 10) + [(48 + n % 10) as char]
  }

  /**
   * The entry point a resolved multi-dimensional allocation of the given rank
   * asks for by the name `allocateMultiArray<rank>`: the holder class declares
   * it for ranks 1 to 3 only.
   */
  function MultiArrayEntry(rank: nat): (e: Option<RuntimeEntry>)
    ensures e.Some? <==> 1 <= rank <= 3
  {
    if rank == 1 then Some(AllocateMultiArray1)
    else if rank == 2 then Some(AllocateMultiArray2)
    else if rank == 3 then Some(AllocateMultiArray3)
    else None
  }

  /** The entry point for a rank is the method named `allocateMultiArray` followed by the rank's decimal digits. */
  lemma MultiArrayEntryNamed(rank: nat)
    requires MultiArrayEntry(rank).Some?
    ensures EntryName(MultiArrayEntry(rank).value) == "allocateMultiArray" + NatToString(rank)
  {
    assert NatToString(rank) == [(48 + rank) as char];
  }

  const ThrowIndexOutOfBounds: Call := Call(ThrowArrayIndexOutOfBoundsException, None, [Object, Int])
  const ThrowNegativeArraySize: Call := Call(ThrowNegativeArraySizeException, None, [Int])
  const ResolveNewArrayCall: Call := Call(ResolveNewArray, Some(Object), [Object])
  const ResolveNewCall: Call := Call(ResolveNew, Some(Object), [Object])
  const ThrowClassCast: Call := Call(ThrowClassCastException, None, [Object, Object])

  /** The first runtime call of the template, the one that resolves its site, is to entry point `e`. */
  predicate ResolvesFirst(t: Template, e: RuntimeEntry)
  {
    |t.calls| >= 1 && t.calls[0].entry == e
  }

  /** The epilogue pops the frame and needs no runtime call. */
  function BuildEpilogue(): Template
  {
    Template(Epilogue, [])
  }

  /**
   * The epilogue of the allocation profiler's exit point, built as a template
   * of its own (as the prologue of the entry point is): it pops the frame,
   * stores zero into the thread's profiler flag, and needs no runtime call.
   */
  function BuildProfilerExitEpilogue(): Template
  {
    Template(ProfilerExitEpilogue, [])
  }

  /**
   * The thread's profiler flag after a template with the given variant has
   * run, starting from `flag`: only the exit point's epilogue writes it.
   */
  function ProfilerFlagAfter(op: Op, flag: int): int
  {
    if op == ProfilerExitEpilogue then 0 else flag
  }

  /**
   * The array store template asks for the index-out-of-bounds thrower exactly
   * when it checks bounds, and for the runtime's store check exactly when it
   * checks stores; nothing else.
   */
  function BuildArrayStore(kind: Kind, boundsCheck: bool, storeCheck: bool, writeBarrier: bool): Template
  {
    Template(ArrayStore(kind, boundsCheck, storeCheck, writeBarrier),
      (if boundsCheck then [ThrowIndexOutOfBounds] else [])
      + (if storeCheck then [Call(RuntimeEntry.ArrayHubStoreCheck, None, [Object, Object])] else []))
  }

  /** The array load template asks for the index-out-of-bounds thrower exactly when it checks bounds, and for nothing else. */
  function BuildArrayLoad(kind: Kind, boundsCheck: bool): Template
  {
    Template(ArrayLoad(kind, boundsCheck), if boundsCheck then [ThrowIndexOutOfBounds] else [])
  }

  /** A resolved field store needs no runtime call; an unresolved one asks its resolver for the field offset, an int. */
  function BuildPutFieldTemplate(kind: Kind, writeBarrier: bool, isStatic: bool, resolved: bool): Template
  {
    Template(PutField(kind, writeBarrier, isStatic, resolved),
      if resolved then [] else [Call(if isStatic then ResolvePutStatic else ResolvePutField, Some(Int), [Object])])
  }

  function BuildPutFieldTemplates(kind: Kind, writeBarrier: bool, isStatic: bool): Pair
  {
    Pair(BuildPutFieldTemplate(kind, writeBarrier, isStatic, true), BuildPutFieldTemplate(kind, writeBarrier, isStatic, false))
  }

  /** A resolved field load needs no runtime call; an unresolved one asks its resolver for the field offset, an int. */
  function BuildGetFieldTemplate(kind: Kind, isStatic: bool, resolved: bool): Template
  {
    Template(GetField(kind, isStatic, resolved),
      if resolved then [] else [Call(if isStatic then ResolveGetStatic else ResolveGetField, Some(Int), [Object])])
  }

  function BuildGetFieldTemplates(kind: Kind, isStatic: bool): Pair
  {
    Pair(BuildGetFieldTemplate(kind, isStatic, true), BuildGetFieldTemplate(kind, isStatic, false))
  }

  /** Arrays allocated through the runtime; a primitive array needs no resolution, so both entries are one template. */
  function BuildNewArray(kind: Kind): Pair
  {
    if kind == Object then
      var allocate := Call(AllocateObjectArray, Some(Object), [Object, Int]);
      Pair(Template(NewArray(Object, true), [allocate]), Template(NewArray(Object, false), [ResolveNewArrayCall, allocate]))
    else
      var t := Template(NewArray(kind, true), [Call(AllocatePrimitiveArray, Some(Object), [Object, Int])]);
      Pair(t, t)
  }

  /**
   * Runtime calls of a TLAB array allocation, in the order its variant
   * assembles them: the slow path, the negative-length thrower and the
   * profiler are always requested, the log flush only in a debug build; the
   * out-of-line variant reports to `callProfiler`, the inline one to
   * `callProfilerArray`.
   */
  function TlabArrayCalls(cfg: Config): seq<Call>
  {
    var w := ArchKind(cfg.arch);
    var slowPath := Call(SlowPathAllocate, Some(w), [Int, w]);
    var log := if cfg.debug then [Call(FlushLog, Some(w), [w])] else [];
    if cfg.useOutOfLineStubs then log + [Call(CallProfiler, None, [Int, Object, w]), ThrowNegativeArraySize, slowPath]
    else [slowPath] + log + [Call(CallProfilerArray, None, [Int, Object, w]), ThrowNegativeArraySize]
  }

  /**
   * The resolved template follows the out-of-line-stubs switch; the unresolved
   * Object template always uses the out-of-line variant, whatever the switch.
   */
  function BuildTLABNewArray(kind: Kind, cfg: Config): Pair
  {
    var resolved := Template(TlabNewArray(kind, true, cfg.useOutOfLineStubs), TlabArrayCalls(cfg));
    if kind == Object then
      Pair(resolved, Template(TlabNewArray(kind, false, true), [ResolveNewArrayCall] + TlabArrayCalls(cfg.(useOutOfLineStubs := true))))
    else
      Pair(resolved, resolved)
  }

  /** A resolved virtual call needs no runtime call; an unresolved one asks for the vtable offset, an int. */
  function BuildInvokeVirtual(): Pair
  {
    Pair(Template(InvokeVirtual(true), []),
         Template(InvokeVirtual(false), [Call(ResolveVirtualMethod, Some(Int), [Object])]))
  }

  /** An unresolved interface call asks for the method index and then for the interface id, both ints. */
  function BuildInvokeInterface(): Pair
  {
    Pair(Template(InvokeInterface(true), []),
         Template(InvokeInterface(false), [Call(ResolveInterfaceMethod, Some(Int), [Object]),
                                           Call(ResolveInterfaceID, Some(Int), [Object])]))
  }

  /** Both resolved invokespecial templates (with and without the null check) need no runtime call; the unresolved one asks for the entry address, a word. */
  function BuildInvokeSpecial(cfg: Config): SpecialTemplates
  {
    SpecialTemplates(Template(InvokeSpecial(true, true), []),
                     Template(InvokeSpecial(true, false), []),
                     Template(InvokeSpecial(false, false), [Call(ResolveSpecialMethod, Some(ArchKind(cfg.arch)), [Object])]))
  }

  /** A resolved static call needs no runtime call; an unresolved one asks for the entry address, a word. */
  function BuildInvokeStatic(cfg: Config): Pair
  {
    Pair(Template(InvokeStatic(true), []),
         Template(InvokeStatic(false), [Call(ResolveStaticMethod, Some(ArchKind(cfg.arch)), [Object])]))
  }

  /** The method-handle templates each make one runtime call that yields the entry address, a word. */
  function BuildInvokeHandle(cfg: Config): Template
  {
    Template(Op.InvokeHandle, [Call(RuntimeEntry.InvokeHandle, Some(ArchKind(cfg.arch)), [Object])])
  }

  function BuildLinkToVirtual(cfg: Config): Template
  {
    Template(Op.LinkToVirtual, [Call(RuntimeEntry.LinkToVirtual, Some(ArchKind(cfg.arch)), [Object, Object])])
  }

  function BuildLinkToInterface(cfg: Config): Template
  {
    Template(Op.LinkToInterface, [Call(RuntimeEntry.LinkToInterface, Some(ArchKind(cfg.arch)), [Object, Object])])
  }

  function BuildLinkToSpecial(cfg: Config): Template
  {
    Template(Op.LinkToSpecial, [Call(RuntimeEntry.LinkToSpecial, Some(ArchKind(cfg.arch)), [Object])])
  }

  function BuildLinkToStatic(cfg: Config): Template
  {
    Template(Op.LinkToStatic, [Call(RuntimeEntry.LinkToStatic, Some(ArchKind(cfg.arch)), [Object])])
  }

  /**
   * Multi-dimensional allocation of the given rank: a rank below
   * SMALL_MULTIANEWARRAY_RANK gets a resolved template calling the runtime entry
   * point for that rank with one int length per dimension; the unresolved (or
   * large) template builds an int array of the lengths and calls the general
   * allocator.
   */
  function BuildNewMultiArray(rank: nat): Pair
    requires rank >= 1
  {
    var unresolved := Template(NewMultiArray(rank, false),
      [Call(AllocateIntArray, Some(Object), [Int]), Call(AllocateMultiArrayN, Some(Object), [Object, Object])]);
    if rank < SMALL_MULTIANEWARRAY_RANK then
      Pair(Template(NewMultiArray(rank, true),
             [Call(MultiArrayEntry(rank).value, Some(Object), [Object] + seq(rank, _ => Int))]),
           unresolved)
    else
      Pair(unresolved, unresolved)
  }

  function Resolver(representation: Representation): RuntimeEntry
  {
    match representation
    case JavaClass => ResolveClassObject
    case ObjectHub => ResolveHub
    case StaticFields => ResolveStaticTuple
    case TypeInfo => ResolveClassActor
  }

  /** A class-resolution template makes one call, to the resolver of its representation, which yields an object. */
  function BuildResolveClass(representation: Representation): Template
  {
    Template(ResolveClass(representation), [Call(Resolver(representation), Some(Object), [Object])])
  }

  /** The safepoint poll needs no runtime call. */
  function BuildSafepoint(): Template
  {
    Template(Safepoint, [])
  }

  /** The array length load needs no runtime call. */
  function BuildArrayLength(): Template
  {
    Template(ArrayLength, [])
  }

  /** Monitor enter and exit each call their runtime entry with the object and nothing else. */
  function BuildMonitorEnter(): Template
  {
    Template(Op.MonitorEnter, [Call(RuntimeEntry.MonitorEnter, None, [Object])])
  }

  function BuildMonitorExit(): Template
  {
    Template(Op.MonitorExit, [Call(RuntimeEntry.MonitorExit, None, [Object])])
  }

  /**
   * Instances allocated through the runtime: a tuple by `allocateObject`, a
   * hybrid by `allocateHybrid`; an unresolved site first resolves the hub and
   * then allocates a tuple.
   */
  function BuildNewInstance(): NewInstanceTemplates
  {
    var allocate := Call(AllocateObject, Some(Object), [Object]);
    NewInstanceTemplates(Template(NewInstance(true, false), [allocate]),
                         Template(NewInstance(true, true), [Call(AllocateHybrid, Some(Object), [Object])]),
                         Template(NewInstance(false, false), [ResolveNewCall, allocate]))
  }

  /**
   * Runtime calls of a TLAB tuple allocation, in the order its variant
   * assembles them: the slow path and `callProfiler` always, the log flush
   * only in a debug build.
   */
  function TlabTupleCalls(cfg: Config): seq<Call>
  {
    var w := ArchKind(cfg.arch);
    var slowPath := Call(SlowPathAllocate, Some(w), [Int, w]);
    var log := if cfg.debug then [Call(FlushLog, Some(w), [w])] else [];
    var profile := Call(CallProfiler, None, [Int, Object, w]);
    if cfg.useOutOfLineStubs then log + [profile, slowPath] else [slowPath] + log + [profile]
  }

  /** All three TLAB instance templates follow the out-of-line-stubs switch; the unresolved one resolves the hub first. */
  function BuildTLABNewInstance(cfg: Config): NewInstanceTemplates
  {
    var ool := cfg.useOutOfLineStubs;
    NewInstanceTemplates(Template(TlabNewInstance(true, false, ool), TlabTupleCalls(cfg)),
                         Template(TlabNewInstance(true, true, ool), TlabTupleCalls(cfg)),
                         Template(TlabNewInstance(false, false, ool), [ResolveNewCall] + TlabTupleCalls(cfg)))
  }

  /** The unresolved checkcast leaves the whole test, and the throw, to the runtime. */
  function BuildUnresolvedCheckcast(nonnull: bool): Template
  {
    Template(CheckcastUnresolved(nonnull), [Call(UnresolvedCheckcast, None, [Object, Object])])
  }

  /** A resolved checkcast tests inline and calls the runtime only to throw ClassCastException. */
  function BuildCheckcastForLeaf(nonnull: bool): Pair
  {
    Pair(Template(CheckcastLeaf(nonnull), [ThrowClassCast]), BuildUnresolvedCheckcast(nonnull))
  }

  function BuildCheckcastForNonLeaf(nonnull: bool): Pair
  {
    Pair(Template(CheckcastNonLeaf(nonnull), [ThrowClassCast]), BuildUnresolvedCheckcast(nonnull))
  }

  /** The unresolved instanceof asks the runtime for a boolean answer. */
  function BuildUnresolvedInstanceOf(nonnull: bool): Template
  {
    Template(InstanceofUnresolved(nonnull), [Call(UnresolvedInstanceOf, Some(Boolean), [Object, Object])])
  }

  /** A resolved instanceof computes its answer inline, with no runtime call. */
  function BuildInstanceofForLeaf(nonnull: bool): Pair
  {
    Pair(Template(InstanceofLeaf(nonnull), []), BuildUnresolvedInstanceOf(nonnull))
  }

  function BuildInstanceofForNonLeaf(nonnull: bool): Pair
  {
    Pair(Template(InstanceofNonLeaf(nonnull), []), BuildUnresolvedInstanceOf(nonnull))
  }

  /** The unresolved materialising template delivers the runtime's boolean answer into an int operand. */
  function BuildUnresolvedMaterializeInstanceOf(nonnull: bool): Template
  {
    Template(MaterializeUnresolved(nonnull), [Call(UnresolvedInstanceOf, Some(Int), [Object, Object])])
  }

  /** A resolved materialising instanceof selects its value inline, with no runtime call. */
  function BuildMaterializeInstanceOf(nonnull: bool, leaf: bool): Pair
  {
    Pair(Template(MaterializeInstanceOf(nonnull, leaf), []), BuildUnresolvedMaterializeInstanceOf(nonnull))
  }

  /** The type assertion compares hubs inline and needs no runtime call. */
  function BuildTypeAssert(): Template
  {
    Template(TypeAssert, [])
  }

  /** The exception-object template asks the runtime for the pending exception, an object. */
  function BuildExceptionObject(): Template
  {
    Template(ExceptionObject, [Call(LoadException, Some(Object), [])])
  }

  /** The call names a runtime entry point and agrees with its signature. */
  predicate CallMatches(c: Call, w: Kind)
  {
    Matches(RuntimeSignature(c.entry, w), c)
  }

  /** Every call names a runtime entry point and agrees with its signature. */
  predicate CallsMatch(calls: seq<Call>, w: Kind)
  {
    forall i :: 0 <= i < |calls| ==> CallMatches(calls[i], w)
  }

  /*
   * Every call the catalog's templates request names a runtime entry point
   * and agrees with its signature, with one exception: the unresolved
   * materialising instanceof template (see MaterializeUnresolvedCallMismatch).
   */

  lemma ArrayAccessCallsMatch(kind: Kind, boundsCheck: bool, storeCheck: bool, writeBarrier: bool, w: Kind)
    ensures CallsMatch(BuildArrayStore(kind, boundsCheck, storeCheck, writeBarrier).calls, w)
    ensures CallsMatch(BuildArrayLoad(kind, boundsCheck).calls, w)
  {
    assert CallMatches(ThrowIndexOutOfBounds, w);
    assert CallMatches(Call(ArrayHubStoreCheck, None, [Object, Object]), w);
  }

  lemma FieldCallsMatch(kind: Kind, writeBarrier: bool, isStatic: bool, w: Kind)
    ensures CallsMatch(BuildPutFieldTemplates(kind, writeBarrier, isStatic).resolved.calls, w)
    ensures CallsMatch(BuildPutFieldTemplates(kind, writeBarrier, isStatic).unresolved.calls, w)
    ensures CallsMatch(BuildGetFieldTemplates(kind, isStatic).resolved.calls, w)
    ensures CallsMatch(BuildGetFieldTemplates(kind, isStatic).unresolved.calls, w)
  {
    assert CallMatches(Call(ResolvePutStatic, Some(Int), [Object]), w);
    assert CallMatches(Call(ResolvePutField, Some(Int), [Object]), w);
    assert CallMatches(Call(ResolveGetStatic, Some(Int), [Object]), w);
    assert CallMatches(Call(ResolveGetField, Some(Int), [Object]), w);
  }

  lemma NewArrayCallsMatch(kind: Kind, w: Kind)
    ensures CallsMatch(BuildNewArray(kind).resolved.calls, w)
    ensures CallsMatch(BuildNewArray(kind).unresolved.calls, w)
  {
    assert CallMatches(Call(AllocateObjectArray, Some(Object), [Object, Int]), w);
    assert CallMatches(Call(AllocatePrimitiveArray, Some(Object), [Object, Int]), w);
    assert CallMatches(ResolveNewArrayCall, w);
  }

  /** The calls of a TLAB allocation's fast and slow path agree with their entry points. */
  lemma TlabCallsMatch(cfg: Config)
    ensures var w := ArchKind(cfg.arch);
      && CallMatches(Call(SlowPathAllocate, Some(w), [Int, w]), w)
      && CallMatches(Call(FlushLog, Some(w), [w]), w)
      && CallMatches(ThrowNegativeArraySize, w)
  {
  }

  lemma ProfilerCallsMatch(w: Kind)
    ensures CallMatches(Call(CallProfiler, None, [Int, Object, w]), w)
    ensures CallMatches(Call(CallProfilerArray, None, [Int, Object, w]), w)
  {
  }

  lemma TlabArrayCallsMatch(cfg: Config)
    ensures CallsMatch(TlabArrayCalls(cfg), ArchKind(cfg.arch))
  {
    TlabCallsMatch(cfg);
    ProfilerCallsMatch(ArchKind(cfg.arch));
  }

  lemma TlabNewArrayCallsMatch(kind: Kind, cfg: Config)
    ensures CallsMatch(BuildTLABNewArray(kind, cfg).resolved.calls, ArchKind(cfg.arch))
    ensures CallsMatch(BuildTLABNewArray(kind, cfg).unresolved.calls, ArchKind(cfg.arch))
  {
    TlabArrayCallsMatch(cfg);
    TlabArrayCallsMatch(cfg.(useOutOfLineStubs := true));
    assert CallMatches(ResolveNewArrayCall, ArchKind(cfg.arch));
  }

  lemma VirtualCallsMatch(cfg: Config)
    ensures CallsMatch(BuildInvokeVirtual().resolved.calls, ArchKind(cfg.arch))
    ensures CallsMatch(BuildInvokeVirtual().unresolved.calls, ArchKind(cfg.arch))
  {
    assert CallMatches(Call(ResolveVirtualMethod, Some(Int), [Object]), ArchKind(cfg.arch));
  }

  lemma InterfaceCallsMatch(cfg: Config)
    ensures CallsMatch(BuildInvokeInterface().resolved.calls, ArchKind(cfg.arch))
    ensures CallsMatch(BuildInvokeInterface().unresolved.calls, ArchKind(cfg.arch))
  {
    var w := ArchKind(cfg.arch);
    assert CallMatches(Call(ResolveInterfaceMethod, Some(Int), [Object]), w);
    assert CallMatches(Call(ResolveInterfaceID, Some(Int), [Object]), w);
  }

  lemma DirectCallsMatch(cfg: Config)
    ensures CallsMatch(BuildInvokeSpecial(cfg).unresolved.calls, ArchKind(cfg.arch))
    ensures CallsMatch(BuildInvokeStatic(cfg).unresolved.calls, ArchKind(cfg.arch))
  {
    var w := ArchKind(cfg.arch);
    assert CallMatches(Call(ResolveSpecialMethod, Some(w), [Object]), w);
    assert CallMatches(Call(ResolveStaticMethod, Some(w), [Object]), w);
  }

  lemma HandleCallsMatch(cfg: Config)
    ensures CallsMatch(BuildInvokeHandle(cfg).calls, ArchKind(cfg.arch))
    ensures CallsMatch(BuildLinkToVirtual(cfg).calls, ArchKind(cfg.arch))
  {
    var w := ArchKind(cfg.arch);
    assert CallMatches(Call(RuntimeEntry.InvokeHandle, Some(w), [Object]), w);
    assert CallMatches(Call(RuntimeEntry.LinkToVirtual, Some(w), [Object, Object]), w);
  }

  lemma LinkCallsMatch(cfg: Config)
    ensures CallsMatch(BuildLinkToInterface(cfg).calls, ArchKind(cfg.arch))
    ensures CallsMatch(BuildLinkToSpecial(cfg).calls, ArchKind(cfg.arch))
    ensures CallsMatch(BuildLinkToStatic(cfg).calls, ArchKind(cfg.arch))
  {
    var w := ArchKind(cfg.arch);
    assert CallMatches(Call(RuntimeEntry.LinkToInterface, Some(w), [Object, Object]), w);
    assert CallMatches(Call(RuntimeEntry.LinkToSpecial, Some(w), [Object]), w);
    assert CallMatches(Call(RuntimeEntry.LinkToStatic, Some(w), [Object]), w);
  }

  lemma NewMultiArrayCallsMatch(rank: nat, w: Kind)
    requires 1 <= rank <= MAX_MULTIANEWARRAY_RANK
    ensures CallsMatch(BuildNewMultiArray(rank).unresolved.calls, w)
  {
    var unresolved := [Call(AllocateIntArray, Some(Object), [Int]), Call(AllocateMultiArrayN, Some(Object), [Object, Object])];
    assert CallMatches(unresolved[0], w) && CallMatches(unresolved[1], w);
    assert BuildNewMultiArray(rank).unresolved.calls == unresolved;
  }

  lemma NewMultiArrayResolvedCallsMatch(rank: nat, w: Kind)
    requires 1 <= rank <= MAX_MULTIANEWARRAY_RANK
    ensures CallsMatch(BuildNewMultiArray(rank).resolved.calls, w)
  {
    if rank == 1 {
      assert [Object] + seq(1, _ => Int) == [Object, Int];
      assert BuildNewMultiArray(rank).resolved.calls == [Call(AllocateMultiArray1, Some(Object), [Object, Int])];
      assert CallMatches(Call(AllocateMultiArray1, Some(Object), [Object, Int]), w);
    } else {
      NewMultiArrayCallsMatch(rank, w);
    }
  }

  lemma ResolveClassCallsMatch(representation: Representation, w: Kind)
    ensures CallsMatch(BuildResolveClass(representation).calls, w)
  {
    assert CallMatches(Call(Resolver(representation), Some(Object), [Object]), w);
  }

  lemma MonitorCallsMatch(w: Kind)
    ensures CallsMatch(BuildMonitorEnter().calls, w)
    ensures CallsMatch(BuildMonitorExit().calls, w)
  {
    assert CallMatches(Call(RuntimeEntry.MonitorEnter, None, [Object]), w);
    assert CallMatches(Call(RuntimeEntry.MonitorExit, None, [Object]), w);
  }

  lemma ExceptionObjectCallsMatch(w: Kind)
    ensures CallsMatch(BuildExceptionObject().calls, w)
  {
    assert CallMatches(Call(LoadException, Some(Object), []), w);
  }

  lemma TlabTupleCallsMatch(cfg: Config)
    ensures CallsMatch(TlabTupleCalls(cfg), ArchKind(cfg.arch))
  {
    TlabCallsMatch(cfg);
    ProfilerCallsMatch(ArchKind(cfg.arch));
  }

  lemma NewInstanceCallsMatch(cfg: Config)
    ensures CallsMatch(BuildNewInstance().resolved.calls, ArchKind(cfg.arch))
    ensures CallsMatch(BuildNewInstance().resolvedHybrid.calls, ArchKind(cfg.arch))
    ensures CallsMatch(BuildNewInstance().unresolved.calls, ArchKind(cfg.arch))
  {
    var w := ArchKind(cfg.arch);
    assert CallMatches(Call(AllocateObject, Some(Object), [Object]), w);
    assert CallMatches(Call(AllocateHybrid, Some(Object), [Object]), w);
    assert CallMatches(ResolveNewCall, w);
  }

  lemma TlabNewInstanceCallsMatch(cfg: Config)
    ensures CallsMatch(BuildTLABNewInstance(cfg).resolved.calls, ArchKind(cfg.arch))
    ensures CallsMatch(BuildTLABNewInstance(cfg).resolvedHybrid.calls, ArchKind(cfg.arch))
    ensures CallsMatch(BuildTLABNewInstance(cfg).unresolved.calls, ArchKind(cfg.arch))
  {
    TlabTupleCallsMatch(cfg);
    assert CallMatches(ResolveNewCall, ArchKind(cfg.arch));
  }

  lemma CheckcastCallsMatch(nonnull: bool, w: Kind)
    ensures CallsMatch(BuildCheckcastForLeaf(nonnull).resolved.calls, w)
    ensures CallsMatch(BuildCheckcastForNonLeaf(nonnull).resolved.calls, w)
    ensures CallsMatch(BuildCheckcastForNonLeaf(nonnull).unresolved.calls, w)
  {
    assert CallMatches(ThrowClassCast, w);
    assert CallMatches(Call(UnresolvedCheckcast, None, [Object, Object]), w);
  }

  lemma InstanceofCallsMatch(nonnull: bool, w: Kind)
    ensures CallsMatch(BuildInstanceofForNonLeaf(nonnull).unresolved.calls, w)
  {
    assert CallMatches(Call(UnresolvedInstanceOf, Some(Boolean), [Object, Object]), w);
  }

  /**
   * The unresolved materialising instanceof requests `unresolvedInstanceOf` with
   * an int result operand, but that entry point returns a boolean: creating its
   * stub from this request would fail the return-kind check. The catalog gets
   * away with it because the instanceof templates, built earlier, have already
   * created the stub, and a cached stub is not checked again.
   */
  lemma MaterializeUnresolvedCallMismatch(nonnull: bool, w: Kind)
    ensures |BuildUnresolvedMaterializeInstanceOf(nonnull).calls| == 1
    ensures var c := BuildUnresolvedMaterializeInstanceOf(nonnull).calls[0];
      && c.entry == BuildUnresolvedInstanceOf(nonnull).calls[0].entry
      && CheckCall(RuntimeSignature(c.entry, w), c) == Some(ResultKindMismatch(c.entry))
  {
  }

  // ----- the runtime calls each template requests -----

  lemma EpilogueRequests()
    ensures var t := BuildEpilogue(); t.op == Epilogue && t.calls == []
  {
  }

  lemma ArrayStoreRequests(kind: Kind, boundsCheck: bool, storeCheck: bool, writeBarrier: bool)
    ensures var t := BuildArrayStore(kind, boundsCheck, storeCheck, writeBarrier);
      && t.op == ArrayStore(kind, boundsCheck, storeCheck, writeBarrier)
      && (boundsCheck <==> |t.calls| >= 1 && t.calls[0].entry == ThrowArrayIndexOutOfBoundsException)
      && (storeCheck <==> |t.calls| >= 1 && t.calls[|t.calls| - 1].entry == RuntimeEntry.ArrayHubStoreCheck)
      && |t.calls| == (if boundsCheck then 1 else 0) + (if storeCheck then 1 else 0)
  {
  }

  lemma ArrayLoadRequests(kind: Kind, boundsCheck: bool)
    ensures var t := BuildArrayLoad(kind, boundsCheck);
      && t.op == ArrayLoad(kind, boundsCheck)
      && (boundsCheck <==> t.calls == [ThrowIndexOutOfBounds])
      && (!boundsCheck ==> t.calls == [])
  {
  }

  lemma PutFieldTemplateRequests(kind: Kind, writeBarrier: bool, isStatic: bool, resolved: bool)
    ensures var t := BuildPutFieldTemplate(kind, writeBarrier, isStatic, resolved);
      && t.op == PutField(kind, writeBarrier, isStatic, resolved)
      && (resolved <==> t.calls == [])
      && (!resolved ==>
        && |t.calls| == 1 && t.calls[0].result == Some(Int)
        && ResolvesFirst(t, if isStatic then ResolvePutStatic else ResolvePutField))
  {
  }

  lemma PutFieldTemplatesRequests(kind: Kind, writeBarrier: bool, isStatic: bool)
    ensures var r := BuildPutFieldTemplates(kind, writeBarrier, isStatic);
      && r.resolved.op == PutField(kind, writeBarrier, isStatic, true) && r.resolved.calls == []
      && r.unresolved.op == PutField(kind, writeBarrier, isStatic, false)
        && ResolvesFirst(r.unresolved, if isStatic then ResolvePutStatic else ResolvePutField)
  {
  }

  lemma GetFieldTemplateRequests(kind: Kind, isStatic: bool, resolved: bool)
    ensures var t := BuildGetFieldTemplate(kind, isStatic, resolved);
      && t.op == GetField(kind, isStatic, resolved)
      && (resolved <==> t.calls == [])
      && (!resolved ==>
        && |t.calls| == 1 && t.calls[0].result == Some(Int)
        && ResolvesFirst(t, if isStatic then ResolveGetStatic else ResolveGetField))
  {
  }

  lemma GetFieldTemplatesRequests(kind: Kind, isStatic: bool)
    ensures var r := BuildGetFieldTemplates(kind, isStatic);
      && r.resolved.op == GetField(kind, isStatic, true) && r.resolved.calls == []
      && r.unresolved.op == GetField(kind, isStatic, false)
        && ResolvesFirst(r.unresolved, if isStatic then ResolveGetStatic else ResolveGetField)
  {
  }

  lemma NewArrayRequests(kind: Kind)
    ensures var r := BuildNewArray(kind);
      && (var allocator := if kind == Object then AllocateObjectArray else AllocatePrimitiveArray;
        && |r.resolved.calls| == 1 && r.resolved.calls[0].entry == allocator
        && |r.unresolved.calls| >= 1 && r.unresolved.calls[|r.unresolved.calls| - 1].entry == allocator)
      && (kind == Object ==>
        && ResolvesFirst(r.unresolved, ResolveNewArray) && |r.unresolved.calls| == 2
        && r.unresolved.op == NewArray(Object, false))
      && (kind != Object ==> r.unresolved == r.resolved)
      && r.resolved.op == NewArray(kind, true)
  {
  }

  lemma TlabArrayCallsContents(cfg: Config)
    ensures var calls := TlabArrayCalls(cfg);
      && (var w := ArchKind(cfg.arch);
        && Call(SlowPathAllocate, Some(w), [Int, w]) in calls && ThrowNegativeArraySize in calls
        && (Call(FlushLog, Some(w), [w]) in calls <==> cfg.debug)
        && (Call(CallProfiler, None, [Int, Object, w]) in calls <==> cfg.useOutOfLineStubs)
        && (Call(CallProfilerArray, None, [Int, Object, w]) in calls <==> !cfg.useOutOfLineStubs))
      && |calls| == if cfg.debug then 4 else 3
  {
  }

  lemma TLABNewArrayRequests(kind: Kind, cfg: Config)
    ensures var r := BuildTLABNewArray(kind, cfg);
      && r.resolved == Template(TlabNewArray(kind, true, cfg.useOutOfLineStubs), TlabArrayCalls(cfg))
      && (kind == Object ==>
        && r.unresolved.op == TlabNewArray(Object, false, true)
        && ResolvesFirst(r.unresolved, ResolveNewArray)
        && r.unresolved.calls[1..] == TlabArrayCalls(cfg.(useOutOfLineStubs := true)))
      && (kind != Object ==> r.unresolved == r.resolved)
  {
  }

  lemma InvokeVirtualRequests()
    ensures var r := BuildInvokeVirtual();
      && r.resolved.op == InvokeVirtual(true) && r.resolved.calls == []
      && r.unresolved.op == InvokeVirtual(false) && |r.unresolved.calls| == 1
        && ResolvesFirst(r.unresolved, ResolveVirtualMethod) && r.unresolved.calls[0].result == Some(Int)
  {
  }

  lemma InvokeInterfaceRequests()
    ensures var r := BuildInvokeInterface();
      && r.resolved.op == InvokeInterface(true) && r.resolved.calls == []
      && r.unresolved.op == InvokeInterface(false) && |r.unresolved.calls| == 2
        && ResolvesFirst(r.unresolved, ResolveInterfaceMethod) && r.unresolved.calls[1].entry == ResolveInterfaceID
        && r.unresolved.calls[0].result == Some(Int) && r.unresolved.calls[1].result == Some(Int)
  {
  }

  lemma InvokeSpecialRequests(cfg: Config)
    ensures var r := BuildInvokeSpecial(cfg);
      && r.resolved.calls == [] && r.resolvedNullCheckEliminated.calls == []
      && r.resolved.op == InvokeSpecial(true, true) && r.resolvedNullCheckEliminated.op == InvokeSpecial(true, false)
      && r.unresolved.op == InvokeSpecial(false, false) && |r.unresolved.calls| == 1
        && ResolvesFirst(r.unresolved, ResolveSpecialMethod) && r.unresolved.calls[0].result == Some(ArchKind(cfg.arch))
  {
  }

  lemma InvokeStaticRequests(cfg: Config)
    ensures var r := BuildInvokeStatic(cfg);
      && r.resolved.op == InvokeStatic(true) && r.resolved.calls == []
      && r.unresolved.op == InvokeStatic(false) && |r.unresolved.calls| == 1
        && ResolvesFirst(r.unresolved, ResolveStaticMethod) && r.unresolved.calls[0].result == Some(ArchKind(cfg.arch))
  {
  }

  lemma InvokeHandleRequests(cfg: Config)
    ensures var t := BuildInvokeHandle(cfg);
      t.op == Op.InvokeHandle && |t.calls| == 1
        && ResolvesFirst(t, RuntimeEntry.InvokeHandle) && t.calls[0].result == Some(ArchKind(cfg.arch))
  {
  }

  lemma LinkToVirtualRequests(cfg: Config)
    ensures var t := BuildLinkToVirtual(cfg);
      t.op == Op.LinkToVirtual && |t.calls| == 1
        && ResolvesFirst(t, RuntimeEntry.LinkToVirtual) && t.calls[0].result == Some(ArchKind(cfg.arch))
        && |t.calls[0].args| == 2
  {
  }

  lemma LinkToInterfaceRequests(cfg: Config)
    ensures var t := BuildLinkToInterface(cfg);
      t.op == Op.LinkToInterface && |t.calls| == 1
        && ResolvesFirst(t, RuntimeEntry.LinkToInterface) && t.calls[0].result == Some(ArchKind(cfg.arch))
        && |t.calls[0].args| == 2
  {
  }

  lemma LinkToSpecialRequests(cfg: Config)
    ensures var t := BuildLinkToSpecial(cfg);
      t.op == Op.LinkToSpecial && |t.calls| == 1
        && ResolvesFirst(t, RuntimeEntry.LinkToSpecial) && t.calls[0].result == Some(ArchKind(cfg.arch))
        && |t.calls[0].args| == 1
  {
  }

  lemma LinkToStaticRequests(cfg: Config)
    ensures var t := BuildLinkToStatic(cfg);
      t.op == Op.LinkToStatic && |t.calls| == 1
        && ResolvesFirst(t, RuntimeEntry.LinkToStatic) && t.calls[0].result == Some(ArchKind(cfg.arch))
        && |t.calls[0].args| == 1
  {
  }

  lemma NewMultiArrayRequests(rank: nat)
    requires rank >= 1
    ensures var r := BuildNewMultiArray(rank);
      && r.unresolved.op == NewMultiArray(rank, false)
        && ResolvesFirst(r.unresolved, AllocateIntArray) && |r.unresolved.calls| == 2
        && r.unresolved.calls[1].entry == AllocateMultiArrayN
      && (rank < SMALL_MULTIANEWARRAY_RANK ==>
        && r.resolved.op == NewMultiArray(rank, true) && |r.resolved.calls| == 1
        && MultiArrayEntry(rank).Some? && ResolvesFirst(r.resolved, MultiArrayEntry(rank).value)
        && |r.resolved.calls[0].args| == rank + 1)
      && (rank >= SMALL_MULTIANEWARRAY_RANK ==> r.resolved == r.unresolved)
  {
  }

  lemma ResolveClassRequests(representation: Representation)
    ensures var t := BuildResolveClass(representation);
      t.op == ResolveClass(representation) && |t.calls| == 1
        && ResolvesFirst(t, Resolver(representation)) && t.calls[0].result == Some(Object)
  {
  }

  lemma SafepointRequests()
    ensures var t := BuildSafepoint(); t.op == Safepoint && t.calls == []
  {
  }

  lemma ArrayLengthRequests()
    ensures var t := BuildArrayLength(); t.op == ArrayLength && t.calls == []
  {
  }

  lemma MonitorEnterRequests()
    ensures var t := BuildMonitorEnter();
      t.op == Op.MonitorEnter && |t.calls| == 1
        && ResolvesFirst(t, RuntimeEntry.MonitorEnter) && t.calls[0].result.None? && t.calls[0].args == [Object]
  {
  }

  lemma MonitorExitRequests()
    ensures var t := BuildMonitorExit();
      t.op == Op.MonitorExit && |t.calls| == 1
        && ResolvesFirst(t, RuntimeEntry.MonitorExit) && t.calls[0].result.None? && t.calls[0].args == [Object]
  {
  }

  lemma NewInstanceRequests()
    ensures var r := BuildNewInstance();
      && r.resolved.op == NewInstance(true, false) && |r.resolved.calls| == 1
        && r.resolved.calls[0].entry == AllocateObject
      && r.resolvedHybrid.op == NewInstance(true, true) && |r.resolvedHybrid.calls| == 1
        && r.resolvedHybrid.calls[0].entry == AllocateHybrid
      && r.unresolved.op == NewInstance(false, false) && ResolvesFirst(r.unresolved, ResolveNew)
        && |r.unresolved.calls| == 2 && r.unresolved.calls[1].entry == AllocateObject
  {
  }

  lemma TlabTupleCallsContents(cfg: Config)
    ensures var calls := TlabTupleCalls(cfg);
      && (var w := ArchKind(cfg.arch);
        && Call(SlowPathAllocate, Some(w), [Int, w]) in calls && Call(CallProfiler, None, [Int, Object, w]) in calls
        && (Call(FlushLog, Some(w), [w]) in calls <==> cfg.debug)
        && ThrowNegativeArraySize !in calls)
      && |calls| == if cfg.debug then 3 else 2
  {
  }

  lemma TLABNewInstanceRequests(cfg: Config)
    ensures var r := BuildTLABNewInstance(cfg);
      && r.resolved == Template(TlabNewInstance(true, false, cfg.useOutOfLineStubs), TlabTupleCalls(cfg))
      && r.resolvedHybrid == Template(TlabNewInstance(true, true, cfg.useOutOfLineStubs), TlabTupleCalls(cfg))
      && r.unresolved.op == TlabNewInstance(false, false, cfg.useOutOfLineStubs)
        && ResolvesFirst(r.unresolved, ResolveNew) && r.unresolved.calls[1..] == TlabTupleCalls(cfg)
  {
  }

  lemma UnresolvedCheckcastRequests(nonnull: bool)
    ensures var t := BuildUnresolvedCheckcast(nonnull);
      t.op == CheckcastUnresolved(nonnull) && |t.calls| == 1
        && ResolvesFirst(t, UnresolvedCheckcast) && t.calls[0].result.None?
  {
  }

  lemma CheckcastForLeafRequests(nonnull: bool)
    ensures var r := BuildCheckcastForLeaf(nonnull);
      && r.resolved.op == CheckcastLeaf(nonnull) && r.resolved.calls == [ThrowClassCast]
      && r.unresolved == BuildUnresolvedCheckcast(nonnull)
  {
  }

  lemma CheckcastForNonLeafRequests(nonnull: bool)
    ensures var r := BuildCheckcastForNonLeaf(nonnull);
      && r.resolved.op == CheckcastNonLeaf(nonnull) && r.resolved.calls == [ThrowClassCast]
      && r.unresolved == BuildUnresolvedCheckcast(nonnull)
  {
  }

  lemma UnresolvedInstanceOfRequests(nonnull: bool)
    ensures var t := BuildUnresolvedInstanceOf(nonnull);
      t.op == InstanceofUnresolved(nonnull) && |t.calls| == 1
        && ResolvesFirst(t, UnresolvedInstanceOf) && t.calls[0].result == Some(Boolean)
  {
  }

  lemma InstanceofForLeafRequests(nonnull: bool)
    ensures var r := BuildInstanceofForLeaf(nonnull);
      && r.resolved.op == InstanceofLeaf(nonnull) && r.resolved.calls == []
      && r.unresolved == BuildUnresolvedInstanceOf(nonnull)
  {
  }

  lemma InstanceofForNonLeafRequests(nonnull: bool)
    ensures var r := BuildInstanceofForNonLeaf(nonnull);
      && r.resolved.op == InstanceofNonLeaf(nonnull) && r.resolved.calls == []
      && r.unresolved == BuildUnresolvedInstanceOf(nonnull)
  {
  }

  lemma UnresolvedMaterializeInstanceOfRequests(nonnull: bool)
    ensures var t := BuildUnresolvedMaterializeInstanceOf(nonnull);
      t.op == MaterializeUnresolved(nonnull) && |t.calls| == 1
        && ResolvesFirst(t, UnresolvedInstanceOf) && t.calls[0].result == Some(Int)
  {
  }

  lemma MaterializeInstanceOfRequests(nonnull: bool, leaf: bool)
    ensures var r := BuildMaterializeInstanceOf(nonnull, leaf);
      && r.resolved.op == MaterializeInstanceOf(nonnull, leaf) && r.resolved.calls == []
      && r.unresolved == BuildUnresolvedMaterializeInstanceOf(nonnull)
  {
  }

  lemma TypeAssertRequests()
    ensures var t := BuildTypeAssert(); t.op == TypeAssert && t.calls == []
  {
  }

  lemma ExceptionObjectRequests()
    ensures var t := BuildExceptionObject();
      t.op == ExceptionObject && |t.calls| == 1
        && ResolvesFirst(t, LoadException) && t.calls[0].result == Some(Object) && t.calls[0].args == []
  {
  }
}
